/** The profile manager: a cache of loaded tube profiles in front of two
    directories of JSON profile files, `library/` (shipped profiles) and
    `custom/` (user profiles). Each directory is a map from file name to the
    file's content; a file holds either a decoded JSON document or text that
    does not parse. */
module ProfileManagers {
  import opened Wrappers
  import opened Text
  import opened TubeProfiles

  /** What a profile file holds: a decoded JSON object, or text that is not
      valid JSON. */
  datatype StoredFile = Document(data: map<string, Value>) | Unreadable

  datatype LoadError = MalformedJson | BadProfile(error: ProfileError)

  /** `TubeProfile.load`: parse the file and build the profile from its
      dictionary form. */
  function Load(f: StoredFile): (r: Result<TubeProfile, LoadError>)
    ensures f.Unreadable? ==> r == Err(MalformedJson)
    ensures f.Document? ==> (r.Ok? <==> FromDict(f.data).Ok?)
  {
    match f
    case Unreadable => Err(MalformedJson)
    case Document(d) =>
      match FromDict(d)
      case Ok(p) => Ok(p)
      case Err(e) => Err(BadProfile(e))
  }

  /** `TubeProfile.save`: the file written for a profile. */
  function Saved(p: TubeProfile): StoredFile
  {
    Document(ToDict(p))
  }

  /** A saved profile loads back as itself. */
  lemma LoadSaved(p: TubeProfile)
    ensures Load(Saved(p)) == Ok(p)
  {
    FromDictToDict(p);
  }

  // ---------------------------------------------------------------------
  // File names

  datatype Location = Library | Custom

  /** A profile file: the directory it lives in and its file name. */
  datatype ProfilePath = ProfilePath(location: Location, fileName: string)

  predicate IsSeparator(c: char) { c == '/' || c == '\\' }

  /** Path separators replaced by `_`. */
  function Sanitise(name: string): (r: string)
    ensures |r| == |name|
    ensures forall i :: 0 <= i < |name| ==> r[i] == (if IsSeparator(name[i]) then '_' else name[i])
  {
    ReplaceChar(ReplaceChar(name, '/', '_'), '\\', '_')
  }

  /** `.json` has no separator, so sanitising cannot make or break that
      suffix. */
  lemma SanitiseKeepsSuffix(name: string)
    ensures EndsWith(Sanitise(name), ".json") <==> EndsWith(name, ".json")
  {
    var s := Sanitise(name);
    if |name| >= 5 {
      var k := |name| - 5;
      if name[k..] == ".json" {
        assert forall i :: k <= i < |name| ==> s[i] == name[i];
        assert s[k..] == name[k..];
      }
      if s[k..] == ".json" {
        forall i | k <= i < |name| ensures s[i] == name[i] {
          assert s[i] == ".json"[i - k];
        }
        assert s[k..] == name[k..];
      }
    }
  }

  /** The file name for a profile name: path separators become `_` and
      `.json` is appended unless the name already ends with it. */
  function SafeName(name: string): (r: string)
    ensures EndsWith(r, ".json")
    ensures forall i :: 0 <= i < |r| ==> !IsSeparator(r[i])
    ensures |r| == |name| || |r| == |name| + 5
    ensures |r| == |name| <==> EndsWith(name, ".json")
    ensures forall i :: 0 <= i < |name| ==> r[i] == (if IsSeparator(name[i]) then '_' else name[i])
  {
    var s := Sanitise(name);
    SanitiseKeepsSuffix(name);
    if EndsWith(s, ".json") then s else s + ".json"
  }

  /** A name that is already a clean file name is its own file name. */
  lemma SafeNameKeepsFileNames(name: string)
    requires EndsWith(name, ".json")
    requires forall i :: 0 <= i < |name| ==> !IsSeparator(name[i])
    ensures SafeName(name) == name
  {
    var r := SafeName(name);
    assert |r| == |name|;
    assert forall i :: 0 <= i < |name| ==> r[i] == name[i];
  }

  /** `_profile_path`: the library directory exactly when the location is
      "library", every other location meaning custom. */
  function ProfilePathOf(name: string, location: string): (r: ProfilePath)
    ensures r.location == Library <==> location == "library"
    ensures r.fileName == SafeName(name)
  {
    ProfilePath(if location == "library" then Library else Custom, SafeName(name))
  }

  /** The stem of a file name ending in `.json`, as `Path.stem` computes it:
      the suffix is split off only when a character precedes its dot, so
      the stem of ".json" is ".json" itself. */
  function Stem(fileName: string): (r: string)
    requires EndsWith(fileName, ".json")
    ensures |fileName| > 5 ==> r + ".json" == fileName
    ensures |fileName| == 5 ==> r == fileName
  {
    if |fileName| > 5 then fileName[..|fileName| - 5] else fileName
  }

  /** Two different `.json` file names share a stem only when they are
      ".json" and ".json.json". */
  lemma StemClash(a: string, b: string)
    requires EndsWith(a, ".json") && EndsWith(b, ".json")
    requires a != b && Stem(a) == Stem(b)
    ensures {a, b} == {".json", ".json.json"}
  {
    if |a| == 5 {
      assert a == ".json";
      assert b == Stem(b) + ".json";
      assert b == ".json" + ".json";
      assert ".json" + ".json" == ".json.json";
    } else if |b| == 5 {
      assert b == ".json";
      assert a == Stem(a) + ".json";
      assert a == ".json" + ".json";
      assert ".json" + ".json" == ".json.json";
    } else {
      assert false;
    }
  }

  /** A directory holding both files whose stems coincide. */
  predicate HasStemClash(dir: map<string, StoredFile>)
  {
    ".json" in dir && ".json.json" in dir
  }

  /** The names `glob("*.json")` yields stems for, over some of a directory's
      files. */
  function StemsOf(files: set<string>): set<string>
  {
    set f | f in files && EndsWith(f, ".json") :: Stem(f)
  }

  /** The names `list_profiles` reports. */
  function ListedNames(custom: map<string, StoredFile>, library: map<string, StoredFile>,
                       includeLibrary: bool): (r: set<string>)
    ensures StemsOf(custom.Keys) <= r
    ensures !includeLibrary ==> r == StemsOf(custom.Keys)
    ensures includeLibrary ==> r == StemsOf(custom.Keys) + StemsOf(library.Keys)
  {
    StemsOf(custom.Keys) + (if includeLibrary then StemsOf(library.Keys) else {})
  }

  // ---------------------------------------------------------------------
  // Python's ordering of strings: by code point, a proper prefix first

  predicate StrLe(a: string, b: string)
    decreases |a|
  {
    |a| == 0 || (|b| > 0 && (a[0] < b[0] || (a[0] == b[0] && StrLe(a[1..], b[1..]))))
  }

  lemma {:induction false} StrLeReflexive(a: string)
    ensures StrLe(a, a)
    decreases |a|
  {
    if |a| > 0 { StrLeReflexive(a[1..]); }
  }

  lemma {:induction false} StrLeTotal(a: string, b: string)
    ensures StrLe(a, b) || StrLe(b, a)
    decreases |a|
  {
    if |a| > 0 && |b| > 0 && a[0] == b[0] { StrLeTotal(a[1..], b[1..]); }
  }

  lemma {:induction false} StrLeAntisymmetric(a: string, b: string)
    requires StrLe(a, b) && StrLe(b, a)
    ensures a == b
    decreases |a|
  {
    if |a| > 0 {
      StrLeAntisymmetric(a[1..], b[1..]);
      assert a == [a[0]] + a[1..] && b == [b[0]] + b[1..];
    }
  }

  lemma {:induction false} StrLeTransitive(a: string, b: string, c: string)
    requires StrLe(a, b) && StrLe(b, c)
    ensures StrLe(a, c)
    decreases |a|
  {
    if |a| > 0 && a[0] == b[0] && b[0] == c[0] { StrLeTransitive(a[1..], b[1..], c[1..]); }
  }

  predicate Sorted(s: seq<string>)
  {
    forall i :: 0 < i < |s| ==> StrLe(s[i - 1], s[i])
  }

  /** Neighbour order gives the order of every pair. */
  lemma {:induction false} SortedPairs(s: seq<string>, i: int, j: int)
    requires Sorted(s) && 0 <= i <= j < |s|
    ensures StrLe(s[i], s[j])
    decreases j - i
  {
    if i == j {
      StrLeReflexive(s[i]);
    } else {
      SortedPairs(s, i, j - 1);
      StrLeTransitive(s[i], s[j - 1], s[j]);
    }
  }

  /** Each name at most once. */
  ghost predicate Distinct(s: seq<string>)
  {
    forall x :: multiset(s)[x] <= 1
  }

  function InsertName(x: string, s: seq<string>): (r: seq<string>)
    requires Sorted(s)
    ensures Sorted(r)
    ensures multiset(r) == multiset(s) + multiset{x}
    ensures |s| > 0 ==> r[0] == x || r[0] == s[0]
    ensures |s| == 0 ==> r == [x]
  {
    if |s| == 0 then [x]
    else if StrLe(x, s[0]) then [x] + s
    else
      StrLeTotal(x, s[0]);
      assert s == [s[0]] + s[1..];
      [s[0]] + InsertName(x, s[1..])
  }

  /** `sorted(names)`: a sorted permutation of the names. */
  function SortNames(s: seq<string>): (r: seq<string>)
    ensures Sorted(r)
    ensures multiset(r) == multiset(s)
  {
    if |s| == 0 then []
    else
      assert s == [s[0]] + s[1..];
      InsertName(s[0], SortNames(s[1..]))
  }

  // ---------------------------------------------------------------------
  // The manager's state as a value, and the operations on it

  /** The two directories and the cache of loaded profiles. */
  datatype Store = Store(library: map<string, StoredFile>, custom: map<string, StoredFile>,
                         cache: map<string, TubeProfile>)

  function Dir(s: Store, loc: Location): map<string, StoredFile>
  {
    if loc == Library then s.library else s.custom
  }

  function WithDir(s: Store, loc: Location, d: map<string, StoredFile>): (r: Store)
    ensures Dir(r, loc) == d
    ensures Dir(r, if loc == Library then Custom else Library) == Dir(s, if loc == Library then Custom else Library)
    ensures r.cache == s.cache
  {
    if loc == Library then s.(library := d) else s.(custom := d)
  }

  /** Loads one file for `name`: the profile is cached on success; a load
      failure yields nothing and caches nothing. */
  function LoadAndCache(s: Store, name: string, f: StoredFile): (r: (Option<TubeProfile>, Store))
    ensures Load(f).Ok? ==> r == (Some(Load(f).value), s.(cache := s.cache[name := Load(f).value]))
    ensures Load(f).Err? ==> r == (None, s)
  {
    match Load(f)
    case Ok(p) => (Some(p), s.(cache := s.cache[name := p]))
    case Err(_) => (None, s)
  }

  /** `get_profile`. */
  function Lookup(s: Store, name: string): (r: (Option<TubeProfile>, Store))
    ensures r.1.library == s.library && r.1.custom == s.custom
    ensures name in s.cache ==> r == (Some(s.cache[name]), s)
    ensures r.0.None? ==> r.1 == s
    ensures r.0.Some? ==> r.1.cache == s.cache[name := r.0.value]
    ensures r.0.Some? && name !in s.cache ==>
      (var f := SafeName(name);
       (f in s.custom && Load(s.custom[f]) == Ok(r.0.value)) ||
       (f !in s.custom && f in s.library && Load(s.library[f]) == Ok(r.0.value)))
    ensures name !in s.cache && SafeName(name) in s.custom ==>
      (var loaded := Load(s.custom[SafeName(name)]);
       r.0 == (if loaded.Ok? then Some(loaded.value) else None))
    ensures name !in s.cache && SafeName(name) !in s.custom && SafeName(name) in s.library ==>
      (var loaded := Load(s.library[SafeName(name)]);
       r.0 == (if loaded.Ok? then Some(loaded.value) else None))
    ensures name !in s.cache && SafeName(name) !in s.custom && SafeName(name) !in s.library ==> r.0.None?
  {
    if name in s.cache then (Some(s.cache[name]), s)
    else
      var customPath := ProfilePathOf(name, "custom");
      if customPath.fileName in s.custom then LoadAndCache(s, name, s.custom[customPath.fileName])
      else
        var libraryPath := ProfilePathOf(name, "library");
        if libraryPath.fileName in s.library then LoadAndCache(s, name, s.library[libraryPath.fileName])
        else (None, s)
  }

  /** Custom shadows library: once a custom file exists for a name that is
      not cached, the library's content cannot change what is found. */
  lemma CustomShadowsLibrary(s: Store, name: string, otherLibrary: map<string, StoredFile>)
    requires name !in s.cache && SafeName(name) in s.custom
    ensures Lookup(s.(library := otherLibrary), name).0 == Lookup(s, name).0
    ensures Lookup(s, name).0.Some? <==> Load(s.custom[SafeName(name)]).Ok?
  {
  }

  /** A library profile is found when no custom file of that name exists:
      a loadable library file is returned, whatever the custom directory
      holds under other names. */
  lemma LibraryFound(s: Store, name: string, otherCustom: map<string, StoredFile>)
    requires name !in s.cache && SafeName(name) !in s.custom && SafeName(name) !in otherCustom
    requires SafeName(name) in s.library && Load(s.library[SafeName(name)]).Ok?
    ensures Lookup(s, name).0 == Some(Load(s.library[SafeName(name)]).value)
    ensures Lookup(s.(custom := otherCustom), name).0 == Lookup(s, name).0
  {
  }

  datatype SaveError = FileExists(path: ProfilePath)

  function LocationName(toLibrary: bool): string
  {
    if toLibrary then "library" else "custom"
  }

  /** `save_profile`. */
  function Save(s: Store, profile: TubeProfile, toLibrary: bool, overwrite: bool): (r: (Result<ProfilePath, SaveError>, Store))
    ensures var path := ProfilePathOf(profile.name, LocationName(toLibrary));
      && (r.0.Err? <==> path.fileName in Dir(s, path.location) && !overwrite)
      && (r.0.Err? ==> r.0.error == FileExists(path) && r.1 == s)
      && (r.0.Ok? ==> r.0.value == path && r.1.cache == s.cache[profile.name := profile])
      && (r.0.Ok? ==> Dir(r.1, path.location) == Dir(s, path.location)[path.fileName := Saved(profile)])
      && (r.0.Ok? ==> (toLibrary ==> r.1.custom == s.custom) && (!toLibrary ==> r.1.library == s.library))
  {
    var path := ProfilePathOf(profile.name, LocationName(toLibrary));
    if path.fileName in Dir(s, path.location) && !overwrite then (Err(FileExists(path)), s)
    else
      var written := WithDir(s, path.location, Dir(s, path.location)[path.fileName := Saved(profile)]);
      (Ok(path), written.(cache := s.cache[profile.name := profile]))
  }

  /** A profile saved to custom is found under its own name, from the cache
      and, once the cache is cleared, from the file. */
  lemma SavedProfileFound(s: Store, profile: TubeProfile, overwrite: bool)
    requires Save(s, profile, false, overwrite).0.Ok?
    ensures var t := Save(s, profile, false, overwrite).1;
      Lookup(t, profile.name).0 == Some(profile) &&
      Lookup(t.(cache := map[]), profile.name).0 == Some(profile)
  {
    var t := Save(s, profile, false, overwrite).1;
    assert t.custom[SafeName(profile.name)] == Saved(profile);
    LoadSaved(profile);
  }

  /** `delete_profile`. */
  function Delete(s: Store, name: string, fromLibrary: bool): (r: (bool, Store))
    ensures var path := ProfilePathOf(name, LocationName(fromLibrary));
      && (r.0 <==> path.fileName in Dir(s, path.location))
      && (!r.0 ==> r.1 == s)
      && (r.0 ==> r.1.cache == s.cache - {name} && name !in r.1.cache)
      && (r.0 ==> Dir(r.1, path.location) == Dir(s, path.location) - {path.fileName})
      && (r.0 ==> (fromLibrary ==> r.1.custom == s.custom) && (!fromLibrary ==> r.1.library == s.library))
  {
    var path := ProfilePathOf(name, LocationName(fromLibrary));
    if path.fileName in Dir(s, path.location) then
      var removed := WithDir(s, path.location, Dir(s, path.location) - {path.fileName});
      (true, removed.(cache := s.cache - {name}))
    else (false, s)
  }

  /** After deleting a custom profile that has no library counterpart, the
      name is no longer found. */
  lemma DeletedProfileGone(s: Store, name: string)
    requires SafeName(name) !in s.library
    ensures Lookup(Delete(s, name, false).1, name).0.None? || !Delete(s, name, false).0
  {
    var r := Delete(s, name, false);
    if r.0 {
      assert SafeName(name) !in r.1.custom;
      assert name !in r.1.cache;
    }
  }

  /** `copy_to_custom`. */
  function Copy(s: Store, name: string): (r: (Option<TubeProfile>, Store))
    ensures SafeName(name) !in s.library ==> r == (None, s)
    ensures SafeName(name) in s.library ==>
      var f := SafeName(name);
      && r.1.library == s.library
      && r.1.custom == s.custom[f := s.library[f]]
      && (Load(s.library[f]).Ok? ==> r.0 == Some(Load(s.library[f]).value) && r.1.cache == s.cache[name := r.0.value])
      && (Load(s.library[f]).Err? ==> r.0 == None && r.1.cache == s.cache - {name})
  {
    var libraryPath := ProfilePathOf(name, "library");
    if libraryPath.fileName !in s.library then (None, s)
    else
      var customPath := ProfilePathOf(name, "custom");
      var copied := s.(custom := s.custom[customPath.fileName := s.library[libraryPath.fileName]],
                       cache := s.cache - {name});
      Lookup(copied, name)
  }

  /** Copying a library profile makes custom shadow it with the same
      content: later lookups find what the library holds, whatever becomes
      of the library afterwards. */
  lemma CopyShadowsLibrary(s: Store, name: string, laterLibrary: map<string, StoredFile>)
    requires SafeName(name) in s.library
    ensures var t := Copy(s, name).1;
      Lookup(t.(library := laterLibrary, cache := map[]), name).0 == Copy(s, name).0
  {
    var t := Copy(s, name).1;
    var f := SafeName(name);
    assert t.custom[f] == s.library[f];
  }

  // ---------------------------------------------------------------------
  // The manager

  class ProfileManager {
    var library: map<string, StoredFile>
    var custom: map<string, StoredFile>
    var cache: map<string, TubeProfile>

    function State(): Store
      reads this
    {
      Store(library, custom, cache)
    }

    /** Opens a manager over the two directories with an empty cache. */
    constructor(library: map<string, StoredFile>, custom: map<string, StoredFile>)
      ensures State() == Store(library, custom, map[])
    {
      this.library := library;
      this.custom := custom;
      cache := map[];
    }

    /** `list_profiles`: the custom stems, then every library stem not
        already listed, sorted. Files are visited in no particular order, as
        a directory scan yields them. */
    method ListProfiles(includeLibrary: bool) returns (names: seq<string>)
      ensures Sorted(names)
      ensures forall x :: x in names <==> x in ListedNames(custom, library, includeLibrary)
      ensures !HasStemClash(custom) ==> Distinct(names)
    {
      names := [];
      var pending := custom.Keys;
      ghost var visited: set<string> := {};
      while pending != {}
        invariant pending + visited == custom.Keys && pending !! visited
        invariant forall x :: x in names <==> x in StemsOf(visited)
        invariant !HasStemClash(custom) ==> Distinct(names)
        decreases pending
      {
        var f :| f in pending;
        if EndsWith(f, ".json") {
          if !HasStemClash(custom) {
            assert Stem(f) !in names by {
              forall g | g in visited && EndsWith(g, ".json") ensures Stem(g) != Stem(f) {
                if Stem(g) == Stem(f) { StemClash(g, f); }
              }
            }
          }
          names := names + [Stem(f)];
        }
        pending := pending - {f};
        visited := visited + {f};
      }
      if includeLibrary {
        pending := library.Keys;
        visited := {};
        while pending != {}
          invariant pending + visited == library.Keys && pending !! visited
          invariant forall x :: x in names <==> x in StemsOf(custom.Keys) + StemsOf(visited)
          invariant !HasStemClash(custom) ==> Distinct(names)
          decreases pending
        {
          var f :| f in pending;
          if EndsWith(f, ".json") {
            var name := Stem(f);
            if name !in names {
              names := names + [name];
            }
          }
          pending := pending - {f};
          visited := visited + {f};
        }
      }
      assert forall x :: x in names <==> x in ListedNames(custom, library, includeLibrary);
      ghost var unsorted := names;
      names := SortNames(names);
      assert forall x :: x in names <==> x in multiset(unsorted);
    }

    /** `get_profile`. */
    method GetProfile(name: string) returns (r: Option<TubeProfile>)
      modifies this
      ensures (r, State()) == Lookup(old(State()), name)
    {
      if name in cache {
        return Some(cache[name]);
      }
      var customPath := ProfilePathOf(name, "custom");
      if customPath.fileName in custom {
        var loaded := Load(custom[customPath.fileName]);
        if loaded.Err? {
          return None;
        }
        cache := cache[name := loaded.value];
        return Some(loaded.value);
      }
      var libraryPath := ProfilePathOf(name, "library");
      if libraryPath.fileName in library {
        var loaded := Load(library[libraryPath.fileName]);
        if loaded.Err? {
          return None;
        }
        cache := cache[name := loaded.value];
        return Some(loaded.value);
      }
      return None;
    }

    /** `save_profile`; `FileExistsError` is the `Err` result. */
    method SaveProfile(profile: TubeProfile, toLibrary: bool, overwrite: bool)
      returns (r: Result<ProfilePath, SaveError>)
      modifies this
      ensures (r, State()) == Save(old(State()), profile, toLibrary, overwrite)
    {
      var path := ProfilePathOf(profile.name, if toLibrary then "library" else "custom");
      var exists_ := if path.location == Library then path.fileName in library else path.fileName in custom;
      if exists_ && !overwrite {
        return Err(FileExists(path));
      }
      if path.location == Library {
        library := library[path.fileName := Saved(profile)];
      } else {
        custom := custom[path.fileName := Saved(profile)];
      }
      cache := cache[profile.name := profile];
      return Ok(path);
    }

    /** `delete_profile`. */
    method DeleteProfile(name: string, fromLibrary: bool) returns (deleted: bool)
      modifies this
      ensures (deleted, State()) == Delete(old(State()), name, fromLibrary)
    {
      var path := ProfilePathOf(name, if fromLibrary then "library" else "custom");
      var exists_ := if path.location == Library then path.fileName in library else path.fileName in custom;
      if exists_ {
        if path.location == Library {
          library := library - {path.fileName};
        } else {
          custom := custom - {path.fileName};
        }
        cache := cache - {name};
        return true;
      }
      return false;
    }

    /** `copy_to_custom`. */
    method CopyToCustom(name: string) returns (r: Option<TubeProfile>)
      modifies this
      ensures (r, State()) == Copy(old(State()), name)
    {
      var libraryPath := ProfilePathOf(name, "library");
      if libraryPath.fileName !in library {
        return None;
      }
      var customPath := ProfilePathOf(name, "custom");
      custom := custom[customPath.fileName := library[libraryPath.fileName]];
      cache := cache - {name};
      r := GetProfile(name);
    }

    /** `clear_cache`. */
    method ClearCache()
      modifies this
      ensures cache == map[]
      ensures library == old(library) && custom == old(custom)
    {
      cache := map[];
    }
  }
}
