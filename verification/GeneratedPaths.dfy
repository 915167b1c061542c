/** `PurePosixPath` and `safe_generated_path` (llm_test_generation/generate_tests.py:402-413). */
module GeneratedPaths {
  import opened Splitting
  import opened Text

  // ----- pathlib -----

  /** Components without the empty ones and the dots. */
  function Drop(components: seq<string>): seq<string> {
    if components == [] then []
    else (if components[0] == "" || components[0] == "." then [] else [components[0]]) + Drop(components[1..])
  }

  /** `PurePosixPath(name).parts` of a relative name */
  function Parts(name: string): seq<string> { Drop(Split(name, '/')) }

  predicate Absolute(name: string) { name != "" && name[0] == '/' }

  // ----- the check -----

  const RESERVED_OUTPUT_NAMES := {"generation.json", "generation_metadata.json"}

  datatype SafePath = Safe(parts: seq<string>) | Backslash | Unsafe | Reserved | NotAName

  /** `safe_generated_path`, without the output root. Resolving a name with a NUL character fails. */
  function SafeGeneratedPath(name: string): SafePath {
    var parts := Parts(name);
    if '\\' in name then Backslash
    else if Absolute(name) || parts == [] || ".." in parts then Unsafe
    else if Lower(Posix(parts)) in RESERVED_OUTPUT_NAMES then Reserved
    else if '\0' in name then NotAName
    else Safe(parts)
  }

  // ----- parser and printer -----

  predicate Component(s: string) { s != "" && s != "." && '/' !in s }

  lemma {:induction false} FirstSlash(a: string, b: string)
    ensures var s, k := a + "/" + b, UpTo(a, '/');
      && UpTo(s, '/') == k < |s| && s[..k] == a[..k]
      && (k == |a| ==> s[..k] == a && s[k + 1..] == b)
      && (k < |a| ==> s[k + 1..] == a[k + 1..] + "/" + b)
  {
    hide UpTo;
    var s, k := a + "/" + b, UpTo(a, '/');
    assert s[..k] == a[..k];
    UpToIs(s, '/', k);
  }

  lemma {:induction false} SplitAppend(a: string, b: string)
    ensures Split(a + "/" + b, '/') == Split(a, '/') + Split(b, '/')
    decreases |a|
  {
    hide Split, UpTo;
    var s, k := a + "/" + b, UpTo(a, '/');
    FirstSlash(a, b);
    SplitAtFirst(s, '/');
    if k == |a| {
      SplitWhole(a, '/');
    } else {
      SplitAtFirst(a, '/');
      SplitAppend(a[k + 1..], b);
    }
  }

  lemma {:induction false} DropAppend(a: seq<string>, b: seq<string>)
    ensures Drop(a + b) == Drop(a) + Drop(b)
    decreases |a|
  {
    if a == [] {
      assert a + b == b;
    } else {
      assert (a + b)[1..] == a[1..] + b;
      DropAppend(a[1..], b);
    }
  }

  /** A slash joins the parts of what stands on its two sides, so repeated slashes and dots do not count. */
  lemma PartsOfJoined(a: string, b: string)
    ensures Parts(a + "/" + b) == Parts(a) + Parts(b)
  {
    SplitAppend(a, b);
    DropAppend(Split(a, '/'), Split(b, '/'));
  }

  lemma EmptyParts()
    ensures Parts("") == [] && Parts(".") == []
  {
    UpToIs("", '/', 0);
    UpToIs(".", '/', 1);
  }

  /** The same file under other spellings: a doubled slash, a dot between, a leading dot, a trailing slash. */
  lemma SpellingsOfOnePath(a: string, b: string)
    ensures Parts(a + "/" + ("" + "/" + b)) == Parts(a + "/" + b)
    ensures Parts(a + "/" + ("." + "/" + b)) == Parts(a + "/" + b)
    ensures Parts("." + "/" + a) == Parts(a) && Parts(a + "/" + "") == Parts(a)
  {
    hide Parts;
    EmptyParts();
    PartsOfJoined(a, b);
    PartsOfJoined("", b);
    PartsOfJoined(".", b);
    PartsOfJoined(a, "" + "/" + b);
    PartsOfJoined(a, "." + "/" + b);
    PartsOfJoined(".", a);
    PartsOfJoined(a, "");
  }

  lemma {:induction false} DropOfComponents(components: seq<string>)
    requires forall k :: 0 <= k < |components| ==> components[k] != "" && components[k] != "."
    ensures Drop(components) == components
    decreases |components|
  {
    if components != [] { DropOfComponents(components[1..]); }
  }

  lemma {:induction false} DropGivesComponents(components: seq<string>)
    requires forall c :: c in components ==> '/' !in c
    ensures forall c :: c in Drop(components) ==> Component(c) && c in components
    decreases |components|
  {
    if components != [] { DropGivesComponents(components[1..]); }
  }

  /** Printing components and parsing the result gives the components. */
  lemma PartsOfPosix(parts: seq<string>)
    requires parts != [] && forall c :: c in parts ==> Component(c)
    ensures Parts(Posix(parts)) == parts
  {
    SplitJoin(parts, '/');
    forall k | 0 <= k < |parts| ensures Component(parts[k]) { assert parts[k] in parts; }
    DropOfComponents(parts);
  }

  lemma PartsAreComponents(name: string)
    ensures forall c :: c in Parts(name) ==> Component(c)
  {
    JoinSplit(name, '/');
    DropGivesComponents(Split(name, '/'));
  }

  lemma {:induction false} JoinChars(parts: seq<string>, x: char)
    ensures x in Join(parts, '/') <==> (x == '/' && |parts| > 1) || exists c :: c in parts && x in c
    decreases |parts|
  {
    if |parts| > 1 {
      JoinChars(parts[1..], x);
      assert forall c :: c in parts <==> c == parts[0] || c in parts[1..];
    } else if |parts| == 1 {
      assert parts[0] in parts;
    }
  }

  predicate Acceptable(parts: seq<string>) {
    && parts != []
    && (forall c :: c in parts ==> Component(c) && c != ".." && '\\' !in c && '\0' !in c)
    && Lower(Posix(parts)) !in {"generation.json", "generation_metadata.json"}
  }

  lemma {:induction false} FirstChar(parts: seq<string>)
    requires parts != [] && Component(parts[0])
    ensures Join(parts, '/') != "" && Join(parts, '/')[0] != '/'
  {
  }

  lemma PartsChars(name: string, c: string, x: char)
    requires c in Parts(name) && x in c
    ensures x in name
  {
    JoinSplit(name, '/');
    DropGivesComponents(Split(name, '/'));
    JoinChars(Split(name, '/'), x);
  }

  lemma AcceptedIsAcceptable(name: string)
    ensures SafeGeneratedPath(name).Safe? ==> Acceptable(SafeGeneratedPath(name).parts)
  {
    hide Lower;
    PartsAreComponents(name);
    forall c, x | c in Parts(name) && x in c ensures x in name {
      PartsChars(name, c, x);
    }
  }

  /** The components that come out are exactly the acceptable ones, and their printed form is accepted as itself. */
  lemma SafePathExact(name: string, parts: seq<string>)
    ensures SafeGeneratedPath(name) == Safe(parts) ==> Acceptable(parts)
    ensures Acceptable(parts) <==> SafeGeneratedPath(Posix(parts)) == Safe(parts)
  {
    hide Lower, Parts;
    if SafeGeneratedPath(name) == Safe(parts) { AcceptedIsAcceptable(name); }
    if SafeGeneratedPath(Posix(parts)) == Safe(parts) { AcceptedIsAcceptable(Posix(parts)); }
    if Acceptable(parts) {
      PartsOfPosix(parts);
      JoinChars(parts, '\\');
      JoinChars(parts, '\0');
      FirstChar(parts);
    }
  }

  lemma {:induction false} DropKeeps(components: seq<string>, c: string)
    requires c in components && c != "" && c != "."
    ensures c in Drop(components)
    decreases |components|
  {
    if c != components[0] { DropKeeps(components[1..], c); }
  }

  /** Parsing loses no character but slashes and dots. */
  lemma CharsOfParts(name: string, x: char)
    requires x in name && x != '/' && x != '.'
    ensures exists c :: c in Parts(name) && x in c
  {
    JoinSplit(name, '/');
    JoinChars(Split(name, '/'), x);
    var c :| c in Split(name, '/') && x in c;
    DropKeeps(Split(name, '/'), c);
  }

  lemma ShortIsNotReserved(name: string)
    requires |name| < 15
    ensures Lower(name) !in RESERVED_OUTPUT_NAMES
  {
    assert |"generation.json"| == 15 && |"generation_metadata.json"| == 24;
  }

  /** A name is accepted exactly if it does not begin with a slash and its components are acceptable. */
  lemma AcceptedExactly(name: string, parts: seq<string>)
    ensures SafeGeneratedPath(name) == Safe(parts) <==>
      parts == Parts(name) && Acceptable(parts) && !(name != "" && name[0] == '/')
    ensures SafeGeneratedPath(name) == Backslash <==> '\\' in name
    ensures SafeGeneratedPath(name) == Reserved <==>
      '\\' !in name && !(name != "" && name[0] == '/') && ".." !in Parts(name)
      && Lower(Posix(Parts(name))) in {"generation.json", "generation_metadata.json"}
    ensures SafeGeneratedPath(name) == NotAName ==> '\0' in name
  {
    hide Lower, Parts;
    AcceptedIsAcceptable(name);
    if '\\' in name { CharsOfParts(name, '\\'); }
    if '\0' in name { CharsOfParts(name, '\0'); }
    if Parts(name) == [] { assert |Posix(Parts(name))| == 0; ShortIsNotReserved(Posix(Parts(name))); }
  }

  /** Even where letter case does not matter, an accepted path is none of the two metadata files. */
  lemma NeverReserved(name: string, reserved: string)
    requires reserved in {"generation.json", "generation_metadata.json"}
    ensures SafeGeneratedPath(name).Safe? ==>
      SafeGeneratedPath(name).parts != [reserved] && Lower(Posix(SafeGeneratedPath(name).parts)) != Lower(reserved)
  {
    assert Lower("generation.json") == "generation.json";
    assert Lower("generation_metadata.json") == "generation_metadata.json";
    assert Posix([reserved]) == reserved;
  }

  lemma PosixOfTwo(a: string, b: string)
    ensures Posix([a, b]) == a + "/" + b && Posix([a, b])[|a|] == '/'
  {
    assert [a, b][1..] == [b];
    assert Join([b], '/') == b;
  }

  lemma LowerKeepsSlash(s: string, k: nat)
    requires k < |s| && s[k] == '/'
    ensures '/' in Lower(s)
  {
    assert Lower(s)[k] == '/';
  }

  lemma NoSlashReserved()
    ensures forall r :: r in RESERVED_OUTPUT_NAMES ==> '/' !in r
  {
  }

  /** But it may lie below one: the name of a metadata file is accepted as a directory. */
  lemma ReservedAsDirectory(name: string)
    requires Component(name) && name != ".." && '\\' !in name && '\0' !in name
    ensures var parts := ["generation.json", name]; SafeGeneratedPath(Posix(parts)) == Safe(parts)
  {
    hide Lower;
    var parts := ["generation.json", name];
    PosixOfTwo(parts[0], name);
    LowerKeepsSlash(Posix(parts), 15);
    NoSlashReserved();
    assert Acceptable(parts);
    SafePathExact("", parts);
  }

  predicate ShortName(s: string) { Component(s) && s != ".." && '\\' !in s && '\0' !in s && |s| < 7 }

  lemma PathIsSafe(name: string)
    requires ShortName(name)
    ensures SafeGeneratedPath(name) == Safe([name])
  {
    hide Lower, Parts;
    assert Posix([name]) == name;
    ShortIsNotReserved(name);
    SafePathExact("", [name]);
  }

  lemma PathBelowIsSafe(dir: string, name: string)
    requires ShortName(dir) && ShortName(name)
    ensures SafeGeneratedPath(dir + "/" + name) == Safe([dir, name])
  {
    hide Lower, Parts;
    PosixOfTwo(dir, name);
    ShortIsNotReserved(Posix([dir, name]));
    SafePathExact("", [dir, name]);
  }
}
