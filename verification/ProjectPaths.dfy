/** Paths below a root, their posix spelling, and what `generate_tests.py` reads off them. */
module ProjectPaths {
  import opened Orders
  import opened Splitting
  import opened Text

  predicate PartName(s: string) { s != "" && s != "." && s != ".." && '/' !in s }

  /** A relative path: the names of the directories and of the file. */
  type RelPath = p: seq<string> | p != [] && forall name :: name in p ==> PartName(name) witness ["a"]

  function Name(p: RelPath): string { p[|p| - 1] }

  /** A path can be read off its posix spelling. */
  lemma PosixInjective(p: RelPath, q: RelPath)
    ensures Posix(p) == Posix(q) ==> p == q
  {
    SplitJoin(p, '/');
    SplitJoin(q, '/');
  }

  /** The index of the last dot, or -1. */
  function LastDot(s: string): (k: int)
    ensures -1 <= k < |s| && (k >= 0 ==> s[k] == '.') && forall j :: k < j < |s| ==> s[j] != '.'
  {
    if s == [] then -1
    else if s[|s| - 1] == '.' then |s| - 1
    else LastDot(s[..|s| - 1])
  }

  /** `path.suffix`: from the last dot, unless that begins or ends the name. */
  function Suffix(name: string): string {
    var k := LastDot(name);
    if 0 < k < |name| - 1 then name[k..] else ""
  }

  lemma {:induction false} LastDotIs(s: string, k: nat)
    requires k < |s| && s[k] == '.' && forall j :: k < j < |s| ==> s[j] != '.'
    ensures LastDot(s) == k
  {
  }

  /** The last dot begins the suffix if something stands before and behind it. */
  lemma SuffixSpelledOut(stem: string, ext: string)
    requires '.' !in ext
    ensures Suffix(stem + "." + ext) == if stem == "" || ext == "" then "" else "." + ext
    ensures Suffix(ext) == ""
  {
    var name := stem + "." + ext;
    LastDotIs(name, |stem|);
    assert name[|stem|..] == "." + ext;
  }

  const IMPORTANT_NAMES := {
    "CMakeLists.txt", "Makefile", "meson.build", "configure.ac", "Cargo.toml", "go.mod", "package.json",
    "pyproject.toml", "README", "README.md"
  }

  const SOURCE_SUFFIXES := {
    ".c", ".cc", ".cpp", ".cxx", ".h", ".hh", ".hpp", ".hxx", ".go", ".java", ".js", ".jsx", ".py", ".rs", ".sh",
    ".ts", ".tsx"
  }

  const HEADER_SUFFIXES := {".h", ".hh", ".hpp", ".hxx"}
  const TEST_NAMES := {"test", "tests", "testing", "spec", "specs"}
  const API_NAMES := {"include", "api", "public"}

  predicate AnyPart(p: RelPath, names: set<string>) { exists k :: 0 <= k < |p| && Lower(p[k]) in names }

  /** `candidate_priority` */
  function Priority(p: RelPath): int {
    var suffix := Lower(Suffix(Name(p)));
    (if Name(p) in IMPORTANT_NAMES then 100 else 0)
    + (if AnyPart(p, TEST_NAMES) then 80 else 0)
    + (if AnyPart(p, API_NAMES) then 40 else 0)
    + (if suffix in HEADER_SUFFIXES then 30 else 0)
    + (if suffix in SOURCE_SUFFIXES then 20 else 0)
    - |p|
  }

  datatype Category = Metadata | Tests | Sources | Headers

  /** `candidate_category` */
  function CategoryOf(p: RelPath): Category {
    if Name(p) in IMPORTANT_NAMES then Metadata
    else if AnyPart(p, TEST_NAMES) then Tests
    else if Lower(Suffix(Name(p))) in HEADER_SUFFIXES then Headers
    else Sources
  }

  /** The sort key `(-priority, posix path)`. */
  predicate PathLess(p: RelPath, q: RelPath) {
    Priority(p) > Priority(q) || (Priority(p) == Priority(q) && StrLess(Posix(p), Posix(q)))
  }

  /** No two paths have the same key. */
  lemma PathLessIsTotal()
    ensures StrictTotal(PathLess)
  {
    hide StrLess, Priority, Posix;
    forall p: RelPath ensures !PathLess(p, p) { StrLessIrreflexive(Posix(p)); }
    forall p: RelPath, q: RelPath ensures p == q || PathLess(p, q) || PathLess(q, p) {
      StrLessTotal(Posix(p), Posix(q));
      PosixInjective(p, q);
    }
    forall p: RelPath, q: RelPath, r: RelPath | PathLess(p, q) && PathLess(q, r) ensures PathLess(p, r) {
      if Priority(p) == Priority(q) == Priority(r) { StrLessTransitive(Posix(p), Posix(q), Posix(r)); }
    }
  }

  // ----- what priority and category reward -----

  predicate NamesTest(d: string) { Lower(d) in {"test", "tests", "testing", "spec", "specs"} }

  predicate EndsAsHeader(name: string) { Lower(Suffix(name)) in {".h", ".hh", ".hpp", ".hxx"} }

  predicate IsMetadata(name: string) {
    name in {
      "CMakeLists.txt", "Makefile", "meson.build", "configure.ac", "Cargo.toml", "go.mod", "package.json",
      "pyproject.toml", "README", "README.md"}
  }

  /** Which file is of which category. */
  lemma CategorySpelledOut(p: RelPath)
    ensures var name, inTests := p[|p| - 1], exists k :: 0 <= k < |p| && NamesTest(p[k]);
      && (CategoryOf(p) == Metadata <==> IsMetadata(name))
      && (CategoryOf(p) == Tests <==> !IsMetadata(name) && inTests)
      && (CategoryOf(p) == Headers <==> !IsMetadata(name) && !inTests && EndsAsHeader(name))
      && (CategoryOf(p) == Sources <==> !IsMetadata(name) && !inTests && !EndsAsHeader(name))
  {
    hide Lower, Suffix;
  }

  /** The priority of a file at the root; `EnclosingDirectory` says what each directory adds. */
  lemma PriorityAtRoot(name: string)
    requires PartName(name)
    ensures Priority([name]) ==
      (if IsMetadata(name) then 100 else 0) + (if NamesTest(name) then 80 else 0)
      + (if Lower(name) in {"include", "api", "public"} then 40 else 0)
      + (if EndsAsHeader(name) then 30 else 0)
      + (if EndsAsHeader(name) || Lower(Suffix(name)) in {".c", ".cc", ".cpp", ".cxx", ".go", ".java", ".js", ".jsx",
           ".py", ".rs", ".sh", ".ts", ".tsx"} then 20 else 0)
      - 1
  {
    hide Lower, Suffix;
    assert [name][0] == name;
  }

  lemma AnyPartBelow(d: string, p: RelPath, names: set<string>)
    requires PartName(d)
    ensures AnyPart([d] + p, names) <==> Lower(d) in names || AnyPart(p, names)
  {
    hide Lower;
    var q: RelPath := [d] + p;
    if k :| 0 <= k < |p| && Lower(p[k]) in names { assert q[k + 1] == p[k]; }
    if Lower(d) in names { assert q[0] == d; }
    if k :| 0 <= k < |q| && Lower(q[k]) in names { assert k == 0 || q[k] == p[k - 1]; }
  }

  /**
   Putting a tree into a directory costs one point, unless the name of the directory earns its bonus for the
   first time; only a test directory changes the category, and never that of project metadata.
   */
  lemma EnclosingDirectory(d: string, p: RelPath)
    requires PartName(d)
    ensures Priority([d] + p) == Priority(p) - 1
      + (if NamesTest(d) && !(exists k :: 0 <= k < |p| && NamesTest(p[k])) then 80 else 0)
      + (if Lower(d) in {"include", "api", "public"} && !AnyPart(p, {"include", "api", "public"}) then 40 else 0)
    ensures CategoryOf([d] + p) == if NamesTest(d) && CategoryOf(p) != Metadata then Tests else CategoryOf(p)
  {
    hide Lower, Suffix, PartName;
    AnyPartBelow(d, p, TEST_NAMES);
    AnyPartBelow(d, p, API_NAMES);
    assert AnyPart(p, TEST_NAMES) <==> exists k :: 0 <= k < |p| && NamesTest(p[k]);
    hide AnyPart;
  }

  predicate PlainName(s: string) { PartName(s) && Lower(s) !in TEST_NAMES && Lower(s) !in API_NAMES }

  predicate HasSuffix(name: string, suffixes: set<string>) { Lower(Suffix(name)) in suffixes }

  lemma HeadersAreSources()
    ensures HEADER_SUFFIXES <= SOURCE_SUFFIXES
  {
  }

  lemma LastPart(dir: seq<string>, a: string, b: string, names: set<string>)
    requires PartName(a) && PartName(b) && forall x :: x in dir ==> PartName(x)
    requires Lower(a) !in names && Lower(b) !in names
    ensures AnyPart(dir + [a], names) <==> AnyPart(dir + [b], names)
  {
    hide Lower;
    var p: RelPath, q: RelPath := dir + [a], dir + [b];
    if k :| 0 <= k < |p| && Lower(p[k]) in names { assert q[k] == dir[k] == p[k]; }
    if k :| 0 <= k < |q| && Lower(q[k]) in names { assert p[k] == dir[k] == q[k]; }
  }

  /** In one directory: project metadata first, then headers, then other sources, then the rest. */
  lemma OneDirectory(dir: seq<string>, a: string, b: string)
    requires PlainName(a) && PlainName(b) && forall x :: x in dir ==> PartName(x)
    ensures a in IMPORTANT_NAMES && b !in IMPORTANT_NAMES ==> PathLess(dir + [a], dir + [b])
    ensures a !in IMPORTANT_NAMES && b !in IMPORTANT_NAMES
         && HasSuffix(a, HEADER_SUFFIXES) && !HasSuffix(b, HEADER_SUFFIXES)
         ==> PathLess(dir + [a], dir + [b])
    ensures a !in IMPORTANT_NAMES && b !in IMPORTANT_NAMES
         && HasSuffix(a, SOURCE_SUFFIXES) && !HasSuffix(b, SOURCE_SUFFIXES)
         ==> PathLess(dir + [a], dir + [b])
  {
    hide Lower, Suffix, AnyPart, PartName, Posix;
    LastPart(dir, a, b, TEST_NAMES);
    LastPart(dir, a, b, API_NAMES);
    HeadersAreSources();
  }
}
