/**
 `prepare_output_directory`, `materialize_suite` and the two metadata writes of `main`
 (llm_test_generation/generate_tests.py), over a file system without symbolic links.
 */
module SuiteWriter {
  import opened GeneratedPaths
  import opened JsonValues
  import opened Optional
  import opened Orders
  import opened SuiteFormat

  // ----- file systems -----

  type Path = seq<string>

  datatype Node = File(content: string) | Dir

  type Tree = map<Path, Node>

  predicate IsFile(t: Tree, p: Path) { p in t && t[p].File? }
  predicate IsDir(t: Tree, p: Path) { p in t && t[p].Dir? }

  /** The root is a directory, and everything else lies in one. */
  ghost predicate WellFormed(t: Tree) {
    IsDir(t, []) && forall p :: p in t && p != [] ==> IsDir(t, p[..|p| - 1])
  }

  /** What is stored: the contents of the files. */
  function Files(t: Tree): map<Path, string> {
    map p | p in t && t[p].File? :: t[p].content
  }

  predicate FileOnTheWay(t: Tree, p: Path) { exists k :: 0 <= k <= |p| && IsFile(t, p[..k]) }

  lemma FileOnTheWayExact(t: Tree, p: Path)
    ensures FileOnTheWay(t, p) <==> exists q :: q <= p && IsFile(t, q)
  {
    if q :| q <= p && IsFile(t, q) { assert p[..|q|] == q; }
  }

  /** `p` and the directories above it. */
  function Prefixes(p: Path): set<Path> { set k | 0 <= k <= |p| :: p[..k] }

  lemma PrefixExact(p: Path, q: Path)
    ensures q in Prefixes(p) <==> q <= p
  {
    if q <= p { assert q == p[..|q|]; }
  }

  function WithDirs(t: Tree, p: Path): Tree { t + map q | q in Prefixes(p) :: Dir }

  lemma NoFileAbove(t: Tree, p: Path, q: Path)
    requires !FileOnTheWay(t, p) && q <= p
    ensures !IsFile(t, q)
  {
    assert q == p[..|q|];
  }

  lemma WithDirsNodes(t: Tree, p: Path, q: Path)
    requires !FileOnTheWay(t, p)
    ensures IsFile(WithDirs(t, p), q) <==> IsFile(t, q)
    ensures IsDir(WithDirs(t, p), q) <==> IsDir(t, q) || q <= p
    ensures IsFile(t, q) ==> WithDirs(t, p)[q] == t[q]
  {
    hide Prefixes, FileOnTheWay;
    PrefixExact(p, q);
    if q <= p { NoFileAbove(t, p, q); }
  }

  /** Making directories changes no file. */
  lemma WithDirsKeepsFiles(t: Tree, p: Path)
    requires !FileOnTheWay(t, p)
    ensures Files(WithDirs(t, p)) == Files(t)
  {
    hide Prefixes, FileOnTheWay, WithDirs;
    forall q ensures (q in Files(WithDirs(t, p)) <==> q in Files(t)) && (q in Files(t) ==> WithDirs(t, p)[q] == t[q]) {
      WithDirsNodes(t, p, q);
      assert q in Files(t) <==> IsFile(t, q);
      assert q in Files(WithDirs(t, p)) <==> IsFile(WithDirs(t, p), q);
    }
  }

  lemma WithDirsWellFormed(t: Tree, p: Path)
    requires WellFormed(t) && !FileOnTheWay(t, p)
    ensures WellFormed(WithDirs(t, p))
  {
    hide Prefixes, FileOnTheWay;
    var r := WithDirs(t, p);
    forall q | q in r && q != [] ensures IsDir(r, q[..|q| - 1]) {
      WithDirsNodes(t, p, q);
      WithDirsNodes(t, p, q[..|q| - 1]);
    }
    WithDirsNodes(t, p, []);
  }

  // ----- when writing goes wrong -----

  /** `p` can be written: no file where a directory is needed, and no directory where the file is to be. */
  predicate CanWrite(t: Tree, p: Path)
    requires p != []
  {
    !FileOnTheWay(t, p[..|p| - 1]) && !IsDir(t, p)
  }

  lemma CanWriteExact(t: Tree, p: Path)
    requires p != []
    ensures CanWrite(t, p) <==> (forall q :: IsFile(t, q) ==> !(q < p)) && !IsDir(t, p)
  {
    var parent := p[..|p| - 1];
    if q :| IsFile(t, q) && q < p { assert q == parent[..|q|]; }
    if k :| 0 <= k <= |parent| && IsFile(t, parent[..k]) { assert parent[..k] < p; }
  }

  /** None of the targets lies below another one or below a file, and none is a directory. */
  ghost predicate NoClash(t: Tree, targets: seq<Path>) {
    && (forall i :: 0 <= i < |targets| ==> targets[i] != [] && CanWrite(t, targets[i]))
    && (forall i, j :: 0 <= i < |targets| && 0 <= j < |targets| ==> !(targets[i] < targets[j]))
  }

  /** Some target lies below `q`. */
  ghost predicate Holds(targets: seq<Path>, q: Path) { exists i :: 0 <= i < |targets| && q < targets[i] }

  /** `now` is `before` with the targets as files and with the directories above them. */
  ghost predicate Extends(before: Tree, now: Tree, targets: seq<Path>) {
    && WellFormed(now)
    && (forall q :: IsFile(now, q) <==> IsFile(before, q) || q in targets)
    && (forall q :: IsDir(now, q) <==> IsDir(before, q) || Holds(targets, q))
  }

  lemma NoClashNext(t: Tree, targets: seq<Path>, p: Path)
    requires NoClash(t, targets) && p != []
    ensures NoClash(t, targets + [p])
      <==> CanWrite(t, p) && forall i :: 0 <= i < |targets| ==> !(targets[i] < p) && !(p < targets[i])
  {
    hide CanWrite;
    var all := targets + [p];
    if NoClash(t, all) {
      assert all[|targets|] == p;
      forall i | 0 <= i < |targets| ensures !(targets[i] < p) && !(p < targets[i]) { assert all[i] == targets[i]; }
    }
  }

  /** After some targets have been written, the next can be written exactly if it clashes with none of them. */
  lemma CanWriteNext(before: Tree, now: Tree, targets: seq<Path>, p: Path)
    requires Extends(before, now, targets) && NoClash(before, targets) && p != []
    ensures CanWrite(now, p) <==> NoClash(before, targets + [p])
  {
    hide CanWrite, WellFormed, IsFile, IsDir;
    CanWriteExact(now, p);
    CanWriteExact(before, p);
    NoClashNext(before, targets, p);
    if CanWrite(now, p) {
      forall i | 0 <= i < |targets| ensures !(targets[i] < p) && !(p < targets[i]) {
        assert IsFile(now, targets[i]);
        assert p < targets[i] ==> Holds(targets, p);
      }
    }
  }

  function Stored(t: Tree, p: Path, content: string): Tree
    requires p != []
  {
    WithDirs(t, p[..|p| - 1])[p := File(content)]
  }

  lemma StoredNodes(t: Tree, p: Path, content: string, q: Path)
    requires p != [] && CanWrite(t, p)
    ensures IsFile(Stored(t, p, content), q) <==> IsFile(t, q) || q == p
    ensures IsDir(Stored(t, p, content), q) <==> IsDir(t, q) || q < p
    ensures IsFile(t, q) && q != p ==> Stored(t, p, content)[q] == t[q]
  {
    hide FileOnTheWay, Prefixes, WithDirs;
    WithDirsNodes(t, p[..|p| - 1], q);
    assert q < p <==> q <= p[..|p| - 1];
  }

  lemma StoredAt(t: Tree, p: Path, content: string)
    requires p != []
    ensures p in Stored(t, p, content) && Stored(t, p, content)[p] == File(content)
  {
  }

  lemma StoredKeepsFiles(t: Tree, p: Path, content: string)
    requires p != [] && CanWrite(t, p)
    ensures Files(Stored(t, p, content)) == Files(t)[p := content]
  {
    hide CanWrite, Stored;
    var r := Stored(t, p, content);
    forall q ensures (q in Files(r) <==> q in Files(t) || q == p) && (q in Files(t) && q != p ==> r[q] == t[q]) {
      StoredNodes(t, p, content, q);
      assert (q in Files(r) <==> IsFile(r, q)) && (q in Files(t) <==> IsFile(t, q));
    }
    StoredAt(t, p, content);
  }

  lemma StoredWellFormed(t: Tree, p: Path, content: string)
    requires WellFormed(t) && p != [] && CanWrite(t, p)
    ensures WellFormed(Stored(t, p, content))
  {
    hide CanWrite, Stored;
    var r := Stored(t, p, content);
    StoredNodes(t, p, content, []);
    forall q | q in r && q != [] ensures IsDir(r, q[..|q| - 1]) {
      var parent := q[..|q| - 1];
      StoredNodes(t, p, content, q);
      StoredNodes(t, p, content, parent);
      assert q <= p ==> parent < p;
    }
  }

  lemma StoredExtends(before: Tree, now: Tree, targets: seq<Path>, p: Path, content: string)
    requires Extends(before, now, targets) && p != [] && CanWrite(now, p)
    ensures Extends(before, Stored(now, p, content), targets + [p])
  {
    hide CanWrite, Stored, WellFormed, IsFile, IsDir;
    StoredWellFormed(now, p, content);
    var all, r := targets + [p], Stored(now, p, content);
    forall q ensures IsFile(r, q) <==> IsFile(before, q) || q in all { StoredNodes(now, p, content, q); }
    forall q ensures IsDir(r, q) <==> IsDir(before, q) || Holds(all, q) {
      StoredNodes(now, p, content, q);
      assert q < p ==> q < all[|targets|];
      assert forall i :: 0 <= i < |targets| ==> all[i] == targets[i];
    }
  }

  // ----- the checks -----

  predicate NotEmpty(t: Tree, dir: Path) { exists p :: p in t && dir < p && |p| == |dir| + 1 }

  predicate Preparable(t: Tree, out: Path, force: bool) { !FileOnTheWay(t, out) && (force || !NotEmpty(t, out)) }

  predicate AllSafe(items: seq<Item>) { forall i :: 0 <= i < |items| ==> SafeGeneratedPath(items[i].path).Safe? }

  function Target(out: Path, item: Item): (r: Path)
    requires SafeGeneratedPath(item.path).Safe?
    ensures out < r
  {
    out + SafeGeneratedPath(item.path).parts
  }

  function Targets(out: Path, items: seq<Item>): (r: seq<Path>)
    requires AllSafe(items)
    ensures |r| == |items| && forall i :: 0 <= i < |r| ==> out < r[i]
  {
    seq(|items|, i requires 0 <= i < |items| => Target(out, items[i]))
  }

  /** Everything that is checked before the first file is written. */
  predicate ChecksPass(t: Tree, out: Path, suite: Json, force: bool) {
    && GoodSuite(suite) && Preparable(t, out, force)
    && var items := SuiteItems(suite);
    && AllSafe(items)
    && Distinct(Targets(out, items))
    && (force || forall i :: 0 <= i < |items| ==> Targets(out, items)[i] !in t)
  }

  datatype SuiteProblem =
    | BadSuite(error: FormatError)
    | OutputNotDirectory
    | OutputNotEmpty
    | BadPath(name: string, why: SafePath)
    | DuplicatePaths
    | WouldOverwrite(target: Path)

  function OutputProblem(t: Tree, out: Path, force: bool): Option<SuiteProblem> {
    if Preparable(t, out, force) then None
    else if out in t && !IsFile(t, out) && NotEmpty(t, out) && !force then Some(OutputNotEmpty)
    else Some(OutputNotDirectory)
  }

  function FirstUnsafe(items: seq<Item>): Option<SuiteProblem> {
    if items == [] then None
    else if SafeGeneratedPath(items[0].path).Safe? then FirstUnsafe(items[1..])
    else Some(BadPath(items[0].path, SafeGeneratedPath(items[0].path)))
  }

  function FirstExisting(t: Tree, targets: seq<Path>): Option<SuiteProblem> {
    if targets == [] then None
    else if targets[0] in t then Some(WouldOverwrite(targets[0]))
    else FirstExisting(t, targets[1..])
  }

  lemma {:induction false} FirstUnsafeExact(items: seq<Item>)
    ensures FirstUnsafe(items).None? <==> AllSafe(items)
    decreases |items|
  {
    hide SafeGeneratedPath;
    if items != [] {
      FirstUnsafeExact(items[1..]);
      if AllSafe(items) {
        forall i | 0 <= i < |items[1..]| ensures SafeGeneratedPath(items[1..][i].path).Safe? {
          assert items[1..][i] == items[i + 1];
        }
      }
    }
  }

  /** What is reported: the first thing wrong, in the order of the checks. */
  function Problem(t: Tree, out: Path, suite: Json, force: bool): Option<SuiteProblem> {
    if SuiteError(suite).Some? then Some(BadSuite(SuiteError(suite).value))
    else if OutputProblem(t, out, force).Some? then OutputProblem(t, out, force)
    else
      SuiteErrorExact(suite);
      var items := SuiteItems(suite);
      if FirstUnsafe(items).Some? then FirstUnsafe(items)
      else
        FirstUnsafeExact(items);
        var targets := Targets(out, items);
        if !Distinct(targets) then Some(DuplicatePaths)
        else if force then None
        else FirstExisting(t, targets)
  }

  lemma {:induction false} FirstExistingExact(t: Tree, targets: seq<Path>)
    ensures FirstExisting(t, targets).None? <==> forall i :: 0 <= i < |targets| ==> targets[i] !in t
    decreases |targets|
  {
    if targets != [] {
      FirstExistingExact(t, targets[1..]);
      if forall i :: 0 <= i < |targets| ==> targets[i] !in t {
        forall i | 0 <= i < |targets[1..]| ensures targets[1..][i] !in t { assert targets[1..][i] == targets[i + 1]; }
      }
    }
  }

  /** Nothing is reported exactly when the checks pass. */
  lemma ProblemExact(t: Tree, out: Path, suite: Json, force: bool)
    ensures Problem(t, out, suite, force).None? <==> ChecksPass(t, out, suite, force)
  {
    hide SuiteError, GoodSuite, Preparable, SafeGeneratedPath, SuiteItems, Distinct;
    SuiteErrorExact(suite);
    if GoodSuite(suite) {
      FirstUnsafeExact(SuiteItems(suite));
      if AllSafe(SuiteItems(suite)) { FirstExistingExact(t, Targets(out, SuiteItems(suite))); }
    }
  }

  lemma EntriesHaveParents(t: Tree, dir: Path)
    requires WellFormed(t)
    ensures NotEmpty(t, dir) ==> dir in t
  {
    if p :| p in t && dir < p && |p| == |dir| + 1 { assert p[..|p| - 1] == dir; }
  }

  /** Everything above an entry is a directory. */
  lemma {:induction false} AboveIsDir(t: Tree, p: Path, k: nat)
    requires WellFormed(t) && p in t && k < |p|
    ensures IsDir(t, p[..k])
    decreases |p|
  {
    var parent := p[..|p| - 1];
    if k < |parent| {
      assert parent[..k] == p[..k];
      AboveIsDir(t, parent, k);
    } else {
      assert p[..k] == parent;
    }
  }

  /**
   The output directory is refused exactly if a file stands there or above, or if something stands below it and
   nothing is to be forced; and the latter is what is reported if it is a directory.
   */
  lemma OutputProblemExact(t: Tree, out: Path, force: bool)
    requires WellFormed(t)
    ensures OutputProblem(t, out, force).None? <==>
      (forall q :: q <= out ==> !IsFile(t, q)) && (force || forall p :: p in t ==> !(out < p))
    ensures OutputProblem(t, out, force) == Some(OutputNotEmpty) <==>
      !force && IsDir(t, out) && exists p :: p in t && out < p
  {
    hide WellFormed, FileOnTheWay;
    if p :| p in t && out < p {
      var child := p[..|out| + 1];
      if |child| < |p| { AboveIsDir(t, p, |child|); } else { assert child == p; }
      assert child in t && out < child;
      AboveIsDir(t, p, |out|);
      assert p[..|out|] == out;
    }
    FileOnTheWayExact(t, out);
    if IsDir(t, out) {
      forall q | q < out ensures !IsFile(t, q) {
        AboveIsDir(t, out, |q|);
        assert out[..|q|] == q;
      }
    }
  }

  // ----- what is written -----

  /** The files with the items stored in turn. */
  function Store(files: map<Path, string>, targets: seq<Path>, items: seq<Item>): map<Path, string>
    requires |targets| == |items|
  {
    if items == [] then files
    else
      var k := |items| - 1;
      Store(files, targets[..k], items[..k])[targets[k] := items[k].content]
  }

  /** Every target holds exactly its item's content, and no other file is changed. */
  lemma {:induction false} StoreExact(files: map<Path, string>, targets: seq<Path>, items: seq<Item>)
    requires |targets| == |items| && Distinct(targets)
    ensures var r := Store(files, targets, items);
      && (forall i :: 0 <= i < |targets| ==> targets[i] in r && r[targets[i]] == items[i].content)
      && (forall q :: q !in targets ==> (q in r <==> q in files) && (q in files ==> r[q] == files[q]))
    decreases |items|
  {
    if items != [] {
      var k := |items| - 1;
      StoreExact(files, targets[..k], items[..k]);
      assert targets == targets[..k] + [targets[k]];
    }
  }

  lemma {:induction false} StoreNext(files: map<Path, string>, targets: seq<Path>, items: seq<Item>, k: nat)
    requires k < |targets| == |items|
    ensures Store(files, targets[..k + 1], items[..k + 1])
         == Store(files, targets[..k], items[..k])[targets[k] := items[k].content]
  {
    assert targets[..k + 1][..k] == targets[..k] && items[..k + 1][..k] == items[..k];
  }

  lemma NothingWritten(t: Tree, targets: seq<Path>, items: seq<Item>)
    requires WellFormed(t) && |targets| == |items|
    ensures Extends(t, t, targets[..0]) && NoClash(t, targets[..0])
    ensures Store(Files(t), targets[..0], items[..0]) == Files(t)
  {
  }

  lemma CannotWrite(t: Tree, p: Path)
    requires p != [] && (FileOnTheWay(t, p[..|p| - 1]) || IsDir(t, p))
    ensures !CanWrite(t, p)
  {
  }

  lemma ClashStays(t: Tree, targets: seq<Path>, k: nat)
    requires k <= |targets| && !NoClash(t, targets[..k])
    ensures !NoClash(t, targets)
  {
    hide CanWrite;
    if NoClash(t, targets) {
      assert forall i :: 0 <= i < k ==> targets[..k][i] == targets[i];
    }
  }

  /** With the directories made, only a directory in its place prevents the file. */
  lemma AfterMkDirs(t: Tree, p: Path)
    requires p != [] && !FileOnTheWay(t, p[..|p| - 1])
    ensures var u := WithDirs(t, p[..|p| - 1]); IsDir(u, p[..|p| - 1]) && (IsDir(u, p) <==> !CanWrite(t, p))
  {
    WithDirsNodes(t, p[..|p| - 1], p[..|p| - 1]);
    WithDirsNodes(t, p[..|p| - 1], p);
  }

  lemma ExtendsWellFormed(before: Tree, now: Tree, targets: seq<Path>)
    requires Extends(before, now, targets)
    ensures WellFormed(now)
  {
  }

  function Elements(targets: seq<Path>): set<Path> { set p | p in targets }

  lemma DistinctSnoc(s: seq<Path>, p: Path)
    ensures Distinct(s + [p]) <==> Distinct(s) && p !in s
  {
    var all := s + [p];
    if Distinct(all) {
      forall i | 0 <= i < |s| ensures s[i] != p { assert all[i] != all[|s|]; }
      forall i, j | 0 <= i < j < |s| ensures s[i] != s[j] { assert all[i] != all[j]; }
    }
  }

  /** Comparing sizes finds duplicates. */
  lemma {:induction false} SetSizeDistinct(targets: seq<Path>)
    ensures |Elements(targets)| <= |targets|
    ensures |Elements(targets)| == |targets| <==> Distinct(targets)
    decreases |targets|
  {
    if targets != [] {
      var k := |targets| - 1;
      var rest, last := targets[..k], targets[k];
      SetSizeDistinct(rest);
      assert targets == rest + [last];
      assert Elements(targets) == Elements(rest) + {last};
      assert last in rest ==> Elements(targets) == Elements(rest);
      DistinctSnoc(rest, last);
    }
  }

  lemma PreparedKeeps(t: Tree, out: Path, force: bool)
    requires WellFormed(t) && Preparable(t, out, force)
    ensures WellFormed(WithDirs(t, out)) && Files(WithDirs(t, out)) == Files(t)
  {
    WithDirsWellFormed(t, out);
    WithDirsKeepsFiles(t, out);
  }

  lemma PreparableMeans(t: Tree, out: Path, force: bool)
    requires Preparable(t, out, force)
    ensures !FileOnTheWay(t, out)
  {
  }

  lemma {:induction false} NewTargets(t: Tree, out: Path, targets: seq<Path>)
    requires forall i :: 0 <= i < |targets| ==> out < targets[i]
    ensures FirstExisting(WithDirs(t, out), targets) == FirstExisting(t, targets)
    decreases |targets|
  {
    hide Prefixes;
    if targets != [] {
      PrefixExact(out, targets[0]);
      NewTargets(t, out, targets[1..]);
    }
  }

  /** Making the output directory makes and removes no clash. */
  lemma SameClashes(t: Tree, out: Path, targets: seq<Path>)
    requires !FileOnTheWay(t, out) && forall i :: 0 <= i < |targets| ==> out < targets[i]
    ensures NoClash(WithDirs(t, out), targets) <==> NoClash(t, targets)
    ensures forall k :: 0 <= k <= |targets| ==> (NoClash(WithDirs(t, out), targets[..k]) <==> NoClash(t, targets[..k]))
  {
    hide CanWrite, WithDirs, FileOnTheWay, IsFile, IsDir;
    forall i | 0 <= i < |targets| ensures CanWrite(WithDirs(t, out), targets[i]) <==> CanWrite(t, targets[i]) {
      CanWriteExact(t, targets[i]);
      CanWriteExact(WithDirs(t, out), targets[i]);
      WithDirsNodes(t, out, targets[i]);
      forall q ensures IsFile(WithDirs(t, out), q) <==> IsFile(t, q) { WithDirsNodes(t, out, q); }
    }
  }

  ghost predicate DirsMade(t: Tree, u: Tree, out: Path, targets: seq<Path>) {
    forall q :: IsDir(u, q) <==> IsDir(t, q) || q <= out || Holds(targets, q)
  }

  lemma DirsOfBoth(t: Tree, out: Path, now: Tree, targets: seq<Path>)
    requires !FileOnTheWay(t, out) && Extends(WithDirs(t, out), now, targets)
    ensures DirsMade(t, now, out, targets)
  {
    hide WithDirs, FileOnTheWay, IsFile, IsDir, Holds;
    forall q ensures IsDir(now, q) <==> IsDir(t, q) || q <= out || Holds(targets, q) { WithDirsNodes(t, out, q); }
  }

  // ----- the code -----

  /** Refused by the checks; stopped in the middle of the writing, after `count` files; or all written. */
  datatype Outcome = Refused(why: SuiteProblem) | Stopped(count: nat) | Written(targets: seq<Path>)

  /** What `materialize_suite` does to the file system `t`, leaving `u`. */
  ghost predicate Materialized(t: Tree, u: Tree, out: Path, suite: Json, force: bool, r: Outcome) {
    ProblemExact(t, out, suite, force);
    if !ChecksPass(t, out, suite, force) then r == Refused(Problem(t, out, suite, force).value) && Files(u) == Files(t)
    else
      var items := SuiteItems(suite);
      var targets := Targets(out, items);
      if NoClash(t, targets) then
        r == Written(targets) && Files(u) == Store(Files(t), targets, items) && DirsMade(t, u, out, targets)
      else
        r.Stopped? && r.count < |items| && Files(u) == Store(Files(t), targets[..r.count], items[..r.count])
        && NoClash(t, targets[..r.count]) && !NoClash(t, targets[..r.count + 1])
  }

  const GENERATION := "generation.json"
  const METADATA := "generation_metadata.json"

  /** The two writes at the end of `main`: the second is not reached when the first fails. */
  function Recorded(t: Tree, out: Path, generation: string, metadata: string): Tree {
    var g, m := out + [GENERATION], out + [METADATA];
    if IsDir(t, g) then t
    else if IsDir(t, m) then t[g := File(generation)]
    else t[g := File(generation)][m := File(metadata)]
  }

  lemma OutIsDir(t: Tree, u: Tree, out: Path, suite: Json, force: bool, r: Outcome)
    requires Materialized(t, u, out, suite, force, r) && r.Written?
    ensures IsDir(u, out)
  {
    hide ChecksPass, Files, Store, NoClash, Problem, Targets;
  }

  class Disk {
    var tree: Tree

    /** `mkdir(parents=True, exist_ok=True)` */
    method MkDirs(p: Path) returns (ok: bool)
      modifies this
      ensures ok == !FileOnTheWay(old(tree), p)
      ensures tree == if ok then WithDirs(old(tree), p) else old(tree)
    {
      ok := !FileOnTheWay(tree, p);
      if ok {
        tree := WithDirs(tree, p);
      }
    }

    /** `write_text` into a directory that exists */
    method WriteText(p: Path, content: string) returns (ok: bool)
      requires p != [] && IsDir(tree, p[..|p| - 1])
      modifies this
      ensures ok == !IsDir(old(tree), p)
      ensures tree == if ok then old(tree)[p := File(content)] else old(tree)
    {
      ok := !IsDir(tree, p);
      if ok {
        tree := tree[p := File(content)];
      }
    }

    method PrepareOutputDirectory(out: Path, force: bool) returns (problem: Option<SuiteProblem>)
      requires WellFormed(tree)
      modifies this
      ensures problem == OutputProblem(old(tree), out, force)
      ensures tree == if problem.None? then WithDirs(old(tree), out) else old(tree)
    {
      if out in tree {
        if IsFile(tree, out) {
          assert out[..|out|] == out;
          return Some(OutputNotDirectory);
        }
        if NotEmpty(tree, out) && !force {
          return Some(OutputNotEmpty);
        }
      }
      EntriesHaveParents(tree, out);
      var made := MkDirs(out);
      return if made then None else Some(OutputNotDirectory);
    }

    /** The loop that writes, over targets that have passed the checks. */
    method WriteAll(targets: seq<Path>, items: seq<Item>) returns (count: nat)
      requires WellFormed(tree) && |targets| == |items| && forall i :: 0 <= i < |targets| ==> targets[i] != []
      modifies this
      ensures count <= |targets| && WellFormed(tree) && (count == |targets| ==> Extends(old(tree), tree, targets))
      ensures Files(tree) == Store(Files(old(tree)), targets[..count], items[..count])
      ensures NoClash(old(tree), targets[..count])
      ensures count < |targets| ==> !NoClash(old(tree), targets[..count + 1]) && !NoClash(old(tree), targets)
    {
      hide Store, Files, CanWrite, Extends, NoClash, WithDirs, WellFormed;
      ghost var before := tree;
      count := 0;
      NothingWritten(before, targets, items);
      while count < |targets|
        invariant count <= |targets| && Extends(before, tree, targets[..count]) && NoClash(before, targets[..count])
        invariant Files(tree) == Store(Files(before), targets[..count], items[..count])
      {
        var target := targets[count];
        ghost var now := tree;
        CanWriteNext(before, now, targets[..count], target);
        assert targets[..count + 1] == targets[..count] + [target];
        var made := MkDirs(target[..|target| - 1]);
        ExtendsWellFormed(before, now, targets[..count]);
        if !made {
          CannotWrite(now, target);
          ClashStays(before, targets, count + 1);
          return;
        }
        AfterMkDirs(now, target);
        var written := WriteText(target, items[count].content);
        if !written {
          WithDirsKeepsFiles(now, target[..|target| - 1]);
          WithDirsWellFormed(now, target[..|target| - 1]);
          ClashStays(before, targets, count + 1);
          return;
        }
        StoredExtends(before, now, targets[..count], target, items[count].content);
        StoredKeepsFiles(now, target, items[count].content);
        StoreNext(Files(before), targets, items, count);
        count := count + 1;
      }
      ExtendsWellFormed(before, tree, targets[..count]);
      assert targets[..count] == targets;
    }

    /** The targets in order; the first name that is not safe is reported. */
    method CollectTargets(out: Path, items: seq<Item>) returns (targets: seq<Path>, problem: Option<SuiteProblem>)
      ensures problem == FirstUnsafe(items)
      ensures problem.None? ==> AllSafe(items) && targets == Targets(out, items)
    {
      hide SafeGeneratedPath;
      targets := [];
      var k := 0;
      while k < |items|
        invariant k <= |items| && FirstUnsafe(items) == FirstUnsafe(items[k..])
        invariant AllSafe(items[..k]) && targets == Targets(out, items[..k])
      {
        var safe := SafeGeneratedPath(items[k].path);
        if !safe.Safe? {
          return targets, Some(BadPath(items[k].path, safe));
        }
        assert items[..k + 1] == items[..k] + [items[k]];
        assert targets + [out + safe.parts] == Targets(out, items[..k + 1]);
        targets := targets + [out + safe.parts];
        k := k + 1;
      }
      assert items[..k] == items;
      problem := None;
    }

    method CheckOverwrites(targets: seq<Path>, force: bool) returns (problem: Option<SuiteProblem>)
      ensures problem == if force then None else FirstExisting(tree, targets)
    {
      var k := 0;
      while k < |targets|
        invariant k <= |targets| && (force || FirstExisting(tree, targets) == FirstExisting(tree, targets[k..]))
      {
        if targets[k] in tree && !force {
          return Some(WouldOverwrite(targets[k]));
        }
        k := k + 1;
      }
      problem := None;
    }

    /** Everything before the first write. The output directory is made before the paths are checked. */
    method CheckSuite(out: Path, suite: Json, force: bool) returns (problem: Option<SuiteProblem>, targets: seq<Path>)
      requires WellFormed(tree)
      modifies this
      ensures WellFormed(tree) && Files(tree) == Files(old(tree))
      ensures problem == Problem(old(tree), out, suite, force)
      ensures problem.None? <==> ChecksPass(old(tree), out, suite, force)
      ensures problem.None? ==> tree == WithDirs(old(tree), out) && targets == Targets(out, SuiteItems(suite))
    {
      hide WellFormed, Files, WithDirs, GoodSuite, Preparable, SafeGeneratedPath, Distinct, SuiteItems, Targets;
      hide FirstExisting, FirstUnsafe, SuiteError, Elements;
      targets := [];
      ghost var before := tree;
      ProblemExact(before, out, suite, force);
      var error := ValidateGeneratedSuite(suite);
      SuiteErrorExact(suite);
      if error.Some? {
        return Some(BadSuite(error.value)), targets;
      }
      problem := PrepareOutputDirectory(out, force);
      if problem.Some? {
        return;
      }
      PreparedKeeps(before, out, force);
      var items := SuiteItems(suite);
      targets, problem := CollectTargets(out, items);
      if problem.Some? {
        return;
      }
      SetSizeDistinct(targets);
      if |Elements(targets)| != |targets| {
        return Some(DuplicatePaths), targets;
      }
      problem := CheckOverwrites(targets, force);
      NewTargets(before, out, targets);
    }

    /**
     `materialize_suite`: it refuses without changing a file, or writes exactly what was asked for; if two paths
     clash, the files before the clash have been written when it stops.
     */
    method MaterializeSuite(out: Path, suite: Json, force: bool) returns (r: Outcome)
      requires WellFormed(tree)
      modifies this
      ensures WellFormed(tree) && Materialized(old(tree), tree, out, suite, force, r)
    {
      hide WellFormed, Files, WithDirs, Store, NoClash, Extends, GoodSuite, Preparable, Distinct, SafeGeneratedPath;
      hide SuiteItems;
      ghost var before := tree;
      var problem, targets := CheckSuite(out, suite, force);
      if problem.Some? {
        return Refused(problem.value);
      }
      var items := SuiteItems(suite);
      var count := WriteAll(targets, items);
      assert targets[..|targets|] == targets && items[..|items|] == items;
      PreparableMeans(before, out, force);
      SameClashes(before, out, targets);
      if count < |targets| {
        return Stopped(count);
      }
      DirsOfBoth(before, out, tree, targets);
      return Written(targets);
    }

    /**
     The writing part of `main`: the suite, then the two metadata files beside it. `generation` and `metadata`
     are the rendered texts, `written` is the file system between the two parts.
     */
    method WriteOutput(out: Path, suite: Json, force: bool, generation: string, metadata: string)
      returns (r: Outcome, recorded: bool, ghost written: Tree)
      requires WellFormed(tree)
      modifies this
      ensures Materialized(old(tree), written, out, suite, force, r)
      ensures tree == if r.Written? then Recorded(written, out, generation, metadata) else written
      ensures recorded <==> r.Written? && !IsDir(written, out + [GENERATION]) && !IsDir(written, out + [METADATA])
    {
      hide WellFormed, Files, ChecksPass, Store, NoClash, Problem;
      recorded := false;
      ghost var before := tree;
      r := MaterializeSuite(out, suite, force);
      written := tree;
      if !r.Written? {
        return;
      }
      OutIsDir(before, written, out, suite, force, r);
      assert (out + [GENERATION])[..|out|] == (out + [METADATA])[..|out|] == out;
      recorded := WriteText(out + [GENERATION], generation);
      if !recorded {
        return;
      }
      recorded := WriteText(out + [METADATA], metadata);
    }
  }

  // ----- the metadata never touches a generated file -----

  lemma TargetNotReserved(out: Path, item: Item, reserved: string)
    requires reserved in RESERVED_OUTPUT_NAMES && SafeGeneratedPath(item.path).Safe?
    ensures Target(out, item) != out + [reserved]
  {
    hide SafeGeneratedPath;
    NeverReserved(item.path, reserved);
    var t := Target(out, item);
    assert t[|out|..] == SafeGeneratedPath(item.path).parts;
    assert (out + [reserved])[|out|..] == [reserved];
  }

  lemma FilesExact(t: Tree, q: Path)
    ensures q in Files(t) <==> IsFile(t, q)
    ensures q in Files(t) ==> Files(t)[q] == t[q].content
  {
  }

  predicate HoldsText(t: Tree, p: Path, content: string) { p in t && t[p] == File(content) }

  lemma MaterializedFrame(t: Tree, u: Tree, out: Path, suite: Json, force: bool, r: Outcome)
    requires Materialized(t, u, out, suite, force, r) && r.Written?
    ensures GoodSuite(suite) && AllSafe(SuiteItems(suite)) && r.targets == Targets(out, SuiteItems(suite))
    ensures forall i :: 0 <= i < |r.targets| ==> HoldsText(u, r.targets[i], SuiteItems(suite)[i].content)
    ensures forall q :: q !in r.targets ==> (IsFile(u, q) <==> IsFile(t, q)) && (IsFile(t, q) ==> u[q] == t[q])
  {
    hide GoodSuite, Preparable, Problem, Distinct, Store, NoClash, SafeGeneratedPath, Files, DirsMade, SuiteItems;
    var items := SuiteItems(suite);
    StoreExact(Files(t), r.targets, items);
    forall i | 0 <= i < |r.targets| ensures HoldsText(u, r.targets[i], items[i].content) {
      FilesExact(u, r.targets[i]);
    }
    forall q | q !in r.targets ensures (IsFile(u, q) <==> IsFile(t, q)) && (IsFile(t, q) ==> u[q] == t[q]) {
      FilesExact(t, q);
      FilesExact(u, q);
    }
  }

  /** Entry `e` lies on the disk: the text under "content", in the file that the text under "path" names. */
  ghost predicate OnDisk(u: Tree, out: Path, target: Path, e: Json) {
    exists name, content :: TextUnder(e, "path", name) && TextUnder(e, "content", content)
      && target == out + Parts(name) && HoldsText(u, target, content)
  }

  lemma TargetOnDisk(u: Tree, out: Path, e: Json)
    requires WellFormedEntry(e) && SafeGeneratedPath(ItemOf(e).path).Safe?
    requires HoldsText(u, Target(out, ItemOf(e)), ItemOf(e).content)
    ensures OnDisk(u, out, Target(out, ItemOf(e)), e)
  {
    hide Get, SafeGeneratedPath, Parts, HoldsText, ItemOf, WellFormedEntry, TextUnder;
    EntryAllowedExact(e);
    AcceptedExactly(ItemOf(e).path, SafeGeneratedPath(ItemOf(e).path).parts);
    assert SafeGeneratedPath(ItemOf(e).path) == Safe(SafeGeneratedPath(ItemOf(e).path).parts);
  }

  lemma EntryOnDisk(u: Tree, out: Path, suite: Json, i: nat)
    requires GoodSuite(suite) && AllSafe(SuiteItems(suite)) && i < |SuiteItems(suite)|
    requires HoldsText(u, Targets(out, SuiteItems(suite))[i], SuiteItems(suite)[i].content)
    ensures OnDisk(u, out, Targets(out, SuiteItems(suite))[i], Get(suite.entries, "files").value.items[i])
  {
    hide Get, SafeGeneratedPath, HoldsText, TotalContent, ItemOf, WellFormedEntry, HasText, OnDisk, Target;
    var e := Get(suite.entries, "files").value.items[i];
    GoodIsWellFormed(e);
    assert SuiteItems(suite)[i] == ItemOf(e);
    TargetOnDisk(u, out, e);
  }

  /** From the JSON to the disk: entry by entry the files are there, nothing else has changed. */
  lemma JsonToDisk(t: Tree, u: Tree, out: Path, suite: Json, force: bool, r: Outcome)
    requires Materialized(t, u, out, suite, force, r) && r.Written?
    ensures suite.Object? && exists files: seq<Json> ::
      && Get(suite.entries, "files") == Some(List(files)) && |r.targets| == |files|
      && (forall i :: 0 <= i < |files| ==> OnDisk(u, out, r.targets[i], files[i]))
    ensures forall q :: q !in r.targets ==> (IsFile(u, q) <==> IsFile(t, q)) && (IsFile(t, q) ==> u[q] == t[q])
  {
    hide Get, SafeGeneratedPath, TotalContent, Materialized, OnDisk, HoldsText, GoodEntry, WellFormedEntry, HasText;
    MaterializedFrame(t, u, out, suite, force, r);
    var files := Get(suite.entries, "files").value.items;
    forall i | 0 <= i < |files| ensures OnDisk(u, out, r.targets[i], files[i]) {
      EntryOnDisk(u, out, suite, i);
    }
    assert Get(suite.entries, "files") == Some(List(files));
  }

  /**
   After a suite has been written and the metadata after it: every generated file still holds its content, every
   file that is neither is as it was, and both metadata files are there exactly if no directory, old or generated,
   has one of their names.
   */
  lemma MetadataLaws(t: Tree, u: Tree, out: Path, suite: Json, force: bool, r: Outcome, generation: string,
      metadata: string)
    requires Materialized(t, u, out, suite, force, r) && r.Written?
    ensures ChecksPass(t, out, suite, force)
    ensures var items := SuiteItems(suite);
      var targets := Targets(out, items);
      var g, m := out + ["generation.json"], out + ["generation_metadata.json"];
      var v := Recorded(u, out, generation, metadata);
      && (forall i :: 0 <= i < |items| ==> HoldsText(v, targets[i], items[i].content))
      && (forall q :: q !in targets && q != g && q != m ==>
            (IsFile(v, q) <==> IsFile(t, q)) && (IsFile(t, q) ==> v[q] == t[q]))
      && (!IsDir(t, g) && !IsDir(t, m) && !Holds(targets, g) && !Holds(targets, m)
          <==> HoldsText(v, g, generation) && HoldsText(v, m, metadata))
  {
    hide GoodSuite, Preparable, Problem, Distinct, Store, NoClash, SafeGeneratedPath, Files, Holds;
    var items := SuiteItems(suite);
    var targets := Targets(out, items);
    var g, m, v := out + [GENERATION], out + [METADATA], Recorded(u, out, generation, metadata);
    assert g[|out|] != m[|out|] by { assert |GENERATION| != |METADATA|; }
    StoreExact(Files(t), targets, items);
    forall i | 0 <= i < |items| ensures HoldsText(v, targets[i], items[i].content) {
      TargetNotReserved(out, items[i], GENERATION);
      TargetNotReserved(out, items[i], METADATA);
      FilesExact(u, targets[i]);
    }
    forall q | q !in targets && q != g && q != m
      ensures (IsFile(v, q) <==> IsFile(t, q)) && (IsFile(t, q) ==> v[q] == t[q])
    {
      FilesExact(t, q);
      FilesExact(u, q);
    }
  }

  // ----- what the checks catch, and what they do not -----

  /** Two spellings of one path are refused, however they are written. */
  lemma TwoSpellingsRefused(t: Tree, out: Path, suite: Json, force: bool, i: nat, j: nat)
    requires GoodSuite(suite) && i < j < |SuiteItems(suite)|
    requires Parts(SuiteItems(suite)[i].path) == Parts(SuiteItems(suite)[j].path)
    ensures !ChecksPass(t, out, suite, force)
  {
    hide GoodSuite, Preparable, Parts;
    var items := SuiteItems(suite);
    if AllSafe(items) {
      assert Targets(out, items)[i] == Targets(out, items)[j];
    }
  }

  function EntryFor(path: string): Json {
    Object([Entry("path", Str(path)), Entry("purpose", Str("")), Entry("content", Str(""))])
  }

  function SuiteFor(first: string, second: string): Json {
    Object([
      Entry("summary", Str("")), Entry("detected_build_system", Str("")), Entry("recommended_test_command", Str("")),
      Entry("files", List([EntryFor(first), EntryFor(second)])), Entry("integration_notes", List([]))
    ])
  }

  lemma {:induction false} GetHere(entries: seq<Entry>, k: nat, key: string)
    requires k < |entries| && entries[k].key == key && forall j :: 0 <= j < k ==> entries[j].key != key
    ensures Get(entries, key) == Some(entries[k].value)
  {
    if k > 0 { GetHere(entries[1..], k - 1, key); }
  }

  lemma EntryForIsGood(path: string)
    requires |path| <= MAX_PATH
    ensures GoodEntry(EntryFor(path)) && ItemOf(EntryFor(path)) == Item(path, "")
  {
    var entries := EntryFor(path).entries;
    assert |"path"| == 4 && |"purpose"| == 7 && |"content"| == 7 && "purpose"[0] != "content"[0];
    GetHere(entries, 0, "path");
    GetHere(entries, 1, "purpose");
    GetHere(entries, 2, "content");
  }

  lemma SuiteKeysDiffer()
    ensures |TEXT_FIELDS[0]| == 7 && |TEXT_FIELDS[1]| == 21 && |TEXT_FIELDS[2]| == 24
    ensures |"files"| == 5 && |"integration_notes"| == 17
  {
  }

  lemma SuiteForEntries(first: string, second: string)
    ensures SuiteFor(first, second).Object?
    ensures Get(SuiteFor(first, second).entries, "files") == Some(List([EntryFor(first), EntryFor(second)]))
  {
    hide EntryFor;
    SuiteKeysDiffer();
    GetHere(SuiteFor(first, second).entries, 3, "files");
  }

  lemma SuiteForHeader(first: string, second: string)
    ensures GoodHeader(SuiteFor(first, second))
  {
    hide EntryFor;
    var entries := SuiteFor(first, second).entries;
    SuiteKeysDiffer();
    GetHere(entries, 0, TEXT_FIELDS[0]);
    GetHere(entries, 1, TEXT_FIELDS[1]);
    GetHere(entries, 2, TEXT_FIELDS[2]);
    GetHere(entries, 4, "integration_notes");
  }

  lemma SuiteForFiles(first: string, second: string)
    requires |first| <= MAX_PATH && |second| <= MAX_PATH
    ensures var files := [EntryFor(first), EntryFor(second)];
      && GoodFiles(List(files)) && (forall k :: 0 <= k < |files| ==> WellFormedEntry(files[k]))
      && Items(files) == [Item(first, ""), Item(second, "")]
  {
    EntryForIsGood(first);
    EntryForIsGood(second);
    hide ItemOf, EntryFor;
    var items := [Item(first, ""), Item(second, "")];
    TotalSnoc([], items[0]);
    TotalSnoc([items[0]], items[1]);
    assert [] + [items[0]] == [items[0]] && [items[0]] + [items[1]] == items;
    assert Items([EntryFor(first), EntryFor(second)]) == items;
  }

  lemma SuiteForIsGood(first: string, second: string)
    requires |first| <= MAX_PATH && |second| <= MAX_PATH
    ensures GoodSuite(SuiteFor(first, second))
    ensures SuiteItems(SuiteFor(first, second)) == [Item(first, ""), Item(second, "")]
  {
    SuiteForHeader(first, second);
    SuiteForFiles(first, second);
    hide GoodHeader, GoodFiles, Items;
    SuiteForEntries(first, second);
  }

  lemma NestedTargets(out: Path, targets: seq<Path>)
    requires out != [] && |targets| == 2 && targets[0] == out + ["a"] && targets[1] == out + ["a", "b"]
    ensures Distinct(targets) && targets[0] < targets[1] && [] !in targets
  {
    assert targets[1] == targets[0] + ["b"];
  }

  lemma EmptyDiskPreparable(out: Path)
    requires out != []
    ensures var t: Tree := map[[] := Dir]; WellFormed(t) && Preparable(t, out, false)
  {
  }

  /** The checks do not look for one path below another: such a suite passes them, and the writing stops half-way. */
  lemma CheckedSuiteMayStop(out: Path)
    requires out != []
    ensures var t: Tree, suite := map[[] := Dir], SuiteFor("a", "a/b");
      WellFormed(t) && ChecksPass(t, out, suite, false) && !NoClash(t, Targets(out, SuiteItems(suite)))
  {
    hide GoodSuite, SuiteItems, SafeGeneratedPath, SuiteFor, Preparable, CanWrite;
    SuiteForIsGood("a", "a/b");
    assert "a" + "/" + "b" == "a/b";
    PathIsSafe("a");
    PathBelowIsSafe("a", "b");
    var targets := Targets(out, [Item("a", ""), Item("a/b", "")]);
    NestedTargets(out, targets);
    EmptyDiskPreparable(out);
  }
}
