/** `load_pairs` and `compare_pair_sets` (llm_test_generation/compare_icall_pairs.py). */
module IcallPairs {
  import opened Addresses
  import opened JsonValues
  import opened Optional
  import opened Orders

  datatype File = File(identity: string, payload: Json)
  datatype Pair = Pair(binary: string, source: int, target: int)

  /** The exceptions of the loader, with the file they name. */
  datatype LoadError =
    | NotAnObject(file: string)
    | InvalidSource(file: string, text: string)
    | NotAList(file: string, source: string)
    | TargetNotText(file: string)
    | InvalidTarget(file: string, text: string)

  datatype Loaded = Pairs(pairs: set<Pair>, identities: seq<string>) | Failed(error: LoadError)

  // ----- what the files say -----

  function EntryPairs(file: string, e: Entry): set<Pair> {
    if ParseInt(e.key).None? || !e.value.List? then {}
    else
      set t | t in e.value.items && t.Str? && ParseInt(t.text).Some? ::
        Pair(file, ParseInt(e.key).value, ParseInt(t.text).value)
  }

  function EntriesPairs(file: string, entries: seq<Entry>): set<Pair> {
    set e, p | e in entries && p in EntryPairs(file, e) :: p
  }

  function FilePairs(f: File): set<Pair> {
    if f.payload.Object? then EntriesPairs(f.identity, f.payload.entries) else {}
  }

  /** Every triple that some file denotes: the files are read as a set of statements, whatever their order. */
  function Denoted(files: seq<File>): set<Pair> {
    set f, p | f in files && p in FilePairs(f) :: p
  }

  function TargetFault(file: string, t: Json): Option<LoadError> {
    if !t.Str? then Some(TargetNotText(file))
    else if ParseInt(t.text).None? then Some(InvalidTarget(file, t.text))
    else None
  }

  function TargetsFault(file: string, targets: seq<Json>): Option<LoadError> {
    if targets == [] then None
    else if TargetFault(file, targets[0]).Some? then TargetFault(file, targets[0])
    else TargetsFault(file, targets[1..])
  }

  function EntryFault(file: string, e: Entry): Option<LoadError> {
    if ParseInt(e.key).None? then Some(InvalidSource(file, e.key))
    else if !e.value.List? then Some(NotAList(file, e.key))
    else TargetsFault(file, e.value.items)
  }

  function EntriesFault(file: string, entries: seq<Entry>): Option<LoadError> {
    if entries == [] then None
    else if EntryFault(file, entries[0]).Some? then EntryFault(file, entries[0])
    else EntriesFault(file, entries[1..])
  }

  function FileFault(f: File): Option<LoadError> {
    if !f.payload.Object? then Some(NotAnObject(f.identity)) else EntriesFault(f.identity, f.payload.entries)
  }

  /** The first thing wrong, in the order in which files, call sites and targets are read. */
  function Fault(files: seq<File>): Option<LoadError> {
    if files == [] then None
    else if FileFault(files[0]).Some? then FileFault(files[0])
    else Fault(files[1..])
  }

  function Identities(files: seq<File>): seq<string> {
    seq(|files|, j requires 0 <= j < |files| => files[j].identity)
  }

  // ----- the loader -----

  lemma NoTargets(file: string, key: string)
    ensures EntryPairs(file, Entry(key, List([]))) == {}
  {
    hide ParseInt;
  }

  lemma TargetsGrow(file: string, key: string, source: int, targets: seq<Json>, t: Json)
    requires ParseInt(key) == Some(source) && t.Str? && ParseInt(t.text).Some?
    ensures EntryPairs(file, Entry(key, List(targets + [t])))
         == EntryPairs(file, Entry(key, List(targets))) + {Pair(file, source, ParseInt(t.text).value)}
  {
    hide ParseInt;
    assert forall u :: u in targets + [t] <==> u in targets || u == t;
  }

  method AddTargets(file: string, key: string, source: int, targets: seq<Json>, before: set<Pair>)
    returns (pairs: set<Pair>, fault: Option<LoadError>)
    requires ParseInt(key) == Some(source)
    ensures fault == TargetsFault(file, targets)
    ensures fault.None? ==> pairs == before + EntryPairs(file, Entry(key, List(targets)))
  {
    hide ParseInt, EntryPairs;
    pairs, fault := before, None;
    var k := 0;
    NoTargets(file, key);
    while k < |targets|
      invariant k <= |targets| && fault.None?
      invariant TargetsFault(file, targets) == TargetsFault(file, targets[k..])
      invariant pairs == before + EntryPairs(file, Entry(key, List(targets[..k])))
    {
      var t := targets[k];
      if !t.Str? {
        return pairs, Some(TargetNotText(file));
      }
      var target := ParseInt(t.text);
      if target.None? {
        return pairs, Some(InvalidTarget(file, t.text));
      }
      pairs := pairs + {Pair(file, source, target.value)};
      assert targets[..k + 1] == targets[..k] + [t];
      TargetsGrow(file, key, source, targets[..k], t);
      k := k + 1;
    }
    assert targets[..k] == targets;
  }

  method AddFile(f: File, before: set<Pair>) returns (pairs: set<Pair>, fault: Option<LoadError>)
    ensures fault == FileFault(f)
    ensures fault.None? ==> pairs == before + FilePairs(f)
  {
    hide EntryPairs, TargetsFault, ParseInt;
    pairs, fault := before, None;
    if !f.payload.Object? {
      return pairs, Some(NotAnObject(f.identity));
    }
    var entries := f.payload.entries;
    var j := 0;
    while j < |entries|
      invariant j <= |entries| && fault.None?
      invariant EntriesFault(f.identity, entries) == EntriesFault(f.identity, entries[j..])
      invariant pairs == before + EntriesPairs(f.identity, entries[..j])
    {
      var e := entries[j];
      var source := ParseInt(e.key);
      if source.None? {
        return pairs, Some(InvalidSource(f.identity, e.key));
      }
      if !e.value.List? {
        return pairs, Some(NotAList(f.identity, e.key));
      }
      pairs, fault := AddTargets(f.identity, e.key, source.value, e.value.items, pairs);
      if fault.Some? {
        return;
      }
      assert entries[..j + 1] == entries[..j] + [e];
      assert EntriesPairs(f.identity, entries[..j + 1])
        == EntriesPairs(f.identity, entries[..j]) + EntryPairs(f.identity, e);
      j := j + 1;
    }
    assert entries[..j] == entries;
  }

  /** The loader fails on the first fault, and otherwise returns exactly the triples that the files denote. */
  method LoadPairs(files: seq<File>) returns (r: Loaded)
    ensures r == match Fault(files) case Some(e) => Failed(e) case None => Pairs(Denoted(files), Identities(files))
  {
    hide FilePairs, FileFault;
    var pairs: set<Pair> := {};
    var identities: seq<string> := [];
    var i := 0;
    while i < |files|
      invariant i <= |files|
      invariant Fault(files) == Fault(files[i..])
      invariant pairs == Denoted(files[..i]) && identities == Identities(files[..i])
    {
      var f := files[i];
      identities := identities + [f.identity];
      var more, fault := AddFile(f, pairs);
      if fault.Some? {
        return Failed(fault.value);
      }
      assert files[..i + 1] == files[..i] + [f];
      assert Denoted(files[..i + 1]) == Denoted(files[..i]) + FilePairs(f);
      pairs := more;
      i := i + 1;
    }
    assert files[..i] == files;
    r := Pairs(pairs, identities);
  }

  // ----- the set depends only on what is said -----

  predicate WellFormedEntry(e: Entry) {
    ParseInt(e.key).Some? && e.value.List? && forall t :: t in e.value.items ==> t.Str? && ParseInt(t.text).Some?
  }

  predicate WellFormed(f: File) {
    f.payload.Object? && forall e :: e in f.payload.entries ==> WellFormedEntry(e)
  }

  lemma {:induction false} TargetsFaultExact(file: string, targets: seq<Json>)
    ensures TargetsFault(file, targets).None? <==> forall t :: t in targets ==> t.Str? && ParseInt(t.text).Some?
    decreases |targets|
  {
    hide ParseInt;
    if targets != [] {
      TargetsFaultExact(file, targets[1..]);
      assert targets == [targets[0]] + targets[1..];
    }
  }

  lemma EntryFaultExact(file: string, e: Entry)
    ensures EntryFault(file, e).None? <==> WellFormedEntry(e)
  {
    hide ParseInt;
    if e.value.List? { TargetsFaultExact(file, e.value.items); }
  }

  lemma {:induction false} EntriesFaultExact(file: string, entries: seq<Entry>)
    ensures EntriesFault(file, entries).None? <==> forall e :: e in entries ==> WellFormedEntry(e)
    decreases |entries|
  {
    hide EntryFault, WellFormedEntry;
    if entries != [] {
      EntryFaultExact(file, entries[0]);
      EntriesFaultExact(file, entries[1..]);
      assert forall e :: e in entries <==> e == entries[0] || e in entries[1..];
    }
  }

  lemma FileFaultExact(f: File)
    ensures FileFault(f).None? <==> WellFormed(f)
  {
    if f.payload.Object? { EntriesFaultExact(f.identity, f.payload.entries); }
  }

  /** Loading succeeds exactly when every file is well formed. */
  lemma {:induction false} FaultExact(files: seq<File>)
    ensures Fault(files).None? <==> forall f :: f in files ==> WellFormed(f)
    decreases |files|
  {
    hide FileFault, WellFormed;
    if files != [] {
      FileFaultExact(files[0]);
      FaultExact(files[1..]);
      assert forall f :: f in files <==> f == files[0] || f in files[1..];
    }
  }

  /** A triple is loaded exactly if some file has a call site and a target that read as its addresses. */
  lemma DenotedExactly(files: seq<File>, p: Pair)
    ensures p in Denoted(files) <==> exists f, e, t ::
      && f in files && f.payload.Object? && e in f.payload.entries && e.value.List? && t in e.value.items && t.Str?
      && f.identity == p.binary && ParseInt(e.key) == Some(p.source) && ParseInt(t.text) == Some(p.target)
  {
    hide ParseInt;
    if f, e, t :|
      && f in files && f.payload.Object? && e in f.payload.entries && e.value.List? && t in e.value.items && t.Str?
      && f.identity == p.binary && ParseInt(e.key) == Some(p.source) && ParseInt(t.text) == Some(p.target)
    {
      assert p in EntryPairs(f.identity, e);
      assert p in FilePairs(f);
    }
  }

  // ----- the fault that is reported -----

  lemma {:induction false} FirstBadTarget(file: string, targets: seq<Json>, i: nat)
    requires i < |targets| && TargetFault(file, targets[i]).Some?
    requires forall j :: 0 <= j < i ==> targets[j].Str? && ParseInt(targets[j].text).Some?
    ensures TargetsFault(file, targets) ==
      Some(if targets[i].Str? then InvalidTarget(file, targets[i].text) else TargetNotText(file))
    decreases i
  {
    hide ParseInt;
    if i > 0 { FirstBadTarget(file, targets[1..], i - 1); }
  }

  lemma {:induction false} FirstBadEntry(file: string, entries: seq<Entry>, i: nat)
    requires i < |entries| && !WellFormedEntry(entries[i]) && forall j :: 0 <= j < i ==> WellFormedEntry(entries[j])
    ensures EntriesFault(file, entries) == EntryFault(file, entries[i]) && EntryFault(file, entries[i]).Some?
    ensures ParseInt(entries[i].key).None? ==> EntryFault(file, entries[i]) == Some(InvalidSource(file, entries[i].key))
    ensures ParseInt(entries[i].key).Some? && !entries[i].value.List? ==>
      EntryFault(file, entries[i]) == Some(NotAList(file, entries[i].key))
    ensures ParseInt(entries[i].key).Some? && entries[i].value.List? ==>
      EntryFault(file, entries[i]) == TargetsFault(file, entries[i].value.items)
    decreases i
  {
    hide ParseInt, WellFormedEntry, TargetsFault;
    EntryFaultExact(file, entries[0]);
    EntryFaultExact(file, entries[i]);
    if i > 0 { FirstBadEntry(file, entries[1..], i - 1); }
  }

  /** The first file that is not well formed is reported; in it the first call site, and there the first target. */
  lemma {:induction false} FirstBadFile(files: seq<File>, i: nat)
    requires i < |files| && !WellFormed(files[i]) && forall j :: 0 <= j < i ==> WellFormed(files[j])
    ensures Fault(files) == FileFault(files[i]) && FileFault(files[i]).Some?
    ensures !files[i].payload.Object? ==> FileFault(files[i]) == Some(NotAnObject(files[i].identity))
    ensures files[i].payload.Object? ==>
      FileFault(files[i]) == EntriesFault(files[i].identity, files[i].payload.entries)
    decreases i
  {
    hide WellFormed, EntriesFault;
    FileFaultExact(files[0]);
    FileFaultExact(files[i]);
    if i > 0 { FirstBadFile(files[1..], i - 1); }
  }

  // ----- whatever the order and the spelling -----

  /** Everything in `a` has a counterpart in `b`. */
  ghost predicate Covered<T(!new)>(a: seq<T>, b: seq<T>, same: (T, T) -> bool) {
    forall x :: x in a ==> exists y :: y in b && same(x, y)
  }

  /** Texts that are the same address, or no address both; or things that are no texts. */
  predicate SameTarget(t: Json, u: Json) {
    t.Str? == u.Str? && (t.Str? ==> ParseInt(t.text) == ParseInt(u.text))
  }

  /** The same call site with the same targets, each written in any way, in any order and number. */
  ghost predicate SameEntry(e: Entry, f: Entry) {
    && ParseInt(e.key) == ParseInt(f.key) && e.value.List? == f.value.List?
    && (e.value.List? ==>
      Covered(e.value.items, f.value.items, SameTarget) && Covered(f.value.items, e.value.items, SameTarget))
  }

  ghost predicate SameFile(f: File, g: File) {
    && f.identity == g.identity && f.payload.Object? == g.payload.Object?
    && (f.payload.Object? ==>
          Covered(f.payload.entries, g.payload.entries, SameEntry)
            && Covered(g.payload.entries, f.payload.entries, SameEntry))
  }

  /** Two runs say the same: file by file, call site by call site, target by target, in any order and spelling. */
  ghost predicate SaysTheSame(a: seq<File>, b: seq<File>) {
    Covered(a, b, SameFile) && Covered(b, a, SameFile)
  }

  lemma {:induction false} EntryWithin(file: string, e: Entry, f: Entry)
    requires SameEntry(e, f)
    ensures EntryPairs(file, e) <= EntryPairs(file, f)
    ensures WellFormedEntry(f) ==> WellFormedEntry(e)
  {
    hide ParseInt;
    if e.value.List? {
      forall t | t in e.value.items ensures exists u :: u in f.value.items && SameTarget(t, u) {}
    }
  }

  lemma {:induction false} FileWithin(f: File, g: File)
    requires SameFile(f, g)
    ensures FilePairs(f) <= FilePairs(g) && (WellFormed(g) ==> WellFormed(f))
  {
    hide EntryPairs, WellFormedEntry, SameEntry;
    if f.payload.Object? {
      forall e | e in f.payload.entries
        ensures exists h :: h in g.payload.entries && EntryPairs(f.identity, e) <= EntryPairs(f.identity, h)
                            && (WellFormedEntry(h) ==> WellFormedEntry(e))
      {
        var h :| h in g.payload.entries && SameEntry(e, h);
        EntryWithin(f.identity, e, h);
      }
    }
  }

  lemma {:induction false} RunWithin(a: seq<File>, b: seq<File>)
    requires Covered(a, b, SameFile)
    ensures Denoted(a) <= Denoted(b)
    ensures (forall g :: g in b ==> WellFormed(g)) ==> forall f :: f in a ==> WellFormed(f)
  {
    hide FilePairs, WellFormed, SameFile;
    forall f | f in a
      ensures exists g :: g in b && FilePairs(f) <= FilePairs(g) && (WellFormed(g) ==> WellFormed(f))
    {
      var g :| g in b && SameFile(f, g);
      FileWithin(f, g);
    }
  }

  /**
   Neither the order of files, call sites and targets nor the way each occurrence of an address is written
   changes what is loaded, or whether loading succeeds.
   */
  lemma {:induction false} LoadingIgnoresOrderAndSpelling(a: seq<File>, b: seq<File>)
    requires SaysTheSame(a, b)
    ensures Denoted(a) == Denoted(b) && (Fault(a).None? <==> Fault(b).None?)
  {
    hide Denoted, WellFormed, Fault, Covered, SameFile;
    FaultExact(a);
    FaultExact(b);
    RunWithin(a, b);
    RunWithin(b, a);
  }

  // ----- comparing -----

  /** The order of Python tuples. */
  predicate PairLess(a: Pair, b: Pair) {
    || StrLess(a.binary, b.binary)
    || (a.binary == b.binary && (a.source < b.source || (a.source == b.source && a.target < b.target)))
  }

  lemma PairLessIsTotal()
    ensures StrictTotal(PairLess)
  {
    hide StrLess;
    forall x: Pair ensures !PairLess(x, x) { StrLessIrreflexive(x.binary); }
    forall x: Pair, y: Pair ensures x == y || PairLess(x, y) || PairLess(y, x) { StrLessTotal(x.binary, y.binary); }
    forall x: Pair, y: Pair, z: Pair | PairLess(x, y) && PairLess(y, z) ensures PairLess(x, z) {
      if StrLess(x.binary, y.binary) && StrLess(y.binary, z.binary) {
        StrLessTransitive(x.binary, y.binary, z.binary);
      }
    }
  }

  /** The path decides; of one path the call site, as a number; of one call site the target. */
  lemma PairLessByPart(a: Pair, b: Pair)
    ensures a.binary != b.binary ==> (PairLess(a, b) <==> StrLess(a.binary, b.binary))
    ensures a.binary == b.binary && a.source != b.source ==> (PairLess(a, b) <==> a.source < b.source)
    ensures a.binary == b.binary && a.source == b.source ==> (PairLess(a, b) <==> a.target < b.target)
  {
    hide StrLess;
    StrLessIrreflexive(a.binary);
  }

  datatype Example = Example(binary: string, callSite: string, target: string)

  datatype Summary = Summary(baselineCount: nat, candidateCount: nat, newCount: nat, unionCount: nat,
                             notReplayed: nat, examples: seq<Example>)

  const EXAMPLES := 20

  function Render(p: Pair): Example { Example(p.binary, Show(p.source), Show(p.target)) }

  function Min(a: nat, b: nat): nat { if a < b then a else b }

  ghost function SortedPairs(pairs: set<Pair>): (r: seq<Pair>)
    ensures Ascending(PairLess, r) && |r| == |pairs| && forall p :: p in r <==> p in pairs
  {
    PairLessIsTotal();
    SortedSet(PairLess, pairs)
  }

  ghost function Shown(added: set<Pair>): (r: seq<Pair>)
  {
    SortedPairs(added)[..Min(EXAMPLES, |added|)]
  }

  ghost function ComparePairSets(baseline: set<Pair>, candidate: set<Pair>): (r: Summary)
    ensures r.baselineCount + r.newCount == r.unionCount == r.candidateCount + r.notReplayed
  {
    var added := candidate - baseline;
    var shown := Shown(added);
    Summary(|baseline|, |candidate|, |added|, |baseline + candidate|, |baseline - candidate|,
            seq(|shown|, j requires 0 <= j < |shown| => Render(shown[j])))
  }

  /** Each count apart. */
  lemma CountsApart(baseline: set<Pair>, candidate: set<Pair>)
    ensures var r := ComparePairSets(baseline, candidate);
      && r.baselineCount == |baseline| && r.candidateCount == |candidate|
      && r.newCount + |candidate * baseline| == |candidate|
      && r.notReplayed + |baseline * candidate| == |baseline|
      && r.unionCount + |baseline * candidate| == |baseline| + |candidate|
  {
    hide Shown;
    assert candidate == (candidate - baseline) + candidate * baseline;
    assert baseline == (baseline - candidate) + baseline * candidate;
  }

  /** The pair an example shows, when its addresses can be read. */
  function Unrender(e: Example): Option<Pair> {
    match (ParseInt(e.callSite), ParseInt(e.target))
    case (Some(s), Some(t)) => Some(Pair(e.binary, s, t))
    case _ => None
  }

  /** An example reads back as its pair exactly when neither address is negative. */
  lemma RenderReadsBack(p: Pair)
    ensures Unrender(Render(p)) == if p.source >= 0 && p.target >= 0 then Some(p) else None
  {
    hide ParseInt, Show;
    ShowParses(p.source);
    ShowParses(p.target);
  }

  lemma RenderInjective(p: Pair, q: Pair)
    ensures Render(p) == Render(q) ==> p == q
  {
    hide Show;
    ShowInjective(p.source, q.source);
    ShowInjective(p.target, q.target);
  }

  /** The examples are the first twenty new pairs in order: none is repeated, and none is passed over. */
  lemma ExamplesAreTheLeast(baseline: set<Pair>, candidate: set<Pair>)
    ensures var r, shown := ComparePairSets(baseline, candidate), Shown(candidate - baseline);
      && |shown| == |r.examples| == (if r.newCount < 20 then r.newCount else 20)
      && (forall j :: 0 <= j < |shown| ==> shown[j] in candidate - baseline && r.examples[j] == Render(shown[j]))
      && Distinct(r.examples)
      && (forall i, j :: 0 <= i < j < |shown| ==> PairLess(shown[i], shown[j]))
      && (forall p, j :: p in candidate - baseline && p !in shown && 0 <= j < |shown| ==> PairLess(shown[j], p))
  {
    hide StrLess, Show, PairLess, Render;
    var added := candidate - baseline;
    var all, shown := SortedPairs(added), Shown(added);
    PairLessIsTotal();
    var r := ComparePairSets(baseline, candidate);
    forall i, j | 0 <= i < j < |shown| ensures r.examples[i] != r.examples[j] {
      RenderInjective(shown[i], shown[j]);
      Compare(PairLess, all[i], all[j]);
    }
    forall p, j | p in added && p !in shown && 0 <= j < |shown| ensures PairLess(shown[j], p) {
      assert all == shown + all[|shown|..];
      assert p in all[|shown|..];
    }
  }

  // ----- the program -----

  datatype Verdict = Failure(error: LoadError) | TooFew | Enough

  /** `main`: load both runs, compare them, and ask for at least `requireNew` new pairs. */
  method CompareRuns(baseline: seq<File>, candidate: seq<File>, requireNew: nat)
      returns (r: Verdict, ghost summary: Summary)
    ensures Fault(baseline).Some? ==> r == Failure(Fault(baseline).value)
    ensures Fault(baseline).None? && Fault(candidate).Some? ==> r == Failure(Fault(candidate).value)
    ensures Fault(baseline).None? && Fault(candidate).None? ==>
      var added := Denoted(candidate) - Denoted(baseline);
      && summary == ComparePairSets(Denoted(baseline), Denoted(candidate)) && summary.newCount == |added|
      && r == if |added| < requireNew then TooFew else Enough
  {
    hide Denoted;
    summary := Summary(0, 0, 0, 0, 0, []);
    var first := LoadPairs(baseline);
    if first.Failed? {
      return Failure(first.error), summary;
    }
    var second := LoadPairs(candidate);
    if second.Failed? {
      return Failure(second.error), summary;
    }
    summary := ComparePairSets(first.pairs, second.pairs);
    r := if |second.pairs - first.pairs| < requireNew then TooFew else Enough;
  }

  /** So the verdict depends only on which triples the files of the two runs denote. */
  lemma {:induction false} VerdictIgnoresOrderAndSpelling(b1: seq<File>, b2: seq<File>, c1: seq<File>, c2: seq<File>)
    requires SaysTheSame(b1, b2) && SaysTheSame(c1, c2)
    ensures ComparePairSets(Denoted(b1), Denoted(c1)) == ComparePairSets(Denoted(b2), Denoted(c2))
  {
    LoadingIgnoresOrderAndSpelling(b1, b2);
    LoadingIgnoresOrderAndSpelling(c1, c2);
  }
}
