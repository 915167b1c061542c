/** `select_project_files` (llm_test_generation/generate_tests.py). */
module FileSelection {
  import opened Optional
  import opened Orders
  import opened ProjectPaths
  import opened RoundRobin
  import opened Splitting

  // ----- reading -----

  /** A file on disk: its size, whether it contains a NUL byte, and its text when it is UTF-8. */
  datatype OnDisk = Unreadable | Bytes(count: nat, hasNul: bool, text: Option<string>)

  datatype Readable = Readable(content: string, byteCount: nat)

  /** `read_text_file` */
  function ReadTextFile(file: OnDisk, maxFileBytes: int): Option<Readable> {
    match file
    case Unreadable => None
    case Bytes(count, hasNul, text) =>
      if count == 0 || count > maxFileBytes then None
      else if hasNul || text.None? then None
      else Some(Readable(text.value, count))
  }

  /** The files that can be read: neither empty nor over the limit, without NUL bytes, and UTF-8. */
  lemma ReadableExactly(file: OnDisk, maxFileBytes: int, r: Readable)
    ensures ReadTextFile(file, maxFileBytes) == Some(r) <==>
      file == Bytes(r.byteCount, false, Some(r.content)) && 0 < r.byteCount <= maxFileBytes
  {
  }

  datatype SelectedFile = SelectedFile(path: string, content: string, byteCount: nat, priority: int)

  // ----- ranking -----

  const CATEGORIES := [Metadata, Tests, Sources, Headers]

  function OfCategory(candidates: seq<RelPath>, category: Category): seq<RelPath> {
    if candidates == [] then []
    else
      OfCategory(candidates[..|candidates| - 1], category)
      + if CategoryOf(candidates[|candidates| - 1]) == category then [candidates[|candidates| - 1]] else []
  }

  function Buckets(candidates: seq<RelPath>): seq<seq<RelPath>> {
    seq(4, c requires 0 <= c < 4 => OfCategory(candidates, CATEGORIES[c]))
  }

  function SortedBuckets(candidates: seq<RelPath>): seq<seq<RelPath>> {
    seq(4, c requires 0 <= c < 4 => SortBy(PathLess, OfCategory(candidates, CATEGORIES[c])))
  }

  function Ranked(candidates: seq<RelPath>): seq<RelPath> {
    Merge(SortedBuckets(candidates))
  }

  function Index(category: Category): (c: nat)
    ensures c < 4 && CATEGORIES[c] == category
  {
    match category
    case Metadata => 0
    case Tests => 1
    case Sources => 2
    case Headers => 3
  }

  // ----- choosing -----

  /** The budgets of one selection. */
  datatype Limits = Limits(files: int, fileBytes: int, chars: int)

  function Selected(path: RelPath, r: Readable): SelectedFile {
    SelectedFile(Posix(path), r.content, r.byteCount, Priority(path))
  }

  function Chars(files: seq<SelectedFile>): nat {
    if files == [] then 0 else Chars(files[..|files| - 1]) + |files[|files| - 1].content|
  }

  /** Add the file if there is room for one more, it can be read and its characters fit. */
  function Offer(chosen: seq<SelectedFile>, path: RelPath, file: OnDisk, limits: Limits): seq<SelectedFile> {
    var r := ReadTextFile(file, limits.fileBytes);
    if |chosen| < limits.files && r.Some? && Chars(chosen) + |r.value.content| <= limits.chars then
      chosen + [Selected(path, r.value)]
    else chosen
  }

  function Chosen(ranked: seq<RelPath>, disk: RelPath -> OnDisk, limits: Limits): seq<SelectedFile> {
    if ranked == [] then []
    else
      var k := |ranked| - 1;
      Offer(Chosen(ranked[..k], disk, limits), ranked[k], disk(ranked[k]), limits)
  }

  function Select(candidates: seq<RelPath>, disk: RelPath -> OnDisk, limits: Limits): seq<SelectedFile> {
    Chosen(Ranked(candidates), disk, limits)
  }

  // ----- the code -----

  lemma OneMoreCandidate(candidates: seq<RelPath>, path: RelPath, category: Category)
    ensures OfCategory(candidates + [path], category)
         == if CategoryOf(path) == category then OfCategory(candidates, category) + [path]
           else OfCategory(candidates, category)
  {
    hide CategoryOf;
    var all := candidates + [path];
    assert all[..|all| - 1] == candidates;
  }

  lemma BucketsGrow(candidates: seq<RelPath>, path: RelPath)
    ensures var c, b := Index(CategoryOf(path)), Buckets(candidates);
      Buckets(candidates + [path]) == b[c := b[c] + [path]]
  {
    hide CategoryOf, OfCategory;
    var c, b, r := Index(CategoryOf(path)), Buckets(candidates), Buckets(candidates + [path]);
    forall d | 0 <= d < 4 ensures r[d] == if d == c then b[d] + [path] else b[d] {
      OneMoreCandidate(candidates, path, CATEGORIES[d]);
    }
    assert |r| == |b| == 4;
  }

  method FillBuckets(candidates: seq<RelPath>) returns (buckets: seq<seq<RelPath>>)
    ensures buckets == Buckets(candidates)
  {
    hide CategoryOf;
    buckets := [[], [], [], []];
    var k := 0;
    while k < |candidates|
      invariant k <= |candidates| && buckets == Buckets(candidates[..k])
    {
      var path := candidates[k];
      var c := Index(CategoryOf(path));
      assert candidates[..k + 1] == candidates[..k] + [path];
      BucketsGrow(candidates[..k], path);
      buckets := buckets[c := buckets[c] + [path]];
      k := k + 1;
    }
    assert candidates[..k] == candidates;
  }

  method SortBuckets(candidates: seq<RelPath>, filled: seq<seq<RelPath>>) returns (buckets: seq<seq<RelPath>>)
    requires filled == Buckets(candidates)
    ensures buckets == SortedBuckets(candidates)
  {
    hide SortBy, OfCategory;
    buckets := filled;
    var c := 0;
    while c < |buckets|
      invariant c <= |buckets| == 4
      invariant forall d :: 0 <= d < c ==> buckets[d] == SortBy(PathLess, filled[d])
      invariant forall d :: c <= d < 4 ==> buckets[d] == filled[d]
    {
      buckets := buckets[c := SortBy(PathLess, buckets[c])];
      c := c + 1;
    }
  }

  lemma NothingChosen(disk: RelPath -> OnDisk, limits: Limits)
    ensures Chosen([], disk, limits) == [] && Chars([]) == 0
  {
  }

  lemma ChosenNext(ranked: seq<RelPath>, disk: RelPath -> OnDisk, limits: Limits, k: nat)
    requires k < |ranked|
    ensures Chosen(ranked[..k + 1], disk, limits) == Offer(Chosen(ranked[..k], disk, limits), ranked[k],
        disk(ranked[k]), limits)
  {
    hide Offer;
    assert ranked[..k + 1][..k] == ranked[..k];
  }

  lemma {:induction false} CharsSnoc(files: seq<SelectedFile>, item: SelectedFile)
    ensures Chars(files + [item]) == Chars(files) + |item.content|
  {
    assert (files + [item])[..|files|] == files;
  }

  /** One file is added exactly if there is room for it; then its characters count. */
  lemma OfferCases(chosen: seq<SelectedFile>, path: RelPath, file: OnDisk, limits: Limits)
    requires |chosen| < limits.files
    ensures var r, o := ReadTextFile(file, limits.fileBytes), Offer(chosen, path, file, limits);
      && (r.Some? && Chars(chosen) + |r.value.content| <= limits.chars ==>
            o == chosen + [Selected(path, r.value)] && Chars(o) == Chars(chosen) + |r.value.content|)
      && (r.None? || Chars(chosen) + |r.value.content| > limits.chars ==> o == chosen)
  {
    hide Priority, Posix, ReadTextFile, Chars;
    var r := ReadTextFile(file, limits.fileBytes);
    if r.Some? { CharsSnoc(chosen, Selected(path, r.value)); }
  }

  lemma OfferFull(chosen: seq<SelectedFile>, path: RelPath, file: OnDisk, limits: Limits)
    requires |chosen| >= limits.files
    ensures Offer(chosen, path, file, limits) == chosen
  {
  }

  /** Once the number of files is reached, nothing more is chosen. */
  lemma {:induction false} FullStays(ranked: seq<RelPath>, disk: RelPath -> OnDisk, limits: Limits, k: nat)
    requires k <= |ranked| && |Chosen(ranked[..k], disk, limits)| >= limits.files
    ensures Chosen(ranked, disk, limits) == Chosen(ranked[..k], disk, limits)
    decreases |ranked|
  {
    hide Chosen, Offer;
    if k == |ranked| {
      assert ranked[..k] == ranked;
    } else {
      var n := |ranked| - 1;
      assert ranked[..n][..k] == ranked[..k] && ranked[..n + 1] == ranked;
      FullStays(ranked[..n], disk, limits, k);
      ChosenNext(ranked, disk, limits, n);
      OfferFull(Chosen(ranked[..n], disk, limits), ranked[n], disk(ranked[n]), limits);
    }
  }

  method Choose(ranked: seq<RelPath>, disk: RelPath -> OnDisk, limits: Limits) returns (selected: seq<SelectedFile>)
    ensures selected == Chosen(ranked, disk, limits)
  {
    hide Chosen, Chars, Offer;
    selected := [];
    var usedChars := 0;
    var k := 0;
    NothingChosen(disk, limits);
    while k < |ranked|
      invariant k <= |ranked| && usedChars == Chars(selected)
      invariant selected == Chosen(ranked[..k], disk, limits)
    {
      if |selected| >= limits.files {
        FullStays(ranked, disk, limits, k);
        break;
      }
      var path := ranked[k];
      ChosenNext(ranked, disk, limits, k);
      OfferCases(selected, path, disk(path), limits);
      k := k + 1;
      var result := ReadTextFile(disk(path), limits.fileBytes);
      if result.None? {
        continue;
      }
      var content, byteCount := result.value.content, result.value.byteCount;
      if usedChars + |content| > limits.chars {
        continue;
      }
      selected := selected + [SelectedFile(Posix(path), content, byteCount, Priority(path))];
      usedChars := usedChars + |content|;
    }
    assert k == |ranked| ==> ranked[..k] == ranked;
  }

  method SelectProjectFiles(candidates: seq<RelPath>, disk: RelPath -> OnDisk, limits: Limits)
      returns (selected: seq<SelectedFile>)
    ensures selected == Select(candidates, disk, limits)
  {
    var filled := FillBuckets(candidates);
    var buckets := SortBuckets(candidates, filled);
    var ranked := Deal(buckets);
    selected := Choose(ranked, disk, limits);
  }

  // ----- the choice -----

  /** What is chosen from more paths begins with what was chosen from fewer. */
  lemma {:induction false} ChosenGrows(ranked: seq<RelPath>, disk: RelPath -> OnDisk, limits: Limits, k: nat)
    requires k <= |ranked|
    ensures Chosen(ranked[..k], disk, limits) <= Chosen(ranked, disk, limits)
    ensures Chars(Chosen(ranked[..k], disk, limits)) <= Chars(Chosen(ranked, disk, limits))
    decreases |ranked|
  {
    hide Selected, ReadTextFile, Chars;
    if k == |ranked| {
      assert ranked[..k] == ranked;
    } else {
      var n := |ranked| - 1;
      assert ranked[..n][..k] == ranked[..k];
      ChosenGrows(ranked[..n], disk, limits, k);
      var r := ReadTextFile(disk(ranked[n]), limits.fileBytes);
      if r.Some? { CharsSnoc(Chosen(ranked[..n], disk, limits), Selected(ranked[n], r.value)); }
    }
  }

  /** Both budgets are kept. */
  lemma {:induction false} ChosenWithinBudget(ranked: seq<RelPath>, disk: RelPath -> OnDisk, limits: Limits)
    ensures var chosen := Chosen(ranked, disk, limits);
      |chosen| > 0 ==> |chosen| <= limits.files && Chars(chosen) <= limits.chars
    decreases |ranked|
  {
    hide Posix, Priority, ReadTextFile, Chars;
    if ranked != [] {
      var n := |ranked| - 1;
      ChosenWithinBudget(ranked[..n], disk, limits);
      var r := ReadTextFile(disk(ranked[n]), limits.fileBytes);
      if r.Some? { CharsSnoc(Chosen(ranked[..n], disk, limits), Selected(ranked[n], r.value)); }
    }
  }

  /** `at` picks `chosen` out of the ranking: increasing places, each with the file as it is on disk. */
  ghost predicate PickedAt(ranked: seq<RelPath>, disk: RelPath -> OnDisk, limits: Limits, chosen: seq<SelectedFile>,
      at: seq<nat>) {
    && |at| == |chosen|
    && (forall i, j :: 0 <= i < j < |at| ==> at[i] < at[j])
    && (forall i :: 0 <= i < |at| ==> at[i] < |ranked|)
    && (forall i :: 0 <= i < |at| ==>
          var r := ReadTextFile(disk(ranked[at[i]]), limits.fileBytes);
          r.Some? && chosen[i] == Selected(ranked[at[i]], r.value))
  }

  /** The choice is a subsequence of the ranking. */
  lemma {:induction false} ChosenInOrder(ranked: seq<RelPath>, disk: RelPath -> OnDisk, limits: Limits)
      returns (at: seq<nat>)
    ensures PickedAt(ranked, disk, limits, Chosen(ranked, disk, limits), at)
    decreases |ranked|
  {
    hide Selected, ReadTextFile, Chars;
    at := [];
    if ranked != [] {
      var n := |ranked| - 1;
      at := ChosenInOrder(ranked[..n], disk, limits);
      assert forall i :: 0 <= i < |at| ==> ranked[..n][at[i]] == ranked[at[i]];
      if Chosen(ranked, disk, limits) != Chosen(ranked[..n], disk, limits) {
        at := at + [n];
      }
    }
  }

  /** The choice is maximal: while files may be added, a readable file is left out only for its length. */
  lemma {:induction false} ChosenIsMaximal(ranked: seq<RelPath>, disk: RelPath -> OnDisk, limits: Limits, k: nat)
    requires k < |ranked| && |Chosen(ranked, disk, limits)| < limits.files
    requires ReadTextFile(disk(ranked[k]), limits.fileBytes).Some?
    ensures var r := ReadTextFile(disk(ranked[k]), limits.fileBytes).value;
      || Selected(ranked[k], r) in Chosen(ranked, disk, limits)
      || Chars(Chosen(ranked, disk, limits)) + |r.content| > limits.chars
  {
    hide Selected, ReadTextFile, Chars;
    ChosenGrows(ranked, disk, limits, k);
    ChosenGrows(ranked, disk, limits, k + 1);
    assert ranked[..k + 1][..k] == ranked[..k];
    var before, after := Chosen(ranked[..k], disk, limits), Chosen(ranked[..k + 1], disk, limits);
    var r := ReadTextFile(disk(ranked[k]), limits.fileBytes).value;
    if Chars(before) + |r.content| <= limits.chars {
      assert after[|before|] == Selected(ranked[k], r);
    }
  }

  /** Allowing more files only extends the choice. */
  lemma {:induction false} MoreFilesExtend(ranked: seq<RelPath>, disk: RelPath -> OnDisk, few: Limits, many: Limits)
    requires few.files <= many.files && few == many.(files := few.files)
    ensures Chosen(ranked, disk, few) <= Chosen(ranked, disk, many)
    ensures |Chosen(ranked, disk, few)| < few.files ==> Chosen(ranked, disk, few) == Chosen(ranked, disk, many)
    decreases |ranked|
  {
    hide Selected, ReadTextFile, Chars;
    if ranked != [] {
      MoreFilesExtend(ranked[..|ranked| - 1], disk, few, many);
    }
  }

  // ----- the whole selection -----

  lemma {:induction false} OfCategoryExact(candidates: seq<RelPath>, category: Category)
    ensures forall p :: p in OfCategory(candidates, category) <==> p in candidates && CategoryOf(p) == category
    ensures Distinct(candidates) ==> Distinct(OfCategory(candidates, category))
    decreases |candidates|
  {
    hide CategoryOf;
    if candidates != [] {
      var k := |candidates| - 1;
      OfCategoryExact(candidates[..k], category);
      assert candidates == candidates[..k] + [candidates[k]];
      assert Distinct(candidates) ==> candidates[k] !in candidates[..k];
    }
  }

  lemma {:induction false} DistinctCounts<T>(s: seq<T>, x: T)
    requires Distinct(s)
    ensures multiset(s)[x] == if x in s then 1 else 0
    decreases |s|
  {
    if s != [] {
      var k := |s| - 1;
      DistinctCounts(s[..k], x);
      assert s == s[..k] + [s[k]];
    }
  }

  lemma SameSetSameCounts<T>(s: seq<T>, t: seq<T>)
    requires Distinct(s) && Distinct(t) && forall x :: x in s <==> x in t
    ensures multiset(s) == multiset(t)
  {
    forall x ensures multiset(s)[x] == multiset(t)[x] {
      DistinctCounts(s, x);
      DistinctCounts(t, x);
    }
  }

  /** The result depends only on which files there are, not on the order in which they are found. */
  lemma SelectionIgnoresOrder(a: seq<RelPath>, b: seq<RelPath>, disk: RelPath -> OnDisk, limits: Limits)
    requires Distinct(a) && Distinct(b) && forall p :: p in a <==> p in b
    ensures Ranked(a) == Ranked(b) && Select(a, disk, limits) == Select(b, disk, limits)
  {
    hide CategoryOf, PathLess, Distinct;
    PathLessIsTotal();
    forall c | 0 <= c < 4 ensures SortedBuckets(a)[c] == SortedBuckets(b)[c] {
      OfCategoryExact(a, CATEGORIES[c]);
      OfCategoryExact(b, CATEGORIES[c]);
      SameSetSameCounts(OfCategory(a, CATEGORIES[c]), OfCategory(b, CATEGORIES[c]));
      SortIgnoresOrder(PathLess, OfCategory(a, CATEGORIES[c]), OfCategory(b, CATEGORIES[c]));
    }
    assert SortedBuckets(a) == SortedBuckets(b);
  }

  lemma {:induction false} ContentsOfFour<T>(q: seq<seq<T>>)
    requires |q| == 4
    ensures Contents(q) == multiset(q[0]) + multiset(q[1]) + multiset(q[2]) + multiset(q[3])
  {
    assert q[1..][1..] == q[2..] && q[2..][1..] == q[3..] && q[3..][1..] == [];
    assert Contents(q[3..]) == multiset(q[3]);
    assert Contents(q[2..]) == multiset(q[2]) + Contents(q[3..]);
    assert Contents(q[1..]) == multiset(q[1]) + Contents(q[2..]);
  }

  lemma {:induction false} NoneOfCategory(category: Category)
    ensures OfCategory([], category) == []
  {
  }

  lemma {:induction false} LastOfCategory(candidates: seq<RelPath>, category: Category)
    requires candidates != []
    ensures var k := |candidates| - 1;
      multiset(OfCategory(candidates, category)) == multiset(OfCategory(candidates[..k], category))
        + if CategoryOf(candidates[k]) == category then multiset{candidates[k]} else multiset{}
  {
  }

  lemma {:induction false} CategoriesCover(candidates: seq<RelPath>)
    ensures multiset(OfCategory(candidates, Metadata)) + multiset(OfCategory(candidates, Tests))
          + multiset(OfCategory(candidates, Sources)) + multiset(OfCategory(candidates, Headers))
            == multiset(candidates)
    decreases |candidates|
  {
    hide CategoryOf, OfCategory;
    if candidates == [] {
      NoneOfCategory(Metadata);
      NoneOfCategory(Tests);
      NoneOfCategory(Sources);
      NoneOfCategory(Headers);
    } else {
      var k := |candidates| - 1;
      CategoriesCover(candidates[..k]);
      LastOfCategory(candidates, Metadata);
      LastOfCategory(candidates, Tests);
      LastOfCategory(candidates, Sources);
      LastOfCategory(candidates, Headers);
      assert candidates == candidates[..k] + [candidates[k]];
    }
  }

  /** Every candidate is ranked, once. */
  lemma RankedIsPermutation(candidates: seq<RelPath>)
    requires Distinct(candidates)
    ensures multiset(Ranked(candidates)) == multiset(candidates)
  {
    hide CategoryOf, PathLess, Distinct;
    PathLessIsTotal();
    var sorted := SortedBuckets(candidates);
    MergeKeepsContents(sorted);
    ContentsOfFour(sorted);
    forall c | 0 <= c < 4 ensures multiset(sorted[c]) == multiset(OfCategory(candidates, CATEGORIES[c])) {
      OfCategoryExact(candidates, CATEGORIES[c]);
      SortByKeeps(PathLess, OfCategory(candidates, CATEGORIES[c]));
    }
    CategoriesCover(candidates);
  }

  // ----- the order of the ranking -----

  /** Candidates of the category of `p` that come before it: of higher priority, or equal and earlier in spelling. */
  ghost function Better(candidates: seq<RelPath>, p: RelPath): set<RelPath> {
    set x | x in candidates && CategoryOf(x) == CategoryOf(p)
      && (Priority(x) > Priority(p) || (Priority(x) == Priority(p) && StrLess(Posix(x), Posix(p))))
  }

  /** In one round: project metadata, then tests, then sources, then headers. */
  predicate TurnBefore(a: Category, b: Category) {
    (a == Metadata && b != Metadata) || (a == Tests && b in {Sources, Headers}) || (a == Sources && b == Headers)
  }

  lemma TurnsAreIndices(a: Category, b: Category)
    ensures TurnBefore(a, b) <==> Index(a) < Index(b)
  {
  }

  lemma PlaceInBucket(candidates: seq<RelPath>, p: RelPath) returns (j: nat)
    requires Distinct(candidates) && p in candidates
    ensures var s := SortedBuckets(candidates)[Index(CategoryOf(p))]; j < |s| && s[j] == p
    ensures j == |Better(candidates, p)|
  {
    hide CategoryOf, Distinct, Priority, StrLess, Posix, Ascending, SortBy;
    PathLessIsTotal();
    var mine := OfCategory(candidates, CategoryOf(p));
    var s := SortBy(PathLess, mine);
    assert s == SortedBuckets(candidates)[Index(CategoryOf(p))];
    OfCategoryExact(candidates, CategoryOf(p));
    SortByKeeps(PathLess, mine);
    forall x: RelPath ensures x in s <==> x in candidates && CategoryOf(x) == CategoryOf(p) { SameMembers(s, mine, x); }
    j :| 0 <= j < |s| && s[j] == p;
    PlaceIsRank(PathLess, s, j, Better(candidates, p));
  }

  /** Of two candidates, the one with fewer better ones of its own category comes first; then the category decides. */
  lemma RankedByTurns(candidates: seq<RelPath>, p: RelPath, q: RelPath) returns (i: nat, k: nat)
    requires Distinct(candidates) && p in candidates && q in candidates && p != q
    ensures i < |Ranked(candidates)| && Ranked(candidates)[i] == p
    ensures k < |Ranked(candidates)| && Ranked(candidates)[k] == q
    ensures i < k <==>
      var b, c := |Better(candidates, p)|, |Better(candidates, q)|;
      b < c || (b == c && TurnBefore(CategoryOf(p), CategoryOf(q)))
  {
    hide CategoryOf, Better, Distinct, Position, Merge, SortBy, OfCategory;
    var buckets := SortedBuckets(candidates);
    var c, d := Index(CategoryOf(p)), Index(CategoryOf(q));
    TurnsAreIndices(CategoryOf(p), CategoryOf(q));
    var jp := PlaceInBucket(candidates, p);
    var jq := PlaceInBucket(candidates, q);
    MergeIsByPosition(buckets, c, jp);
    MergeIsByPosition(buckets, d, jq);
    i, k := Position(buckets, c, jp), Position(buckets, d, jq);
    if jp < jq || (jp == jq && c < d) {
      TurnsAreFair(buckets, c, jp, d, jq);
    } else {
      TurnsAreFair(buckets, d, jq, c, jp);
    }
  }

  // ----- everything together -----

  /** `item` is the file `p` as it is on disk: not empty, not over the limit, without NUL bytes, and UTF-8. */
  predicate ReadFrom(p: RelPath, disk: RelPath -> OnDisk, limits: Limits, item: SelectedFile) {
    && 0 < item.byteCount <= limits.fileBytes && disk(p) == Bytes(item.byteCount, false, Some(item.content))
    && item.path == Posix(p) && item.priority == Priority(p)
  }

  lemma CountsDistinct<T>(s: seq<T>, i: nat, j: nat)
    requires i < j < |s| && multiset(s)[s[i]] <= 1
    ensures s[i] != s[j]
  {
    var a, b := s[..j], s[j..];
    assert s == a + b;
    assert a[i] == s[i] && b[0] == s[j];
    assert multiset(s) == multiset(a) + multiset(b);
    assert multiset(a)[s[i]] >= 1 && multiset(b)[s[j]] >= 1;
  }

  lemma RankedDistinct(candidates: seq<RelPath>)
    requires Distinct(candidates)
    ensures Distinct(Ranked(candidates))
  {
    hide Ranked;
    RankedIsPermutation(candidates);
    var ranked := Ranked(candidates);
    forall i, j | 0 <= i < j < |ranked| ensures ranked[i] != ranked[j] {
      DistinctCounts(candidates, ranked[i]);
      CountsDistinct(ranked, i, j);
    }
  }

  /**
   What is selected: candidates as they are on disk, none twice, within both budgets; and while there is room
   for files, every readable candidate left out would exceed the characters even if added at the end.
   */
  lemma SelectionLaws(candidates: seq<RelPath>, disk: RelPath -> OnDisk, limits: Limits)
    requires Distinct(candidates)
    ensures var selected := Select(candidates, disk, limits);
      && (selected != [] ==> |selected| <= limits.files && Chars(selected) <= limits.chars)
      && (forall item :: item in selected ==> exists p :: p in candidates && ReadFrom(p, disk, limits, item))
      && (forall i, j :: 0 <= i < j < |selected| ==> selected[i].path != selected[j].path)
      && (|selected| < limits.files ==> forall p, item ::
            p in candidates && ReadFrom(p, disk, limits, item) ==>
              item in selected || Chars(selected) + |item.content| > limits.chars)
  {
    hide CategoryOf, PathLess, ReadTextFile, Ranked, Chars, Posix, Priority, Chosen;
    var ranked, selected := Ranked(candidates), Select(candidates, disk, limits);
    RankedIsPermutation(candidates);
    RankedDistinct(candidates);
    ChosenWithinBudget(ranked, disk, limits);
    var at := ChosenInOrder(ranked, disk, limits);
    forall item | item in selected ensures exists p :: p in candidates && ReadFrom(p, disk, limits, item) {
      var i :| 0 <= i < |selected| && selected[i] == item;
      SameMembers(ranked, candidates, ranked[at[i]]);
      ReadableExactly(disk(ranked[at[i]]), limits.fileBytes, Readable(item.content, item.byteCount));
      assert ReadFrom(ranked[at[i]], disk, limits, item);
    }
    forall i, j | 0 <= i < j < |selected| ensures selected[i].path != selected[j].path {
      PosixInjective(ranked[at[i]], ranked[at[j]]);
    }
    if |selected| < limits.files {
      forall p, item | p in candidates && ReadFrom(p, disk, limits, item)
        ensures item in selected || Chars(selected) + |item.content| > limits.chars
      {
        ReadableExactly(disk(p), limits.fileBytes, Readable(item.content, item.byteCount));
        SameMembers(ranked, candidates, p);
        var k :| 0 <= k < |ranked| && ranked[k] == p;
        ChosenIsMaximal(ranked, disk, limits, k);
      }
    }
  }
}
