/**
 Dealing out queues in turn, one item from each that still has one (llm_test_generation/generate_tests.py:249-254).
 */
module RoundRobin {
  predicate AllEmpty<T>(queues: seq<seq<T>>) { forall d :: 0 <= d < |queues| ==> |queues[d]| == 0 }

  function Head<T>(q: seq<T>): seq<T> { if q == [] then [] else [q[0]] }

  function Tail<T>(q: seq<T>): seq<T> { if q == [] then [] else q[1..] }

  /** One round. */
  function Heads<T>(queues: seq<seq<T>>): seq<T> {
    if queues == [] then [] else Head(queues[0]) + Heads(queues[1..])
  }

  function Tails<T>(queues: seq<seq<T>>): seq<seq<T>> {
    seq(|queues|, d requires 0 <= d < |queues| => Tail(queues[d]))
  }

  function Total<T>(queues: seq<seq<T>>): nat {
    if queues == [] then 0 else |queues[0]| + Total(queues[1..])
  }

  lemma TailsStep<T>(queues: seq<seq<T>>)
    requires queues != []
    ensures Tails(queues) != [] && Tails(queues)[0] == Tail(queues[0]) && Tails(queues)[1..] == Tails(queues[1..])
  {
  }

  lemma {:induction false} RoundShrinks<T>(queues: seq<seq<T>>)
    ensures Total(queues) == |Heads(queues)| + Total(Tails(queues))
    ensures !AllEmpty(queues) ==> Heads(queues) != []
    decreases |queues|
  {
    if queues != [] {
      TailsStep(queues);
      RoundShrinks(queues[1..]);
      assert AllEmpty(queues[1..]) && |queues[0]| == 0 ==> AllEmpty(queues);
    }
  }

  function Merge<T>(queues: seq<seq<T>>): seq<T>
    decreases Total(queues)
  {
    if AllEmpty(queues) then []
    else
      RoundShrinks(queues);
      Heads(queues) + Merge(Tails(queues))
  }

  // ----- the loop -----

  lemma HeadsNone<T>()
    ensures Heads<T>([]) == []
  {
  }

  lemma {:induction false} HeadsSnoc<T>(queues: seq<seq<T>>, c: nat)
    requires c < |queues|
    ensures Heads(queues[..c + 1]) == Heads(queues[..c]) + Head(queues[c])
    decreases c
  {
    if c == 0 {
      assert queues[..1][1..] == [];
    } else {
      HeadsSnoc(queues[1..], c - 1);
      assert queues[..c + 1][1..] == queues[1..][..c] && queues[..c][1..] == queues[1..][..c - 1];
    }
  }

  /** Its inner loop: one item from each queue that has one. */
  method DealOnce<T>(queues: seq<seq<T>>, ranked: seq<T>) returns (buckets: seq<seq<T>>, more: seq<T>)
    ensures buckets == Tails(queues) && more == ranked + Heads(queues)
  {
    hide Heads;
    buckets, more := queues, ranked;
    var c := 0;
    HeadsNone<T>();
    while c < |buckets|
      invariant c <= |buckets| == |queues|
      invariant more == ranked + Heads(queues[..c])
      invariant forall d :: 0 <= d < c ==> buckets[d] == Tail(queues[d])
      invariant forall d :: c <= d < |queues| ==> buckets[d] == queues[d]
    {
      HeadsSnoc(queues, c);
      if |buckets[c]| != 0 {
        more := more + [buckets[c][0]];
        buckets := buckets[c := buckets[c][1..]];
      }
      c := c + 1;
    }
    assert queues[..c] == queues && buckets == Tails(queues);
  }

  /** The loop of `select_project_files` that empties the queues. */
  method Deal<T>(queues: seq<seq<T>>) returns (ranked: seq<T>)
    ensures ranked == Merge(queues)
  {
    hide Heads, Tails;
    var buckets := queues;
    ranked := [];
    while !AllEmpty(buckets)
      invariant ranked + Merge(buckets) == Merge(queues)
      decreases Total(buckets)
    {
      RoundShrinks(buckets);
      buckets, ranked := DealOnce(buckets, ranked);
    }
  }

  // ----- nothing is lost or invented -----

  function Contents<T>(queues: seq<seq<T>>): multiset<T> {
    if queues == [] then multiset{} else multiset(queues[0]) + Contents(queues[1..])
  }

  lemma {:induction false} RoundKeepsContents<T>(queues: seq<seq<T>>)
    ensures multiset(Heads(queues)) + Contents(Tails(queues)) == Contents(queues)
    decreases |queues|
  {
    if queues != [] {
      TailsStep(queues);
      RoundKeepsContents(queues[1..]);
      var q := queues[0];
      assert q == Head(q) + Tail(q);
      assert multiset(Head(q) + Heads(queues[1..])) == multiset(Head(q)) + multiset(Heads(queues[1..]));
    }
  }

  lemma {:induction false} EmptyContents<T>(queues: seq<seq<T>>)
    requires AllEmpty(queues)
    ensures Contents(queues) == multiset{} && Total(queues) == 0
    decreases |queues|
  {
    if queues != [] {
      assert |queues[0]| == 0;
      EmptyContents(queues[1..]);
    }
  }

  lemma {:induction false} MergeKeepsContents<T>(queues: seq<seq<T>>)
    ensures multiset(Merge(queues)) == Contents(queues) && |Merge(queues)| == Total(queues)
    decreases Total(queues)
  {
    if AllEmpty(queues) {
      EmptyContents(queues);
    } else {
      RoundShrinks(queues);
      MergeKeepsContents(Tails(queues));
      RoundKeepsContents(queues);
      assert multiset(Heads(queues) + Merge(Tails(queues))) == multiset(Heads(queues)) + multiset(Merge(Tails(queues)));
    }
  }

  // ----- where each item lands -----

  function Min(a: nat, b: nat): nat { if a < b then a else b }

  /** How many items the queues give in their first `rounds` turns. */
  function Dealt<T>(queues: seq<seq<T>>, rounds: nat): nat {
    if queues == [] then 0 else Min(|queues[0]|, rounds) + Dealt(queues[1..], rounds)
  }

  /** Queues before `c` have had one turn more than those after it when item `j` of queue `c` is dealt. */
  function Position<T>(queues: seq<seq<T>>, c: nat, j: nat): nat
    requires c < |queues|
  {
    Dealt(queues[..c], j + 1) + j + Dealt(queues[c + 1..], j)
  }

  lemma {:induction false} DealtRound<T>(queues: seq<seq<T>>, rounds: nat)
    ensures Dealt(queues, rounds + 1) == |Heads(queues)| + Dealt(Tails(queues), rounds)
    decreases |queues|
  {
    if queues != [] {
      TailsStep(queues);
      DealtRound(queues[1..], rounds);
    }
  }

  lemma {:induction false} DealtNone<T>(queues: seq<seq<T>>)
    ensures Dealt(queues, 0) == 0
    decreases |queues|
  {
    if queues != [] { DealtNone(queues[1..]); }
  }

  lemma Regroup<T>(a: seq<T>, b: seq<T>, c: seq<T>, d: seq<T>)
    ensures a + (b + c + d) == (a + b) + c + d
  {
  }

  lemma {:induction false} HeadsSplit<T>(queues: seq<seq<T>>, c: nat)
    requires c < |queues|
    ensures Heads(queues) == Heads(queues[..c]) + Head(queues[c]) + Heads(queues[c + 1..])
    decreases c
  {
    if c == 0 {
      assert queues[..0] == [];
    } else {
      HeadsSplit(queues[1..], c - 1);
      assert queues[..c][1..] == queues[1..][..c - 1] && queues[1..][c..] == queues[c + 1..];
      Regroup(Head(queues[0]), Heads(queues[1..][..c - 1]), Head(queues[c]), Heads(queues[c + 1..]));
    }
  }

  lemma TailAt<T>(queues: seq<seq<T>>, c: nat)
    requires c < |queues|
    ensures c < |Tails(queues)| && Tails(queues)[c] == Tail(queues[c])
    ensures Tails(queues[..c]) == Tails(queues)[..c] && Tails(queues[c + 1..]) == Tails(queues)[c + 1..]
  {
  }

  /** In the first round, item 0 of queue `c` is at its place among the heads; the others wait a round. */
  lemma {:induction false} RoundSplits<T>(queues: seq<seq<T>>, c: nat, j: nat)
    requires c < |queues| && j < |queues[c]|
    ensures j == 0 ==> Position(queues, c, j) < |Heads(queues)| && Heads(queues)[Position(queues, c, j)] == queues[c][0]
    ensures j > 0 ==>
        c < |Tails(queues)| && Position(queues, c, j) == |Heads(queues)| + Position(Tails(queues), c, j - 1)
  {
    hide Heads, Tails, Dealt;
    HeadsSplit(queues, c);
    TailAt(queues, c);
    DealtRound(queues[..c], j);
    if j == 0 {
      DealtNone(Tails(queues[..c]));
      DealtNone(queues[c + 1..]);
    } else {
      DealtRound(queues[c + 1..], j - 1);
    }
  }

  /** The closed form of the loop: item `j` of queue `c` lands at its `Position`. */
  lemma {:induction false} MergeIsByPosition<T>(queues: seq<seq<T>>, c: nat, j: nat)
    requires c < |queues| && j < |queues[c]|
    ensures Position(queues, c, j) < |Merge(queues)| && Merge(queues)[Position(queues, c, j)] == queues[c][j]
    decreases j
  {
    hide Heads, Tails, Dealt;
    assert !AllEmpty(queues);
    RoundShrinks(queues);
    RoundSplits(queues, c, j);
    var heads, rest := Heads(queues), Tails(queues);
    if j > 0 {
      assert rest[c] == queues[c][1..] by { TailAt(queues, c); }
      MergeIsByPosition(rest, c, j - 1);
    }
  }

  lemma {:induction false} DealtBound<T>(queues: seq<seq<T>>, rounds: nat)
    ensures Dealt(queues, rounds) <= |queues| * rounds
    decreases |queues|
  {
    if queues != [] {
      DealtBound(queues[1..], rounds);
      assert |queues| * rounds == rounds + |queues[1..]| * rounds;
    }
  }

  /** So the first item of every queue comes within one place a queue. */
  lemma {:induction false} FirstItemsLead<T>(queues: seq<seq<T>>, c: nat)
    requires c < |queues| && queues[c] != []
    ensures queues[c][0] in Merge(queues)[..Min(|queues|, |Merge(queues)|)]
  {
    MergeIsByPosition(queues, c, 0);
    DealtNone(queues[c + 1..]);
    DealtBound(queues[..c], 1);
    var p := Position(queues, c, 0);
    assert Merge(queues)[..Min(|queues|, |Merge(queues)|)][p] == queues[c][0];
  }

  lemma {:induction false} DealtAppend<T>(a: seq<seq<T>>, b: seq<seq<T>>, rounds: nat)
    ensures Dealt(a + b, rounds) == Dealt(a, rounds) + Dealt(b, rounds)
    decreases |a|
  {
    if a == [] {
      assert a + b == b;
    } else {
      assert (a + b)[1..] == a[1..] + b;
      DealtAppend(a[1..], b, rounds);
    }
  }

  lemma {:induction false} DealtGrows<T>(queues: seq<seq<T>>, j: nat, k: nat)
    requires j <= k
    ensures Dealt(queues, j) <= Dealt(queues, k)
    decreases |queues|
  {
    if queues != [] { DealtGrows(queues[1..], j, k); }
  }

  lemma DealtSplit<T>(queues: seq<seq<T>>, c: nat, rounds: nat)
    requires c < |queues|
    ensures Dealt(queues, rounds) == Dealt(queues[..c], rounds) + Min(|queues[c]|, rounds)
        + Dealt(queues[c + 1..], rounds)
  {
    assert queues == queues[..c] + queues[c..] && queues[c..][1..] == queues[c + 1..];
    DealtAppend(queues[..c], queues[c..], rounds);
    assert Dealt(queues[c..], rounds) == Min(|queues[c]|, rounds) + Dealt(queues[c + 1..], rounds);
  }

  /** Item `j` of any queue is dealt in round `j`. */
  lemma PositionInRound<T>(queues: seq<seq<T>>, c: nat, j: nat)
    requires c < |queues| && j < |queues[c]|
    ensures Dealt(queues, j) <= Position(queues, c, j) < Dealt(queues, j + 1)
  {
    hide Dealt;
    DealtSplit(queues, c, j);
    DealtSplit(queues, c, j + 1);
    DealtGrows(queues[..c], j, j + 1);
    DealtGrows(queues[c + 1..], j, j + 1);
  }

  /** Turns are fair: an item comes before every later-numbered one of any queue, and before equals of later queues. */
  lemma TurnsAreFair<T>(queues: seq<seq<T>>, c: nat, j: nat, d: nat, k: nat)
    requires c < |queues| && j < |queues[c]| && d < |queues| && k < |queues[d]|
    requires j < k || (j == k && c < d)
    ensures Position(queues, c, j) < Position(queues, d, k)
  {
    hide Dealt;
    if j < k {
      PositionInRound(queues, c, j);
      PositionInRound(queues, d, k);
      DealtGrows(queues, j + 1, k);
    } else {
      DealtSplit(queues[..d], c, j + 1);
      DealtSplit(queues[c + 1..], d - c - 1, j);
      assert queues[..d][..c] == queues[..c] && queues[c + 1..][d - c..] == queues[d + 1..];
      assert queues[..d][c + 1..] == queues[c + 1..][..d - c - 1];
      DealtGrows(queues[..d][c + 1..], j, j + 1);
    }
  }
}
