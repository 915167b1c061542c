/** The "fx" queue: `k.queue`, `k.dequeue`, `k._queueHooks` and `k.fn.queue` (Mypintool/doc/html/jquery.js, line 2). */
module FxQueue {
  import opened Optional

  /** Items are numbered as they are enqueued. */
  datatype Slot = Item(id: nat) | InProgress

  /**
   `stored` and `hooks` are the two data entries of the element; `enqueued` counts items ever enqueued, and
   the logs record items as they start and as they first call their `next`.
   */
  datatype State = State(stored: Option<seq<Slot>>, hooks: bool, enqueued: nat, started: seq<nat>, finished: seq<nat>)

  const EMPTY := State(None, false, 0, [], [])

  /** `k.queue(e, "fx")`: the stored array, or a new one when there is none. */
  function Current(s: State): seq<Slot> {
    if s.stored.Some? then s.stored.value else []
  }

  /**
   `k.dequeue(e, "fx")`. When an item starts, its call is the last thing `dequeue` does, so whatever the item
   does then comes after this step. `empty.fire()` removes both data entries.
   */
  function Dequeue(s: State): State {
    var queue := Current(s);
    var rest := if queue != [] && queue[0] == InProgress then queue[1..] else queue;
    if rest == [] then s.(stored := None, hooks := false)
    else if rest[0].InProgress? then s   // the source would fail here; no run gets two sentinels
    else s.(stored := if s.stored.Some? then Some([InProgress] + rest[1..]) else None, hooks := true,
            started := s.started + [rest[0].id])
  }

  /** `this.queue(...)`: enqueue or replace, create the hooks, and start unless something is in progress. */
  function AutoStart(s: State): State {
    var r := s.(hooks := true);
    if Current(r) != [] && Current(r)[0] == InProgress then r else Dequeue(r)
  }

  function Enqueue(s: State): State {
    AutoStart(s.(stored := Some(Current(s) + [Item(s.enqueued)]), enqueued := s.enqueued + 1))
  }

  /** The `next` function of item `id` is called. */
  function Next(s: State, id: nat): State {
    Dequeue(if id in s.finished then s else s.(finished := s.finished + [id]))
  }

  /** `queue([...])` with an array of `n` new items replaces what is stored; `clearQueue` passes an empty one. */
  function Replace(s: State, n: nat): State {
    AutoStart(s.(stored := Some(seq(n, j requires 0 <= j => Item(s.enqueued + j))), enqueued := s.enqueued + n))
  }

  // ----- one at a time -----

  function Numbers(n: nat): seq<nat> {
    seq(n, j requires 0 <= j => j)
  }

  predicate Running(s: State) { |s.finished| < |s.started| }

  function Waiting(s: State): seq<Slot>
    requires |s.started| <= s.enqueued
  {
    seq(s.enqueued - |s.started|, j requires 0 <= j => Item(|s.started| + j))
  }

  /**
   Items have started in enqueue order, each once; each has finished before the next one started; the
   sentinel is at the head exactly while one runs; what waits is exactly what has not started; and the element
   carries data exactly while one runs.
   */
  predicate Serial(s: State) {
    && |s.started| <= s.enqueued
    && s.started == Numbers(|s.started|)
    && |s.finished| <= |s.started| <= |s.finished| + 1
    && s.finished == Numbers(|s.finished|)
    && (s.hooks <==> Running(s))
    && (if Running(s)
        then s.stored == Some([InProgress] + Waiting(s))
        else s.stored == None && |s.started| == s.enqueued)
  }

  lemma EnqueueKeepsSerial(s: State)
    requires Serial(s)
    ensures Serial(Enqueue(s)) && Enqueue(s).finished == s.finished
    ensures Enqueue(s).started == if Running(s) then s.started else s.started + [s.enqueued]
  {
    if Running(s) {
      assert [InProgress] + Waiting(s) + [Item(s.enqueued)] == [InProgress] + Waiting(Enqueue(s));
    } else {
      var r := Enqueue(s);
      assert Current(s) + [Item(s.enqueued)] == [Item(s.enqueued)];
      assert r.started == s.started + [s.enqueued] == Numbers(s.enqueued + 1);
      assert r.stored.value == [InProgress] + [Item(s.enqueued)][1..] == [InProgress] + Waiting(r);
    }
  }

  lemma NextKeepsSerial(s: State)
    requires Serial(s) && Running(s)
    ensures var r := Next(s, |s.started| - 1);
      && Serial(r) && r.finished == s.started
      && r.started == if |s.started| < s.enqueued then s.started + [|s.started|] else s.started
  {
    var r := Next(s, |s.started| - 1);
    assert s.finished + [|s.started| - 1] == s.started;
    assert ([InProgress] + Waiting(s))[1..] == Waiting(s);
    if |s.started| < s.enqueued {
      assert Waiting(s)[0] == Item(|s.started|);
      assert r.started == Numbers(|s.started| + 1);
      assert Waiting(s)[1..] == Waiting(r);
    }
  }

  /** A `next` that is not the running item's keeps items apart exactly when none is running. */
  lemma StaleNext(s: State, id: nat)
    requires Serial(s) && id < |s.started| && !(Running(s) && id == |s.started| - 1)
    ensures Serial(Next(s, id)) <==> !Running(s)
  {
    assert s.started[id] == id && id in s.finished by { assert s.finished[id] == id; }
    if Running(s) {
      var r := Next(s, id);
      assert ([InProgress] + Waiting(s))[1..] == Waiting(s);
      if |s.started| < s.enqueued {
        assert Waiting(s)[0] == Item(|s.started|);
        assert |r.started| == |r.finished| + 2;
      }
    }
  }

  /** Replacing the queue keeps items apart exactly when none is running. */
  lemma ReplaceOnlyAtRest(s: State, n: nat)
    requires Serial(s)
    ensures Serial(Replace(s, n)) <==> !Running(s)
  {
    var items: seq<Slot> := seq(n, j requires 0 <= j => Item(s.enqueued + j));
    var r := Replace(s, n);
    if n > 0 {
      assert items[0] == Item(s.enqueued);
      assert r.started == s.started + [s.enqueued];
      if !Running(s) {
        assert r.started == Numbers(s.enqueued + 1);
        assert [InProgress] + items[1..] == [InProgress] + Waiting(r);
      }
    } else {
      assert items == [];
    }
  }

  // ----- whole runs -----

  datatype Move = Enqueued | Called(id: nat)

  function Step(s: State, m: Move): State {
    match m
    case Enqueued => Enqueue(s)
    case Called(id) => Next(s, id)
  }

  function Run(moves: seq<Move>): State {
    if moves == [] then EMPTY else Step(Run(moves[..|moves| - 1]), moves[|moves| - 1])
  }

  /** Only items that have started call their `next`, and each calls it at most once. */
  predicate EachCallsOnce(moves: seq<Move>) {
    moves == [] ||
    (var s := Run(moves[..|moves| - 1]);
     var m := moves[|moves| - 1];
     EachCallsOnce(moves[..|moves| - 1]) && (m.Called? ==> m.id in s.started && m.id !in s.finished))
  }

  function Enqueues(moves: seq<Move>): nat {
    if moves == [] then 0 else Enqueues(moves[..|moves| - 1]) + if moves[|moves| - 1].Enqueued? then 1 else 0
  }

  function Calls(moves: seq<Move>): seq<nat> {
    if moves == [] then []
    else Calls(moves[..|moves| - 1]) + if moves[|moves| - 1].Called? then [moves[|moves| - 1].id] else []
  }

  lemma NotAmong(n: nat, id: nat)
    ensures id < n ==> id in Numbers(n)
  {
    if id < n { assert Numbers(n)[id] == id; }
  }

  lemma {:induction false} RunIsSerial(moves: seq<Move>)
    requires EachCallsOnce(moves)
    ensures Serial(Run(moves)) && Run(moves).enqueued == Enqueues(moves) && Run(moves).finished == Calls(moves)
    decreases |moves|
  {
    if moves != [] {
      RunIsSerial(moves[..|moves| - 1]);
      var s := Run(moves[..|moves| - 1]);
      match moves[|moves| - 1]
      case Enqueued => EnqueueKeepsSerial(s);
      case Called(id) =>
        NotAmong(|s.finished|, id);
        NextKeepsSerial(s);
    }
  }

  /**
   In every run where each item calls its `next` at most once: items start in enqueue order, each once; an
   item starts only after the one before it has called `next`; and when no item is running all have started, and
   the element's data are gone.
   */
  lemma {:induction false} ItemsRunOneByOne(moves: seq<Move>)
    requires EachCallsOnce(moves)
    ensures var s := Run(moves);
      && s.started == Numbers(|s.started|) && |s.started| <= Enqueues(moves)
      && (forall k: nat :: k + 1 < |s.started| ==> k in Calls(moves))
      && (|Calls(moves)| == |s.started| ==> |s.started| == Enqueues(moves) && s.stored == None && !s.hooks)
  {
    RunIsSerial(moves);
    var s := Run(moves);
    forall k: nat | k + 1 < |s.started| ensures k in Calls(moves) {
      assert s.finished[k] == k;
    }
  }

  /** In such runs the sentinel is in the stored array at most once, and only at its head. */
  lemma {:induction false} SentinelAtHead(moves: seq<Move>, j: nat)
    requires EachCallsOnce(moves) && j < |Current(Run(moves))| && Current(Run(moves))[j] == InProgress
    ensures j == 0 && Running(Run(moves))
  {
    RunIsSerial(moves);
  }

  lemma EnqueueSteps()
    ensures Enqueue(EMPTY) == State(Some([InProgress]), true, 1, [0], [])
    ensures Enqueue(State(Some([InProgress]), true, 1, [0], [])) == State(Some([InProgress, Item(1)]), true, 2, [0], [])
    ensures Enqueue(State(Some([InProgress, Item(1)]), true, 2, [0], []))
         == State(Some([InProgress, Item(1), Item(2)]), true, 3, [0], [])
  {
    assert [] + [Item(0)] == [Item(0)] && [InProgress] + [Item(0)][1..] == [InProgress];
    assert [InProgress] + [Item(1)] == [InProgress, Item(1)];
    assert [InProgress, Item(1)] + [Item(2)] == [InProgress, Item(1), Item(2)];
  }

  lemma NextSteps()
    ensures Next(State(Some([InProgress, Item(1), Item(2)]), true, 3, [0], []), 0)
         == State(Some([InProgress, Item(2)]), true, 3, [0, 1], [0])
    ensures Next(State(Some([InProgress, Item(2)]), true, 3, [0, 1], [0]), 0)
         == State(Some([InProgress]), true, 3, [0, 1, 2], [0])
  {
    var a, b := [InProgress, Item(1), Item(2)], [InProgress, Item(2)];
    assert a[1..] == [Item(1), Item(2)] && [InProgress] + a[1..][1..] == b;
    assert b[1..] == [Item(2)] && [InProgress] + b[1..][1..] == [InProgress];
    assert [0] + [1] == [0, 1] && [0, 1] + [2] == [0, 1, 2] && [] + [0] == [0];
  }

  /** Calling `next` twice lets two items run at once. */
  lemma SecondNextOverlaps()
    ensures var s := Next(Next(Enqueue(Enqueue(Enqueue(EMPTY))), 0), 0);
      s.started == [0, 1, 2] && s.finished == [0]
  {
    hide Enqueue, Next;
    EnqueueSteps();
    NextSteps();
  }

  // ----- the source's form -----

  class Queue {
    var stored: Option<seq<Slot>>
    var hooks: bool
    var enqueued: nat
    ghost var started: seq<nat>
    ghost var finished: seq<nat>

    ghost function Abs(): State reads this {
      State(stored, hooks, enqueued, started, finished)
    }

    constructor ()
      ensures Abs() == EMPTY
    {
      stored, hooks, enqueued, started, finished := None, false, 0, [], [];
    }

    /** `k.queue(e, "fx")` */
    method Items() returns (queue: seq<Slot>)
      ensures queue == Current(Abs())
    {
      queue := if stored.Some? then stored.value else [];
    }

    /** `k.dequeue(e, "fx")`; returns the item it calls. */
    method DequeueItem() returns (called: Option<nat>)
      requires forall j :: 0 < j < |Current(Abs())| ==> Current(Abs())[j].Item?
      modifies this
      ensures Abs() == Dequeue(old(Abs()))
      ensures started == old(started) + (if called.Some? then [called.value] else [])
    {
      var queue := Items();
      var left := |queue|;
      var item: Option<Slot> := None;
      if queue != [] { item, queue := Some(queue[0]), queue[1..]; }
      hooks := true;
      if item == Some(InProgress) {
        item := None;
        if queue != [] { item, queue := Some(queue[0]), queue[1..]; }
        left := left - 1;
      }
      called := None;
      if item.Some? {
        queue := [InProgress] + queue;
        called := Some(item.value.id);
        started := started + [item.value.id];
      }
      if stored.Some? { stored := Some(queue); }
      if left == 0 { stored, hooks := None, false; }
    }

    /** `this.queue(item)` */
    method Add() returns (called: Option<nat>)
      requires Serial(Abs())
      modifies this
      ensures Abs() == Enqueue(old(Abs())) && Serial(Abs())
      ensures called == if Running(old(Abs())) then None else Some(old(enqueued))
    {
      EnqueueKeepsSerial(Abs());
      var queue := Items();
      stored := Some(queue + [Item(enqueued)]);
      enqueued := enqueued + 1;
      hooks := true;
      called := None;
      if stored.value[0] != InProgress { called := DequeueItem(); }
      assert called.Some? ==> started[|old(started)|] == called.value;
    }

    /** The running item calls its `next`. */
    method CallNext() returns (called: Option<nat>)
      requires Serial(Abs()) && Running(Abs())
      modifies this
      ensures Abs() == Next(old(Abs()), |old(started)| - 1) && Serial(Abs()) && finished == old(started)
      ensures called == if |old(started)| < old(enqueued) then Some(|old(started)|) else None
    {
      NextKeepsSerial(Abs());
      finished := finished + [|started| - 1];
      called := DequeueItem();
      assert called.Some? ==> started[|old(started)|] == called.value;
    }
  }
}
