/**
 `k.Callbacks` in the form of the source: an object whose methods update its fields and call callbacks,
 which call the methods again. What callbacks will do is a finite script on the side; every method is proved
 to move the object exactly as the state machine of `CallbackList` moves, nested calls included.
 */
module CallbackObject {
  import opened Optional
  import opened Values
  import opened CallbackList
  import opened CallbackRuns
  import opened CallbackLate

  /** What running callbacks do: call the API of this list, and return false or anything else. */
  datatype Action = Do(call: ApiCall) | Return(isFalse: bool)
  datatype ApiCall =
    | CallAdd(fns: seq<Fn>) | CallRemove(fns: seq<Fn>) | CallEmpty | CallDisable | CallLock | CallFire(args: Args)

  lemma TurnEndsPass(l: List)
    requires Ok(l) && l.firing && !Calls(l)
    ensures Step(l, Turn) == Resume(Reset(l))
  {
  }

  lemma FalseEndsPass(l: List)
    requires Ok(l) && l.firing && l.opts.stopOnFalse
    ensures Step(l, ReturnFalse) == Resume(Reset(l.(memory := None)))
  {
  }

  lemma {:induction false} RemoveFromSkips(l: List, fn: Fn, n: nat, m: nat)
    requires n <= m <= |l.items|
    requires forall j :: n <= j < m ==> l.items[j].fn != fn
    ensures RemoveFrom(l, fn, n) == RemoveFrom(l, fn, m)
    decreases m - n
  {
    if n < m { RemoveFromSkips(l, fn, n + 1, m); }
  }

  lemma NewOk(opts: Options)
    ensures Ok(New(opts))
  {
  }

  lemma NoTurns(enter: Move)
    ensures [enter] + Turns(0) == [enter]
  {
  }

  lemma OneMoreTurn(done: seq<Move>, turns: nat)
    ensures done + Turns(turns) + [Turn] == done + Turns(turns + 1)
  {
  }

  lemma TurnsAfter(done: seq<Move>, enter: Move, turns: nat, more: nat)
    ensures done + ([enter] + Turns(turns)) + Turns(more) + [Turn] == done + ([enter] + Turns(turns + more + 1))
  {
    assert Turns(turns + more + 1) == Turns(turns) + Turns(more) + [Turn];
  }

  class Callbacks {
    const opts: Options
    var firing: bool
    var memory: Option<Args>
    var fired: bool
    var locked: bool
    var enabled: bool
    var items: seq<Entry>
    var queue: seq<Args>
    var index: int
    var additions: nat          // labels entries; no branch reads it
    var script: seq<Action>     // what the callbacks still to run will do, in order
    ghost var log: Log
    ghost var done: seq<Move>   // the moves made so far

    ghost function State(): List reads this {
      List(opts, firing, memory, fired, locked, enabled, items, queue, index, log)
    }

    /** The fields are those of the state machine after the moves made so far. */
    ghost predicate Valid() reads this {
      Run(New(opts), done) == State() && additions == |log.added|
    }

    constructor (opts: Options, script: seq<Action>)
      ensures Valid() && done == [] && this.opts == opts && this.script == script
    {
      this.opts := opts;
      firing, memory, fired, locked, enabled := false, None, false, false, true;
      items, queue, index := [], [], -1;
      this.script, additions := script, 0;
      log := Log([], [], [], [], 0, 0);
      done := [];
    }

    /** The fields have made move `m`: add it to the history. */
    ghost method Commit(m: Move)
      requires State() == Step(Run(New(opts), done), m) && additions == |log.added|
      modifies `done
      ensures Valid() && done == old(done) + [m]
    {
      RunSnoc(New(opts), done, m);
      done := done + [m];
    }

    /** `k.inArray(fn, s, from)` */
    method IndexOf(fn: Fn, from: nat) returns (n: int)
      requires from <= |items|
      ensures n == -1 || from <= n < |items|
      ensures n == -1 ==> forall j :: from <= j < |items| ==> items[j].fn != fn
      ensures n != -1 ==> items[n].fn == fn && forall j :: from <= j < n ==> items[j].fn != fn
    {
      n := from;
      while n < |items|
        invariant from <= n <= |items|
        invariant forall j :: from <= j < n ==> items[j].fn != fn
      {
        if items[n].fn == fn { return; }
        n := n + 1;
      }
      n := -1;
    }

    method Includes(fn: Fn) returns (found: bool)
      ensures found == Has(items, fn)
    {
      var n := IndexOf(fn, 0);
      found := n > -1;
    }

    method Push(fns: seq<Fn>)
      requires additions == |log.added|
      modifies `items, `additions, `log
      ensures State() == PushAll(old(State()), fns) && additions == |log.added|
    {
      var k := 0;
      while k < |fns|
        invariant k <= |fns| && additions == |log.added|
        invariant PushAll(State(), fns[k..]) == PushAll(old(State()), fns)
      {
        var fn := fns[k];
        assert fns[k..][1..] == fns[k + 1..];
        var known := false;
        if opts.unique { known := Includes(fn); }
        if !known { PushSingle(fn); }
        k := k + 1;
      }
    }

    method PushSingle(fn: Fn)
      requires additions == |log.added|
      modifies `items, `additions, `log
      ensures State() == PushOne(old(State()), fn) && additions == |log.added|
    {
      items := items + [Entry(fn, additions)];
      additions := additions + 1;
      log := log.(added := log.added + [fn]);
    }

    /** At rest after a fire that the list still remembers. */
    ghost predicate Remembering() reads this {
      opts.memory && enabled && !firing && log.started != [] && NeverForgets(opts, done)
    }

    lemma HasMemory()
      requires Valid() && Remembering()
      ensures memory.Some?
    {
      hide Run, New;
      MemoryIsLastStarted(opts, done);
    }

    lemma QuietAdd(before: seq<Move>, fns: seq<Fn>, turns: nat)
      requires Valid() && !firing && done == before + ([Move.Add(fns)] + Turns(turns))
      requires var l := Run(New(opts), before);
        opts.memory && l.enabled && !l.firing && l.log.started != [] && NeverForgets(opts, before)
      ensures var l := Run(New(opts), before);
        var g, n := l.log, |l.log.started|;
        && g.added <= log.added && TakenOf(fns, opts.unique, l.items, log.added[|g.added|..])
        && log.calls == g.calls + CallsFrom(log.added, |g.added|, g.started[n - 1], n)
    {
      hide Run, New, Ok, TakenOf, Turns;
      NewOk(opts);
      RunOn(New(opts), before, [Move.Add(fns)] + Turns(turns));
      LateAddIsCalled(opts, before, fns, turns);
    }

    method Add(fns: seq<Fn>)
      requires Valid()
      modifies this
      ensures Valid() && firing == old(firing) && |script| <= |old(script)|
      ensures old(done) + [Move.Add(fns)] <= done
      ensures old(firing) ==> done == old(done) + [Move.Add(fns)]
      ensures old(script) == [] && old(Remembering()) ==>
        var l, n := old(log), |old(log).started|;
        && l.added <= log.added && TakenOf(fns, opts.unique, old(items), log.added[|l.added|..])
        && log.calls == l.calls + CallsFrom(log.added, |l.added|, l.started[n - 1], n)
      decreases |script|, 2
    {
      hide Run, New, DoRemove, DoFire, DoTurn, EndPass, DoLock, DoDisable, PushAll;
      hide TakenOf, CallsFrom, Turns, NeverForgets;
      if Remembering() { HasMemory(); }
      if enabled {
        var refire := memory.Some? && !firing;
        if refire {
          index := |items| - 1;
          queue := queue + [memory.value];
          log := log.(from := |log.added|, accepted := log.accepted + [memory.value]);
          assert State() == Rewind(old(State()));
          PushAllKeepsQueue(State(), fns);
        } else {
          PushAllKeepsQueue(State(), fns);
        }
        Push(fns);
        if refire {
          ghost var turns := RunPasses(Move.Add(fns));
          if old(script) == [] && old(Remembering()) { QuietAdd(old(done), fns, turns); }
        } else {
          Commit(Move.Add(fns));
        }
      } else {
        Commit(Move.Add(fns));
      }
    }

    method Remove(fns: seq<Fn>)
      requires Valid()
      modifies this
      ensures Valid() && firing == old(firing) && script == old(script) && done == old(done) + [Move.Remove(fns)]
    {
      RemoveKeepsRest(State(), fns);
      RemoveEach(fns);
      Commit(Move.Remove(fns));
    }

    method RemoveEach(fns: seq<Fn>)
      modifies `items, `index, `log
      ensures State() == DoRemove(old(State()), fns)
    {
      var k := 0;
      while k < |fns|
        invariant k <= |fns|
        invariant DoRemove(State(), fns[k..]) == DoRemove(old(State()), fns)
      {
        assert fns[k..][1..] == fns[k + 1..];
        RemoveCopies(fns[k]);
        k := k + 1;
      }
    }

    /** `var n; while (-1 < (n = k.inArray(t, s, n))) s.splice(n, 1), n <= l && l--` */
    method RemoveCopies(fn: Fn)
      modifies `items, `index, `log
      ensures State() == RemoveFrom(old(State()), fn, 0)
    {
      var n := FindFrom(fn, 0);
      while n > -1
        invariant n == -1 || (0 <= n < |items| && items[n].fn == fn)
        invariant Remaining(fn, n) == RemoveFrom(old(State()), fn, 0)
        decreases |items|
      {
        Splice(n);
        n := FindFrom(fn, n);
      }
    }

    /** What is left of `RemoveFrom` when the next copy is at `n`. */
    ghost function Remaining(fn: Fn, n: int): List
      requires -1 <= n
      reads this
    {
      if n == -1 then State() else RemoveFrom(State(), fn, n)
    }

    method FindFrom(fn: Fn, from: nat) returns (n: int)
      requires from <= |items|
      ensures n == -1 || (from <= n < |items| && items[n].fn == fn)
      ensures Remaining(fn, n) == RemoveFrom(State(), fn, from)
    {
      n := IndexOf(fn, from);
      RemoveFromSkips(State(), fn, from, if n == -1 then |items| else n);
    }

    method Splice(n: nat)
      requires n < |items|
      modifies `items, `index, `log
      ensures State() == RemoveAt(old(State()), n)
    {
      log := log.(blind := if n < log.blind then log.blind - 1 else log.blind);
      items := items[..n] + items[n + 1..];
      if n <= index { index := index - 1; }
    }

    method Clear()
      requires Valid()
      modifies this
      ensures Valid() && firing == old(firing) && script == old(script) && done == old(done) + [Move.Empty]
    {
      if enabled {
        items := [];
        log := log.(blind := if index < 0 then 0 else index + 1);
      }
      Commit(Move.Empty);
    }

    method Disable()
      requires Valid()
      modifies this
      ensures Valid() && firing == old(firing) && script == old(script) && done == old(done) + [Move.Disable]
      ensures !enabled && locked
    {
      hide Run, New, DoAdd, DoRemove, DoFire, DoTurn, EndPass;
      locked, queue := true, [];
      enabled, items, memory := false, [], None;
      log := log.(accepted := log.started);
      Commit(Move.Disable);
    }

    method Lock()
      requires Valid()
      modifies this
      ensures Valid() && firing == old(firing) && script == old(script) && done == old(done) + [Move.Lock]
      ensures locked && (enabled == (old(enabled) && (old(memory).Some? || old(firing))))
    {
      hide Run, New, DoAdd, DoRemove, DoFire, DoTurn, EndPass;
      locked, queue := true, [];
      if !(memory.Some? || firing) {
        enabled, items, memory := false, [], None;
      }
      log := log.(accepted := log.started);
      Commit(Move.Lock);
    }

    method FireWith(args: Args)
      requires Valid()
      modifies this
      ensures Valid() && firing == old(firing) && |script| <= |old(script)|
      ensures old(done) + [Move.Fire(args)] <= done
      ensures old(firing) || old(locked) ==> done == old(done) + [Move.Fire(args)]
      decreases |script|, 2
    {
      if !locked {
        queue := queue + [args];
        log := log.(accepted := log.accepted + [args]);
        if !firing {
          ghost var turns := RunPasses(Move.Fire(args));
        } else {
          Commit(Move.Fire(args));
        }
      } else {
        Commit(Move.Fire(args));
      }
    }

    /**
     The private function `c()`. That it requires `!firing` is the proof that passes never nest: every call
     of it, from `Add` and `FireWith`, at any depth of callbacks calling the API, meets this.
     `enter` is the move that led here; it counts as made when the first pass starts.
     */
    method RunPasses(ghost enter: Move) returns (ghost turns: nat)
      requires !firing && queue != [] && additions == |log.added|
      requires Step(Run(New(opts), done), enter) == Enter(State())
      modifies this
      ensures Valid() && !firing && |script| <= |old(script)| && old(done) + [enter] <= done
      ensures old(script) == [] ==> done == old(done) + ([enter] + Turns(turns))
      decreases |script|, 1
    {
      NewOk(opts);
      hide Run, Step, New, Ok, Reset, Enter;
      StartFiring();
      ghost var next := enter;
      turns := 0;
      NoTurns(enter);
      while queue != []
        invariant firing && additions == |log.added| && |script| <= |old(script)|
        invariant Step(Run(New(opts), done), next) == Resume(State())
        invariant old(done) + [enter] <= done + [next]
        invariant old(script) == [] ==> script == [] && done + [next] == old(done) + ([enter] + Turns(turns))
        decreases |script|, |queue|
      {
        Shift();
        Commit(next);
        ghost var more;
        next, more := RunPass();
        if old(script) == [] {
          TurnsAfter(old(done), enter, turns, more);
          turns := turns + more + 1;
        }
      }
      Epilogue();
      Commit(next);
    }

    /** `u = u || r.once, a = i = !0` */
    method StartFiring()
      requires queue != []
      modifies `locked, `fired, `firing
      ensures Enter(old(State())) == Resume(State()) && firing
    {
      locked := locked || opts.once;
      fired, firing := true, true;
    }

    method Shift()
      requires queue != []
      modifies `memory, `queue, `log
      ensures State() == StartPass(old(State()))
    {
      memory := Some(queue[0]);
      queue := queue[1..];
      log := log.(started := log.started + [memory.value]);
    }

    method Epilogue()
      modifies `memory, `firing, `enabled, `items
      ensures State() == Finish(old(State()))
    {
      if !opts.memory { memory := None; }
      firing := false;
      if locked {
        enabled := memory.Some?;
        items := [];
      }
    }

    /** The inner loop of `c()` and the reset of `l`; returns the move that ends the pass. */
    method RunPass() returns (ghost last: Move, ghost turns: nat)
      requires Valid() && firing
      modifies this
      ensures firing && additions == |log.added| && old(done) <= done
      ensures |script| < |old(script)| || (script == old(script) && queue == old(queue))
      ensures Step(Run(New(opts), done), last) == Resume(State())
      ensures old(script) == [] ==> script == [] && last == Turn && done == old(done) + Turns(turns)
      decreases |script|, 0, 1
    {
      hide Run, Step, Resume, New, Ok, State;
      last := Turn;
      ghost var stopped := false;
      turns := 0;
      assert old(done) + Turns(0) == old(done);
      Advance(false, last);
      while index < |items|
        invariant firing && old(done) <= done && additions == |log.added|
        invariant |script| < |old(script)| || (script == old(script) && queue == old(queue))
        invariant if stopped then Ends(last) && index > |items| else last == Turn && Arrived()
        invariant old(script) == [] ==> script == [] && !stopped && done == old(done) + Turns(turns)
        decreases |script|, |items| - index
      {
        var isFalse := CallCurrent();
        if old(script) == [] {
          OneMoreTurn(old(done), turns);
          turns := turns + 1;
        }
        if isFalse && opts.stopOnFalse {
          StopPass();
          last, stopped := ReturnFalse, true;
        }
        Advance(stopped, last);
      }
      if !stopped { RunsOut(); }
      ResetIndex(last);
    }

    /** The index has just moved on from where the moves made so far have left it. */
    ghost predicate Arrived() reads this {
      Run(New(opts), done) == State().(index := index - 1)
    }

    /** `l++` */
    method Advance(ghost stopped: bool, ghost last: Move)
      requires if stopped then Ends(last) else Valid()
      modifies `index
      ensures index == old(index) + 1 && if stopped then Ends(last) else Arrived()
    {
      hide Run, Step, Resume, New, Ok;
      index := index + 1;
    }

    lemma RunsOut()
      requires Arrived() && firing && index >= |items|
      ensures Ends(Turn)
    {
      NewOk(opts);
      hide Run, Step, Resume, New, Ok;
      TurnEndsPass(State().(index := index - 1));
    }

    /** Move `last` ends the pass, whatever the index has become. */
    ghost predicate Ends(last: Move) reads this {
      Step(Run(New(opts), done), last) == Resume(Reset(State()))
    }

    /** `l = s.length, t = !1` */
    method StopPass()
      requires Valid() && firing && opts.stopOnFalse
      modifies `memory, `index
      ensures Ends(ReturnFalse) && index == |items|
    {
      FalseEndsPass(State());
      memory := None;
      index := |items|;
    }

    /** `l = -1` */
    method ResetIndex(ghost last: Move)
      requires Ends(last)
      modifies `index, `log
      ensures Step(Run(New(opts), done), last) == Resume(State()) && log.added == old(log).added
    {
      index := -1;
      log := log.(from := 0, blind := 0);
    }

    /** `s[l].apply(t[0], t[1])`; the index has just moved to the callback. */
    method CallCurrent() returns (isFalse: bool)
      requires firing && additions == |log.added| && index < |items|
      requires Arrived()
      modifies this
      ensures Valid() && firing && old(done) <= done
      ensures |script| < |old(script)| || (script == old(script) && queue == old(queue) && items == old(items)
          && index == old(index))
      ensures old(script) == [] ==> !isFalse && done == old(done) + [Turn]
      decreases |script|, 0, 0, 1
    {
      ghost var before := State().(index := index - 1);
      assert Ok(before) && Calls(before);
      log := log.(calls := log.calls + [NextCall(before)]);
      Commit(Turn);
      isFalse := RunCallback();
    }

    /** The body of the callback at the firing index: the next stretch of the script. */
    method RunCallback() returns (isFalse: bool)
      requires Valid() && firing
      modifies this
      ensures Valid() && firing && old(done) <= done
      ensures |script| < |old(script)| || (script == old(script) && State() == old(State()))
      ensures old(script) == [] ==> !isFalse && done == old(done)
      decreases |script|, 0, 0, 0
    {
      while script != []
        invariant Valid() && firing && old(done) <= done && |script| <= |old(script)|
        invariant |script| < |old(script)| || (script == old(script) && State() == old(State()) && done == old(done))
        decreases |script|
      {
        var action := script[0];
        script := script[1..];
        match action
        case Return(b) => return b;
        case Do(call) => Perform(call);
      }
      return false;
    }

    method Perform(call: ApiCall)
      requires Valid()
      modifies this
      ensures Valid() && firing == old(firing) && |script| <= |old(script)| && old(done) <= done
      decreases |script|, 3
    {
      match call
      case CallAdd(fns) => Add(fns);
      case CallRemove(fns) => Remove(fns);
      case CallEmpty => Clear();
      case CallDisable => Disable();
      case CallLock => Lock();
      case CallFire(args) => FireWith(args);
    }
  }
}
