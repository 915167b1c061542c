/**
 What a callback list owes to the functions in it: those a pass begins with, and those added later to a list with
 memory (Mypintool/doc/html/jquery.js, line 2).
 */
module CallbackLate {
  import opened Optional
  import opened Values
  import opened CallbackList
  import opened CallbackRuns

  // ----- the memory -----

  /** A list with memory remembers the last fire whose pass has started, unless a callback has made it forget. */
  predicate Recalls(l: List) {
    l.enabled && l.log.started != [] ==> l.memory == Some(l.log.started[|l.log.started| - 1])
  }

  /** No callback of a "stopOnFalse" list has returned false. */
  predicate NeverForgets(opts: Options, moves: seq<Move>) { !opts.stopOnFalse || ReturnFalse !in moves }

  lemma RecallsStep(l: List, m: Move)
    requires Ok(l) && l.opts.memory && Recalls(l) && (!l.opts.stopOnFalse || !m.ReturnFalse?)
    ensures Recalls(Step(l, m)) && Step(l, m).opts == l.opts
  {
    match m
    case Add(fns) =>
      PushAllKeepsQueue(l, fns);
      if Refires(l) { PushAllKeepsQueue(Rewind(l), fns); }
    case Remove(fns) => RemoveKeepsRest(l, fns);
    case _ =>
  }

  lemma NewForgetsNothing(opts: Options)
    ensures Recalls(New(opts)) && New(opts).opts == opts
  {
  }

  lemma {:induction false} MemoryIsLastStarted(opts: Options, moves: seq<Move>)
    requires opts.memory && NeverForgets(opts, moves)
    ensures Recalls(Run(New(opts), moves)) && Run(New(opts), moves).opts == opts
    decreases |moves|
  {
    if moves != [] {
      hide Step, Recalls, New, Ok;
      var k := |moves| - 1;
      NewListOk(opts);
      assert moves[k] in moves;
      MemoryIsLastStarted(opts, moves[..k]);
      RunLast(New(opts), moves);
      RecallsStep(Run(New(opts), moves[..k]), moves[k]);
    } else {
      NewForgetsNothing(opts);
    }
  }

  // ----- what `add` puts into a list -----

  /** `taken` is what of `fns` an `add` takes: everything, or on a "unique" list what is not there yet, once. */
  predicate TakenOf(fns: seq<Fn>, unique: bool, items: seq<Entry>, taken: seq<Fn>) {
    && (forall fn :: fn in taken ==> fn in fns)
    && (if unique then
          && (forall fn :: fn in fns ==> fn in taken || Has(items, fn))
          && (forall i, j :: 0 <= i < j < |taken| ==> taken[i] != taken[j])
          && (forall fn :: fn in taken ==> !Has(items, fn))
        else taken == fns)
  }

  /** The items that stand for the additions from `from` on. */
  function EntriesFrom(added: seq<Fn>, from: nat): seq<Entry>
    requires from <= |added|
  {
    seq(|added| - from, j requires 0 <= j < |added| - from => Entry(added[from + j], from + j))
  }

  /** What an `add` puts into a list, and where. */
  ghost predicate Appended(l: List, r: List, fns: seq<Fn>) {
    && l.log.added <= r.log.added
    && r.items == l.items + EntriesFrom(r.log.added, |l.log.added|)
    && TakenOf(fns, l.opts.unique, l.items, r.log.added[|l.log.added|..])
  }

  lemma NothingAppended(l: List)
    ensures Appended(l, l, [])
  {
    assert l.log.added[|l.log.added|..] == [] && EntriesFrom(l.log.added, |l.log.added|) == [];
  }

  lemma HasPushed(l: List, fn: Fn, x: Fn)
    ensures Has(PushOne(l, fn).items, x) <==> Has(l.items, x) || x == fn
  {
    var r := PushOne(l, fn);
    if Has(l.items, x) {
      var j :| 0 <= j < |l.items| && l.items[j].fn == x;
      assert r.items[j].fn == x;
    }
    assert r.items[|l.items|].fn == fn;
  }

  lemma TakenMore(fns: seq<Fn>, unique: bool, items: seq<Entry>, pushed: seq<Entry>, fn: Fn, more: seq<Fn>)
    requires TakenOf(fns, unique, pushed, more) && (unique ==> !Has(items, fn))
    requires forall x :: Has(pushed, x) <==> Has(items, x) || x == fn
    ensures TakenOf([fn] + fns, unique, items, [fn] + more)
  {
    hide Has;
    if unique {
      assert Has(pushed, fn);
      assert fn !in more;
    }
  }

  lemma PushedOne(l: List, fn: Fn)
    ensures PushOne(l, fn).log.added == l.log.added + [fn]
    ensures PushOne(l, fn).items == l.items + [Entry(fn, |l.log.added|)] && PushOne(l, fn).opts == l.opts
  {
  }

  lemma AppendedMore(l: List, fn: Fn, fns: seq<Fn>, r: List)
    requires Appended(PushOne(l, fn), r, fns) && (l.opts.unique ==> !Has(l.items, fn))
    ensures Appended(l, r, [fn] + fns)
  {
    hide Has, PushOne, TakenOf;
    var p := PushOne(l, fn);
    PushedOne(l, fn);
    var n := |l.log.added|;
    var taken, more := r.log.added[n..], r.log.added[n + 1..];
    assert taken == [fn] + more;
    forall x ensures Has(p.items, x) <==> Has(l.items, x) || x == fn { HasPushed(l, fn, x); }
    assert EntriesFrom(r.log.added, n) == [Entry(fn, n)] + EntriesFrom(r.log.added, n + 1);
    TakenMore(fns, l.opts.unique, l.items, p.items, fn, more);
  }

  lemma AppendedKnown(l: List, fn: Fn, fns: seq<Fn>, r: List)
    requires Appended(l, r, fns) && l.opts.unique && Has(l.items, fn)
    ensures Appended(l, r, [fn] + fns)
  {
    hide Has;
  }

  lemma {:induction false} PushAllAppends(l: List, fns: seq<Fn>)
    ensures Appended(l, PushAll(l, fns), fns)
    decreases |fns|
  {
    if fns == [] {
      NothingAppended(l);
    } else {
      hide Appended, Has, PushOne;
      assert fns == [fns[0]] + fns[1..];
      if l.opts.unique && Has(l.items, fns[0]) {
        PushAllAppends(l, fns[1..]);
        AppendedKnown(l, fns[0], fns[1..], PushAll(l, fns));
      } else {
        PushAllAppends(PushOne(l, fns[0]), fns[1..]);
        AppendedMore(l, fns[0], fns[1..], PushAll(l, fns));
      }
    }
  }

  /** On an enabled list `add` appends, whatever the list is doing. */
  lemma AddAppends(l: List, fns: seq<Fn>)
    requires Ok(l) && l.enabled
    ensures Appended(l, DoAdd(l, fns), fns)
  {
    hide PushAll, EntriesFrom, TakenOf;
    if Refires(l) {
      PushAllKeepsQueue(Rewind(l), fns);
      PushAllAppends(Rewind(l), fns);
    } else {
      PushAllAppends(l, fns);
    }
  }

  // ----- functions added to a list with memory that is at rest -----

  function Turns(n: nat): seq<Move> { seq(n, _ => Turn) }

  /** One call for each addition from `from` on, all in one pass. */
  function CallsFrom(added: seq<Fn>, from: nat, args: Args, pass: nat): seq<Call>
    requires from <= |added|
  {
    seq(|added| - from, j requires 0 <= j < |added| - from => Call(added[from + j], from + j, args, pass))
  }

  /** A pass over the additions from `from` on has begun and has come `t` of them far. */
  ghost predicate PassedBy(l: List, l1: List, b: nat, from: nat, a: Args, t: nat) {
    && from <= |l1.log.added| && t <= |l1.log.added| - from && |l1.log.started| > 0
    && l1.firing && l1.enabled && l1.memory == Some(a) && l1.queue == [] && |l1.items| == b + |l1.log.added| - from
    && l1.items[b..] == EntriesFrom(l1.log.added, from)
    && l == l1.(index := b - 1 + t,
                log := l1.log.(calls := l1.log.calls + CallsFrom(l1.log.added, from, a, |l1.log.started| - 1)[..t]))
  }

  lemma PassedByTurn(l: List, l1: List, b: nat, from: nat, a: Args, t: nat)
    requires Ok(l) && PassedBy(l, l1, b, from, a, t)
    ensures t < |l1.log.added| - from ==> PassedBy(DoTurn(l), l1, b, from, a, t + 1)
    ensures t == |l1.log.added| - from ==>
      !DoTurn(l).firing && DoTurn(l).log.calls == l.log.calls && DoTurn(l).log.added == l.log.added
  {
    var calls := CallsFrom(l1.log.added, from, a, |l1.log.started| - 1);
    if t < |l1.log.added| - from {
      assert l1.items[b + t] == l1.items[b..][t];
      assert Calls(l) && NextCall(l) == calls[t];
      assert calls[..t + 1] == calls[..t] + [calls[t]];
      assert l1.log.calls + calls[..t] + [calls[t]] == l1.log.calls + calls[..t + 1];
    } else {
      assert !Calls(l);
    }
  }

  lemma AllPassed(l: List, l1: List, b: nat, from: nat, a: Args)
    requires from <= |l1.log.added| && PassedBy(l, l1, b, from, a, |l1.log.added| - from)
    ensures l.log.added == l1.log.added && |l1.log.started| > 0
    ensures l.log.calls == l1.log.calls + CallsFrom(l1.log.added, from, a, |l1.log.started| - 1)
  {
    var calls := CallsFrom(l1.log.added, from, a, |l1.log.started| - 1);
    assert calls[..|calls|] == calls;
  }

  lemma IdleTurn(l: List)
    requires Ok(l) && !l.firing
    ensures DoTurn(l) == l
  {
  }

  /** After `n` turns either the pass is still under way, or it is over and has called them all. */
  lemma {:induction false} TurnsPass(l1: List, b: nat, from: nat, a: Args, n: nat)
    requires Ok(l1) && from <= |l1.log.added| && |l1.log.started| > 0 && PassedBy(l1, l1, b, from, a, 0)
    ensures var r, k := Run(l1, Turns(n)), |l1.log.added| - from;
      if n <= k then PassedBy(r, l1, b, from, a, n)
      else
        && !r.firing && r.log.added == l1.log.added
        && r.log.calls == l1.log.calls + CallsFrom(l1.log.added, from, a, |l1.log.started| - 1)
    decreases n
  {
    hide PassedBy, DoTurn;
    if n > 0 {
      var m := n - 1;
      assert Turns(n) == Turns(m) + [Turn];
      RunSnoc(l1, Turns(m), Turn);
      TurnsPass(l1, b, from, a, m);
      var k := |l1.log.added| - from;
      if m <= k {
        PassedByTurn(Run(l1, Turns(m)), l1, b, from, a, m);
        if m == k { AllPassed(Run(l1, Turns(m)), l1, b, from, a); }
      } else {
        IdleTurn(Run(l1, Turns(m)));
      }
    } else {
      assert Turns(0) == [];
    }
  }

  /** `add` on a list at rest that remembers a fire begins a pass over what it appends. */
  lemma AddBeginsPass(l: List, fns: seq<Fn>)
    requires Ok(l) && l.enabled && !l.firing && l.opts.memory && l.log.started != [] && Recalls(l)
    ensures var r := DoAdd(l, fns);
      && r.log.calls == l.log.calls && r.log.started == l.log.started + [l.log.started[|l.log.started| - 1]]
      && |l.log.added| <= |r.log.added|
      && PassedBy(r, r, |l.items|, |l.log.added|, l.log.started[|l.log.started| - 1], 0)
  {
    AddAppends(l, fns);
    hide PushAll, TakenOf;
    PushAllKeepsQueue(Rewind(l), fns);
    var r, a := DoAdd(l, fns), l.log.started[|l.log.started| - 1];
    var calls := CallsFrom(r.log.added, |l.log.added|, a, |r.log.started| - 1);
    assert calls[..0] == [] && r.log.calls + [] == r.log.calls;
    assert r.items[|l.items|..] == EntriesFrom(r.log.added, |l.log.added|);
  }

  lemma StillFiring(l: List, l1: List, b: nat, from: nat, a: Args, t: nat)
    requires PassedBy(l, l1, b, from, a, t)
    ensures l.firing
  {
  }

  lemma {:induction false} RunOn(l: List, a: seq<Move>, b: seq<Move>)
    requires Ok(l)
    ensures Run(l, a + b) == Run(Run(l, a), b)
    decreases |b|
  {
    if b == [] {
      assert a + b == a;
    } else {
      var k := |b| - 1;
      assert (a + b)[..|a + b| - 1] == a + b[..k] && (a + b)[|a + b| - 1] == b[k];
      RunOn(l, a, b[..k]);
    }
  }

  /**
   Functions added to a list with memory that is at rest after a fire, "once" or not: by the time the list is at rest
   again each of them has been called, in order, with the arguments of the last fire, and nothing older has been.
   The callbacks are taken here not to use the list; `AddedAtRestIsCalled` below is for any callbacks.
   */
  lemma LateAddIsCalled(opts: Options, before: seq<Move>, fns: seq<Fn>, n: nat)
    requires opts.memory && NeverForgets(opts, before)
    requires var l := Run(New(opts), before); l.enabled && !l.firing && l.log.started != []
    requires !Run(Run(New(opts), before), [Add(fns)] + Turns(n)).firing
    ensures var l := Run(New(opts), before);
      var r, k := Run(l, [Add(fns)] + Turns(n)), |l.log.started|;
      && l.log.added <= r.log.added && TakenOf(fns, opts.unique, l.items, r.log.added[|l.log.added|..])
      && r.log.calls == l.log.calls + CallsFrom(r.log.added, |l.log.added|, l.log.started[k - 1], k)
  {
    hide TakenOf, New, Ok, DoAdd, PassedBy;
    NewListOk(opts);
    MemoryIsLastStarted(opts, before);
    var l := Run(New(opts), before);
    AddAppends(l, fns);
    AddBeginsPass(l, fns);
    assert [Add(fns)][..0] == [];
    RunSnoc(l, [], Add(fns));
    assert [] + [Add(fns)] == [Add(fns)];
    RunOn(l, [Add(fns)], Turns(n));
    var l1 := Run(l, [Add(fns)]);
    TurnsPass(l1, |l.items|, |l.log.added|, l.log.started[|l.log.started| - 1], n);
    if n <= |l1.log.added| - |l.log.added| {
      StillFiring(Run(l1, Turns(n)), l1, |l.items|, |l.log.added|, l.log.started[|l.log.started| - 1], n);
    }
  }

  // ----- what a pass owes, whatever its callbacks do -----

  /** Calls of the list's API other than those that take functions out of it. */
  predicate Keeps(m: Move) { m.Add? || m.Fire? || m.Turn? || m.Lock? }

  /** A list that has been used, but never emptied or removed from; only if `shuts` may it have been disabled. */
  ghost predicate Evolves(l: List, r: List, shuts: bool) {
    Ok(l) && exists moves :: r == Run(l, moves) && forall m :: m in moves ==> Keeps(m) || (shuts && m.Disable?)
  }

  lemma EvolvesNot(l: List, shuts: bool)
    requires Ok(l)
    ensures Evolves(l, l, shuts)
  {
    assert l == Run(l, []);
  }

  lemma EvolvesBy(l: List, m: Move, shuts: bool)
    requires Ok(l) && (Keeps(m) || (shuts && m.Disable?))
    ensures Evolves(l, Step(l, m), shuts)
  {
    RunSnoc(l, [], m);
    assert [] + [m] == [m] && Run(l, [m]) == Step(l, m);
  }

  lemma EvolvesOn(a: List, b: List, c: List, shuts: bool)
    requires Evolves(a, b, shuts) && Evolves(b, c, shuts)
    ensures Evolves(a, c, shuts)
  {
    var x :| b == Run(a, x) && forall m :: m in x ==> Keeps(m) || (shuts && m.Disable?);
    var y :| c == Run(b, y) && forall m :: m in y ==> Keeps(m) || (shuts && m.Disable?);
    RunOn(a, x, y);
    assert forall m :: m in x + y ==> m in x || m in y;
  }

  /** Addition `k` has been called in pass `pass`, or that pass is under way and will come to it. */
  ghost predicate Owed(l: List, k: nat, pass: int) {
    || CalledIn(l.log.calls, pass, k)
    || (l.firing && l.enabled && CurrentPass(l) == pass
        && exists j :: 0 <= j < |l.items| && l.index < j && l.items[j].serial == k)
  }

  lemma CalledStays(calls: seq<Call>, more: seq<Call>, pass: int, k: nat)
    requires CalledIn(calls, pass, k)
    ensures CalledIn(calls + more, pass, k)
  {
    var j :| 0 <= j < |calls| && calls[j].pass == pass && calls[j].serial == k;
    assert (calls + more)[j] == calls[j];
  }

  lemma OwedTurn(l: List, k: nat, pass: int)
    requires Ok(l) && Owed(l, k, pass)
    ensures Owed(DoTurn(l), k, pass)
  {
    var r := DoTurn(l);
    if CalledIn(l.log.calls, pass, k) {
      if Calls(l) { CalledStays(l.log.calls, [NextCall(l)], pass, k); }
    } else {
      var j :| l.index < j < |l.items| && l.items[j].serial == k;
      assert Calls(l) && r.log.calls == l.log.calls + [NextCall(l)];
      if j == l.index + 1 {
        assert r.log.calls[|l.log.calls|] == NextCall(l);
      }
    }
  }

  lemma OwedAdd(l: List, fns: seq<Fn>, k: nat, pass: int)
    requires Ok(l) && Owed(l, k, pass)
    ensures Owed(DoAdd(l, fns), k, pass)
  {
    AddPasses(l, fns);
    PushAllKeepsQueue(l, fns);
    if Refires(l) { PushAllKeepsQueue(Rewind(l), fns); }
    if !CalledIn(l.log.calls, pass, k) {
      var j :| l.index < j < |l.items| && l.items[j].serial == k;
      AddAppends(l, fns);
      assert DoAdd(l, fns).items[j] == l.items[j];
    }
  }

  lemma OwedStep(l: List, m: Move, k: nat, pass: int)
    requires Ok(l) && Keeps(m) && Owed(l, k, pass)
    ensures Owed(Step(l, m), k, pass)
  {
    match m
    case Add(fns) => OwedAdd(l, fns, k, pass);
    case Turn => OwedTurn(l, k, pass);
    case _ =>
  }

  lemma {:induction false} OwedRun(l: List, moves: seq<Move>, k: nat, pass: int)
    requires Ok(l) && Owed(l, k, pass) && forall m :: m in moves ==> Keeps(m)
    ensures Owed(Run(l, moves), k, pass)
    decreases |moves|
  {
    if moves != [] {
      hide Owed, Step, Ok;
      var n := |moves| - 1;
      OwedRun(l, moves[..n], k, pass);
      assert moves[n] in moves;
      RunLast(l, moves);
      OwedStep(Run(l, moves[..n]), moves[n], k, pass);
    }
  }

  /** Addition `k` has been called in pass `pass` with `a`. */
  ghost predicate CalledWith(g: Log, k: nat, pass: nat, a: Args) {
    exists j :: 0 <= j < |g.calls| && k < |g.added| && g.calls[j] == Call(g.added[k], k, a, pass)
  }

  /** Once the list is at rest what was owed has been paid, with the arguments of that pass. */
  lemma OwedIsPaid(l: List, k: nat, pass: nat)
    requires Inv(l) && !l.firing && Owed(l, k, pass)
    ensures pass < |l.log.started| && CalledWith(l.log, k, pass, l.log.started[pass])
  {
    var j :| 0 <= j < |l.log.calls| && l.log.calls[j].pass == pass && l.log.calls[j].serial == k;
    assert CallsInv(l.log);
  }

  /** Every function in the list when a fire begins a pass is owed a call with the arguments of that fire. */
  lemma FireOwes(l: List, args: Args, j: nat)
    requires Ok(l) && l.enabled && !l.locked && !l.firing && j < |l.items|
    ensures var r := DoFire(l, args);
      && Owed(r, l.items[j].serial, |l.log.started|)
      && |r.log.started| == |l.log.started| + 1 && r.log.started[|l.log.started|] == args
  {
    var r := DoFire(l, args);
    assert r.index < j < |r.items| && r.items[j].serial == l.items[j].serial;
  }

  /** So is every function that an `add` takes on a list at rest that remembers a fire. */
  lemma LateAddOwes(l: List, fns: seq<Fn>, k: nat)
    requires Ok(l) && l.enabled && !l.firing && l.opts.memory && l.log.started != [] && Recalls(l)
    requires |l.log.added| <= k < |DoAdd(l, fns).log.added|
    ensures var r, n := DoAdd(l, fns), |l.log.started|;
      Owed(r, k, n) && |r.log.started| == n + 1 && r.log.started[n] == l.log.started[n - 1]
  {
    AddAppends(l, fns);
    hide PushAll, TakenOf;
    PushAllKeepsQueue(Rewind(l), fns);
    var r, j := DoAdd(l, fns), |l.items| + k - |l.log.added|;
    assert r.items[j] == EntriesFrom(r.log.added, |l.log.added|)[k - |l.log.added|];
  }

  /** What was started stays started. */
  lemma {:induction false} RunStarts(l: List, moves: seq<Move>)
    requires Ok(l)
    ensures Grows(l, Run(l, moves))
    decreases |moves|
  {
    if moves != [] {
      hide Step, Ok;
      RunStarts(l, moves[..|moves| - 1]);
      RunLast(l, moves);
      StepGrows(Run(l, moves[..|moves| - 1]), moves[|moves| - 1]);
    }
  }

  /**
   The same with callbacks that may add, fire and lock: each function taken by an `add` on a list with memory at
   rest is called in the pass that this `add` begins, with the arguments of the last fire.
   */
  lemma AddedAtRestIsCalled(opts: Options, before: seq<Move>, fns: seq<Fn>, after: seq<Move>, k: nat)
    requires opts.memory && NeverForgets(opts, before) && forall m :: m in after ==> Keeps(m)
    requires var l := Run(New(opts), before); l.enabled && !l.firing && l.log.started != []
    requires !Run(New(opts), before + [Add(fns)] + after).firing
    requires |Run(New(opts), before).log.added| <= k < |Run(New(opts), before + [Add(fns)]).log.added|
    ensures var l, r := Run(New(opts), before), Run(New(opts), before + [Add(fns)] + after);
      CalledWith(r.log, k, |l.log.started|, l.log.started[|l.log.started| - 1])
  {
    hide New, Ok, DoAdd, Owed, CalledWith, Inv, Recalls;
    NewListOk(opts);
    MemoryIsLastStarted(opts, before);
    var l := Run(New(opts), before);
    RunSnoc(New(opts), before, Add(fns));
    var l1 := Run(New(opts), before + [Add(fns)]);
    LateAddOwes(l, fns, k);
    RunOn(New(opts), before + [Add(fns)], after);
    OwedRun(l1, after, k, |l.log.started|);
    RunStarts(l1, after);
    RunInv(opts, before + [Add(fns)] + after);
    OwedIsPaid(Run(New(opts), before + [Add(fns)] + after), k, |l.log.started|);
  }

  /**
   Every function in the list when a fire begins a pass is called in that pass with the arguments of that fire,
   whatever callbacks add, fire and lock meanwhile.
   */
  lemma FiredIsCalled(opts: Options, before: seq<Move>, args: Args, after: seq<Move>, e: Entry)
    requires forall m :: m in after ==> Keeps(m)
    requires var l := Run(New(opts), before); l.enabled && !l.locked && !l.firing && e in l.items
    requires !Run(New(opts), before + [Fire(args)] + after).firing
    ensures var l, r := Run(New(opts), before), Run(New(opts), before + [Fire(args)] + after);
      CalledWith(r.log, e.serial, |l.log.started|, args)
  {
    hide New, Ok, DoFire, Owed, CalledWith, Inv;
    NewListOk(opts);
    var l := Run(New(opts), before);
    var j: nat :| j < |l.items| && l.items[j] == e;
    RunSnoc(New(opts), before, Fire(args));
    var l1 := Run(New(opts), before + [Fire(args)]);
    FireOwes(l, args, j);
    RunOn(New(opts), before + [Fire(args)], after);
    OwedRun(l1, after, e.serial, |l.log.started|);
    RunStarts(l1, after);
    RunInv(opts, before + [Fire(args)] + after);
    OwedIsPaid(Run(New(opts), before + [Fire(args)] + after), e.serial, |l.log.started|);
  }

  // ----- "stopOnFalse" -----

  lemma {:induction false} IdleTurns(l: List, n: nat)
    requires Ok(l) && !l.firing
    ensures Run(l, Turns(n)) == l
    decreases n
  {
    if n > 0 {
      assert Turns(n) == Turns(n - 1) + [Turn];
      RunSnoc(l, Turns(n - 1), Turn);
      IdleTurns(l, n - 1);
    } else {
      assert Turns(0) == [];
    }
  }

  /**
   A callback of a "stopOnFalse" list that returns false ends its pass and makes the list forget: unless more fires
   are queued, nothing is called again before the next fire, whatever is added.
   */
  lemma FalseStops(l: List, fns: seq<Fn>, n: nat)
    requires Ok(l) && l.firing && l.opts.stopOnFalse && l.queue == []
    ensures var r := Run(l, [ReturnFalse] + [Add(fns)] + Turns(n));
      !r.firing && r.log.calls == l.log.calls
  {
    var m := [ReturnFalse];
    assert m[..0] == [] && Run(l, m) == Step(l, ReturnFalse);
    RunSnoc(l, m, Add(fns));
    var r1 := Step(Step(l, ReturnFalse), Add(fns));
    PushAllKeepsQueue(Step(l, ReturnFalse), fns);
    RunOn(l, m + [Add(fns)], Turns(n));
    IdleTurns(r1, n);
  }
}
