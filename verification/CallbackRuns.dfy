/** What every run of a callback list keeps: passes run one after another in FIFO order, and each covers the list. */
module CallbackRuns {
  import opened Optional
  import opened Values
  import opened CallbackList

  // ----- runs -----

  function Run(l: List, moves: seq<Move>): (r: List)
    requires Ok(l)
    ensures Ok(r)
    decreases |moves|
  {
    if moves == [] then l
    else
      var before := Run(l, moves[..|moves| - 1]);
      StepOk(before, moves[|moves| - 1]);
      Step(before, moves[|moves| - 1])
  }

  // ----- the invariant -----

  ghost predicate ItemsInv(l: List) {
    && (forall j :: 0 <= j < |l.items| ==>
      l.items[j].serial < |l.log.added| && l.items[j].fn == l.log.added[l.items[j].serial])
    && (forall i, j :: 0 <= i < j < |l.items| ==> l.items[i].serial < l.items[j].serial)
  }

  ghost predicate Before(a: Call, b: Call) {
    a.pass < b.pass || (a.pass == b.pass && a.serial < b.serial)
  }

  /**
   Every call runs an added function with the arguments of its own fire; calls are ordered by fire, then by addition.
   */
  ghost predicate CallsInv(g: Log) {
    && (forall j :: 0 <= j < |g.calls| ==>
          && g.calls[j].pass < |g.started| && g.calls[j].args == g.started[g.calls[j].pass]
          && g.calls[j].serial < |g.added| && g.calls[j].fn == g.added[g.calls[j].serial])
    && (forall i, j :: 0 <= i < j < |g.calls| ==> Before(g.calls[i], g.calls[j]))
  }

  ghost predicate CalledIn(calls: seq<Call>, pass: int, serial: nat) {
    exists j :: 0 <= j < |calls| && calls[j].pass == pass && calls[j].serial == serial
  }

  ghost predicate AheadOfCalls(calls: seq<Call>, pass: int, serial: nat) {
    forall j :: 0 <= j < |calls| && calls[j].pass == pass ==> calls[j].serial < serial
  }

  /** Position `j` seen from the firing index: vacated and refilled, already called, or still ahead. */
  ghost predicate Placed(l: List, pass: int, j: nat)
    requires j < |l.items|
  {
    var e := l.items[j].serial;
    if j < l.log.blind then l.log.from <= e && !CalledIn(l.log.calls, pass, e)
    else if j <= l.index then e < l.log.from || CalledIn(l.log.calls, pass, e)
    else l.log.from <= e && AheadOfCalls(l.log.calls, pass, e)
  }

  ghost predicate PassInv(l: List, pass: int) {
    && l.log.blind <= l.index + 1
    && l.log.from <= |l.log.added|
    && (l.enabled ==> l.index < |l.items| || l.index < l.log.blind)
    && (forall j :: 0 <= j < |l.items| ==> Placed(l, pass, j))
    && (forall j :: 0 <= j < |l.log.calls| && l.log.calls[j].pass == pass ==> l.log.from <= l.log.calls[j].serial)
  }

  function CurrentPass(l: List): int { |l.log.started| - 1 }

  ghost predicate Distinct(items: seq<Entry>) {
    forall i, j :: 0 <= i < j < |items| ==> items[i].fn != items[j].fn
  }

  ghost predicate Stable(l: List) {
    && ItemsInv(l)
    && CallsInv(l.log)
    && l.log.accepted == l.log.started + l.queue
    && (l.opts.unique ==> Distinct(l.items))
  }

  ghost predicate Inv(l: List) {
    && Ok(l)
    && Stable(l)
    && (if l.firing then PassInv(l, CurrentPass(l)) else l.log.from == 0 && l.log.blind == 0)
  }

  // ----- each move keeps it -----

  lemma PushOneKeeps(l: List, fn: Fn, pass: int)
    requires l.enabled && Stable(l) && PassInv(l, pass)
    requires l.opts.unique ==> !Has(l.items, fn)
    ensures var r := PushOne(l, fn); Stable(r) && PassInv(r, pass)
  {
    var r := PushOne(l, fn);
    forall j | 0 <= j < |r.items| ensures Placed(r, pass, j) {
      assert j < |l.items| ==> Placed(l, pass, j);
    }
  }

  lemma {:induction false} PushAllKeeps(l: List, fns: seq<Fn>, pass: int)
    requires l.enabled && Stable(l) && PassInv(l, pass)
    ensures var r := PushAll(l, fns); Stable(r) && PassInv(r, pass)
    decreases |fns|
  {
    if fns != [] {
      if l.opts.unique && Has(l.items, fns[0]) {
        PushAllKeeps(l, fns[1..], pass);
      } else {
        PushOneKeeps(l, fns[0], pass);
        PushAllKeeps(PushOne(l, fns[0]), fns[1..], pass);
      }
    }
  }

  lemma RemoveAtKeeps(l: List, n: nat, pass: int)
    requires n < |l.items| && Stable(l) && PassInv(l, pass)
    ensures var r := RemoveAt(l, n); Stable(r) && PassInv(r, pass)
  {
    var r := RemoveAt(l, n);
    forall j | 0 <= j < |r.items| ensures Placed(r, pass, j) {
      assert Placed(l, pass, if j < n then j else j + 1);
    }
  }

  lemma {:induction false} RemoveFromKeeps(l: List, fn: Fn, n: nat, pass: int)
    requires Stable(l) && PassInv(l, pass)
    ensures var r := RemoveFrom(l, fn, n); Stable(r) && PassInv(r, pass)
    decreases |l.items| - n
  {
    if n < |l.items| {
      if l.items[n].fn == fn {
        RemoveAtKeeps(l, n, pass);
        RemoveFromKeeps(RemoveAt(l, n), fn, n, pass);
      } else {
        RemoveFromKeeps(l, fn, n + 1, pass);
      }
    }
  }

  lemma {:induction false} DoRemoveKeeps(l: List, fns: seq<Fn>, pass: int)
    requires Stable(l) && PassInv(l, pass)
    ensures var r := DoRemove(l, fns); Stable(r) && PassInv(r, pass)
    decreases |fns|
  {
    if fns != [] {
      RemoveFromKeeps(l, fns[0], 0, pass);
      DoRemoveKeeps(RemoveFrom(l, fns[0], 0), fns[1..], pass);
    }
  }

  /** Outside a pass the bounds that a coming pass needs hold trivially: nothing has been called in it yet. */
  lemma ComingPass(l: List)
    requires Ok(l) && Stable(l) && l.log.blind == 0 && l.index == -1 && l.log.from == 0
    ensures PassInv(l, |l.log.started|)
  {
  }

  lemma EndPassKeeps(l: List)
    requires Stable(l) && Ok(EndPass(l))
    ensures Inv(EndPass(l))
  {
    var r := l.(index := -1, log := l.log.(from := 0, blind := 0));
    if r.queue != [] {
      var s := StartPass(r);
      forall j | 0 <= j < |s.items| ensures Placed(s, CurrentPass(s), j) {}
    }
  }

  lemma EnterKeeps(p: List)
    requires |p.queue| == 1 && Stable(p) && PassInv(p, |p.log.started|) && -1 <= p.index && p.enabled
    ensures Inv(Enter(p))
  {
    var s := Enter(p);
    forall j | 0 <= j < |s.items| ensures Placed(s, CurrentPass(s), j) {
      assert Placed(p, |p.log.started|, j);
    }
  }

  lemma RefireKeeps(l: List, fns: seq<Fn>)
    requires Inv(l) && Refires(l)
    ensures Inv(DoAdd(l, fns))
  {
    var r := Rewind(l);
    PushAllKeepsQueue(r, fns);
    PushAllKeeps(r, fns, |l.log.started|);
    var p := PushAll(r, fns);
    EnterKeeps(p);
  }

  lemma AddKeeps(l: List, fns: seq<Fn>)
    requires Inv(l)
    ensures Inv(DoAdd(l, fns))
  {
    PushAllKeepsQueue(l, fns);
    if !l.enabled {
    } else if Refires(l) {
      RefireKeeps(l, fns);
    } else if l.firing {
      PushAllKeeps(l, fns, CurrentPass(l));
    } else {
      ComingPass(l);
      PushAllKeeps(l, fns, |l.log.started|);
    }
  }

  lemma FireKeeps(l: List, args: Args)
    requires Inv(l)
    ensures Inv(DoFire(l, args))
  {
    var r := DoFire(l, args);
    if !l.locked && !l.firing {
      assert r.log.started == l.log.started + [args] && r.queue == [];
      forall j | 0 <= j < |r.items| ensures Placed(r, CurrentPass(r), j) {}
    } else if !l.locked {
      forall j | 0 <= j < |r.items| ensures Placed(r, CurrentPass(r), j) { assert Placed(l, CurrentPass(l), j); }
    }
  }

  lemma CallLogKeeps(l: List)
    requires Inv(l) && Calls(l)
    ensures CallsInv(DoTurn(l).log)
  {
    assert Placed(l, CurrentPass(l), l.index + 1);
    var calls := DoTurn(l).log.calls;
    forall i, j | 0 <= i < j < |calls| ensures Before(calls[i], calls[j]) {
      assert j < |l.log.calls| ==> Before(l.log.calls[i], l.log.calls[j]);
    }
  }

  lemma CallPlaces(l: List, j: nat)
    requires Inv(l) && Calls(l) && j < |l.items|
    ensures Placed(DoTurn(l), CurrentPass(l), j)
  {
    var r := DoTurn(l);
    var c := |l.log.calls|;
    assert Placed(l, CurrentPass(l), j);
    assert r.log.calls[c] == NextCall(l);
    if j < l.log.blind {
      assert l.items[j].serial != l.items[l.index + 1].serial;
    } else if j <= l.index && l.log.from <= l.items[j].serial {
      var i :| 0 <= i < c && l.log.calls[i].pass == CurrentPass(l) && l.log.calls[i].serial == l.items[j].serial;
      assert r.log.calls[i] == l.log.calls[i];
    }
  }

  lemma NextIsAhead(l: List)
    requires Inv(l) && Calls(l)
    ensures l.log.from <= NextCall(l).serial
  {
    assert Placed(l, CurrentPass(l), l.index + 1);
  }

  lemma CallKeeps(l: List)
    requires Inv(l) && Calls(l)
    ensures Inv(DoTurn(l))
  {
    hide Placed, CallsInv;
    StepOk(l, Turn);
    CallLogKeeps(l);
    NextIsAhead(l);
    forall j | 0 <= j < |l.items| ensures Placed(DoTurn(l), CurrentPass(l), j) { CallPlaces(l, j); }
  }

  lemma TurnKeeps(l: List)
    requires Inv(l)
    ensures Inv(DoTurn(l))
  {
    hide Stable, PassInv;
    StepOk(l, Turn);
    if Calls(l) {
      CallKeeps(l);
    } else if l.firing {
      EndPassKeeps(l);
    }
  }

  lemma ClearingKeeps(l: List, m: Move)
    requires Inv(l) && (m.Empty? || m.Disable? || m.Lock?)
    ensures Inv(Step(l, m))
  {
    StepOk(l, m);
    var r := Step(l, m);
    if l.firing {
      forall j | 0 <= j < |r.items| ensures Placed(r, CurrentPass(r), j) { assert Placed(l, CurrentPass(l), j); }
    }
  }

  lemma {:induction false} RemoveFromKeepsRest(l: List, fn: Fn, n: nat)
    requires -1 <= l.index
    ensures var r := RemoveFrom(l, fn, n);
      && r == l.(items := r.items, index := r.index, log := l.log.(blind := r.log.blind))
      && r.log.blind <= l.log.blind && -1 <= r.index <= l.index
    decreases |l.items| - n
  {
    if n < |l.items| {
      if l.items[n].fn == fn { RemoveFromKeepsRest(RemoveAt(l, n), fn, n); } else { RemoveFromKeepsRest(l, fn, n + 1); }
    }
  }

  lemma {:induction false} RemoveKeepsRest(l: List, fns: seq<Fn>)
    requires -1 <= l.index
    ensures var r := DoRemove(l, fns);
      && r == l.(items := r.items, index := r.index, log := l.log.(blind := r.log.blind))
      && r.log.blind <= l.log.blind && -1 <= r.index <= l.index
    decreases |fns|
  {
    if fns != [] {
      RemoveFromKeepsRest(l, fns[0], 0);
      RemoveKeepsRest(RemoveFrom(l, fns[0], 0), fns[1..]);
    }
  }

  lemma StepKeeps(l: List, m: Move)
    requires Inv(l)
    ensures Inv(Step(l, m))
  {
    match m
    case Add(fns) => AddKeeps(l, fns);
    case Remove(fns) =>
      StepOk(l, m);
      if l.firing {
        DoRemoveKeeps(l, fns, CurrentPass(l));
      } else {
        ComingPass(l);
        DoRemoveKeeps(l, fns, |l.log.started|);
      }
      RemoveKeepsRest(l, fns);
    case Fire(args) => FireKeeps(l, args);
    case Turn => TurnKeeps(l);
    case ReturnFalse =>
      StepOk(l, m);
      if l.firing && l.opts.stopOnFalse { EndPassKeeps(l.(memory := None)); }
    case _ => ClearingKeeps(l, m);
  }

  // ----- theorems over whole runs -----

  lemma {:induction false} RunInv(opts: Options, moves: seq<Move>)
    ensures Inv(Run(New(opts), moves))
    decreases |moves|
  {
    if moves != [] {
      RunInv(opts, moves[..|moves| - 1]);
      StepKeeps(Run(New(opts), moves[..|moves| - 1]), moves[|moves| - 1]);
    }
  }

  /**
   Passes never interleave and follow the order of the fires: the calls of a run are sorted by the fire they
   belong to, no addition is called twice in one pass, and every call gets the arguments of its own fire.
   */
  lemma {:induction false} CallsFollowFires(opts: Options, moves: seq<Move>, i: nat, j: nat)
    requires i < j < |Run(New(opts), moves).log.calls|
    ensures var g := Run(New(opts), moves).log;
      && g.calls[i].pass <= g.calls[j].pass < |g.started|
      && (g.calls[i].pass == g.calls[j].pass ==> g.calls[i].serial < g.calls[j].serial)
      && g.calls[j].args == g.started[g.calls[j].pass]
  {
    RunInv(opts, moves);
    var g := Run(New(opts), moves).log;
    assert Before(g.calls[i], g.calls[j]);
  }

  /**
   When a pass runs to its end, every entry it covers that is still in the list has been called in it, exactly
   when no entry sits in a position that `empty()` vacated behind the firing index.
   */
  lemma {:induction false} PassCoversList(opts: Options, moves: seq<Move>)
    requires var l := Run(New(opts), moves); l.firing && l.enabled && !Calls(l)
    ensures var l := Run(New(opts), moves);
      (forall e :: e in l.items && l.log.from <= e.serial ==> CalledIn(l.log.calls, CurrentPass(l), e.serial))
      <==> (l.log.blind == 0 || l.items == [])
  {
    RunInv(opts, moves);
    var l := Run(New(opts), moves);
    forall j | 0 <= j < |l.items| ensures Placed(l, CurrentPass(l), j) {}
    if l.log.blind == 0 {
      forall e | e in l.items && l.log.from <= e.serial ensures CalledIn(l.log.calls, CurrentPass(l), e.serial) {
        var j :| 0 <= j < |l.items| && l.items[j] == e;
        assert Placed(l, CurrentPass(l), j);
      }
    } else if l.items != [] {
      assert Placed(l, CurrentPass(l), 0);
      assert l.items[0] in l.items;
    }
  }

  /** Without `empty()` no position is ever vacated, so every pass covers its list. */
  lemma {:induction false} NoEmptyNoBlind(opts: Options, moves: seq<Move>)
    requires Empty !in moves
    ensures Run(New(opts), moves).log.blind == 0
    decreases |moves|
  {
    if moves != [] {
      var k := |moves| - 1;
      NoEmptyNoBlind(opts, moves[..k]);
      assert moves[k] in moves;
      var l := Run(New(opts), moves[..k]);
      match moves[k]
      case Add(fns) => PushAllKeepsQueue(l, fns); if Refires(l) { PushAllKeepsQueue(Rewind(l), fns); }
      case Remove(fns) => RemoveKeepsRest(l, fns);
      case _ =>
    }
  }

  lemma {:induction false} RunSnoc(l: List, moves: seq<Move>, m: Move)
    requires Ok(l)
    ensures Run(l, moves + [m]) == Step(Run(l, moves), m)
  {
    assert (moves + [m])[..|moves|] == moves;
  }

  /** The first three states of that run: added, firing, and `f` called. */
  lemma EmptySkipStates(f: Fn, a: Args) returns (l1: List, l2: List, l3: List)
    ensures l1 == Step(New(Options(false, false, false, false)), Add([f])) && Ok(l1)
    ensures l2 == Step(l1, Fire(a)) && Ok(l2)
    ensures l3 == Step(l2, Turn) && Ok(l3)
    ensures l3.enabled && l3.firing && l3.index == 0 && |l3.log.added| == 1 && !l3.opts.unique
    ensures l3.log.calls == [Call(f, 0, a, 0)] && |l3.log.started| == 1
  {
    var l0 := New(Options(false, false, false, false));
    l1 := PushOne(l0, f);
    assert PushAll(l1, [f][1..]) == l1;
    l2 := Step(l1, Fire(a));
    l3 := Step(l2, Turn);
    assert Calls(l2);
  }

  /** `empty()` called by the running callback makes the pass skip a function added after it. */
  lemma EmptyMakesPassSkip(f: Fn, g: Fn, a: Args)
    ensures var l := Run(New(Options(false, false, false, false)), [Add([f])] + [Fire(a)] + [Turn] + [Empty]
        + [Add([g])]);
      && l.firing && !Calls(l) && l.items == [Entry(g, 1)]
      && !CalledIn(l.log.calls, CurrentPass(l), 1)
  {
    var l0 := New(Options(false, false, false, false));
    var l1, l2, l3 := EmptySkipStates(f, a);
    var m := [Add([f])];
    assert m[..0] == [] && Run(l0, m) == l1;
    RunSnoc(l0, m, Fire(a));
    RunSnoc(l0, m + [Fire(a)], Turn);
    RunSnoc(l0, m + [Fire(a)] + [Turn], Empty);
    RunSnoc(l0, m + [Fire(a)] + [Turn] + [Empty], Add([g]));
    var l4 := DoEmpty(l3);
    assert PushAll(PushOne(l4, g), [g][1..]) == PushOne(l4, g);
  }

  /** What a list's own API was asked to add, in order. */
  function AddedBy(moves: seq<Move>): seq<Fn> {
    if moves == [] then []
    else AddedBy(moves[..|moves| - 1]) + (if moves[|moves| - 1].Add? then moves[|moves| - 1].fns else [])
  }

  function FiresOf(moves: seq<Move>): seq<Args> {
    if moves == [] then []
    else FiresOf(moves[..|moves| - 1]) + (if moves[|moves| - 1].Fire? then [moves[|moves| - 1].args] else [])
  }

  /** `s` goes through `fires` in order, each one or more times in a row; pass `j` belongs to fire `at[j]`. */
  ghost predicate InTurn(s: seq<Args>, fires: seq<Args>, at: seq<nat>) {
    && |at| == |s|
    && (forall j :: 0 <= j < |at| ==> at[j] < |fires| && s[j] == fires[at[j]])
    && (s != [] ==> at[0] == 0)
    && (forall j :: 0 < j < |at| ==> at[j] == at[j - 1] || at[j] == at[j - 1] + 1)
    && (fires != [] ==> s != [] && at[|at| - 1] == |fires| - 1)
  }

  ghost predicate Repeats(s: seq<Args>, fires: seq<Args>) {
    exists at :: InTurn(s, fires, at)
  }

  lemma RepeatsNext(s: seq<Args>, fires: seq<Args>, a: Args)
    requires Repeats(s, fires)
    ensures Repeats(s + [a], fires + [a])
  {
    var at :| InTurn(s, fires, at);
    var next: nat := |fires|;
    assert InTurn(s + [a], fires + [a], at + [next]);
  }

  lemma RepeatsLast(s: seq<Args>, fires: seq<Args>)
    requires Repeats(s, fires) && s != []
    ensures Repeats(s + [s[|s| - 1]], fires)
  {
    var at :| InTurn(s, fires, at);
    var last: nat := at[|s| - 1];
    assert fires != [];
    assert InTurn(s + [s[|s| - 1]], fires, at + [last]);
  }

  lemma RepeatsNone(s: seq<Args>, fires: seq<Args>)
    requires Repeats(s, fires)
    ensures s == [] <==> fires == []
  {
  }

  /** A "once" list takes the first fire only. */
  function Taken(opts: Options, fires: seq<Args>): seq<Args> {
    if opts.once && fires != [] then fires[..1] else fires
  }

  /** At rest the memory is the last fire whose pass has started. */
  predicate Remembers(l: List) {
    !l.firing && l.memory.Some? ==> l.log.started != [] && l.memory.value == l.log.started[|l.log.started| - 1]
  }

  /** The passes started and those queued: each fire taken has its pass, and `add` may have repeated it. */
  ghost predicate RunsFires(l: List, fires: seq<Args>) {
    && l.locked == (l.opts.once && fires != [])
    && Repeats(l.log.started + l.queue, Taken(l.opts, fires))
    && (!l.opts.memory ==> l.log.started + l.queue == Taken(l.opts, fires))
    && Remembers(l)
  }

  /** What `add` does to the passes: on a list at rest with a memory it starts one more, with the memory. */
  lemma AddPasses(l: List, fns: seq<Fn>)
    requires Ok(l)
    ensures var r := DoAdd(l, fns);
      && r.opts == l.opts && r.queue == l.queue
      && if Refires(l) then r.firing && r.log.started == l.log.started + [l.memory.value]
        && r.locked == (l.locked || l.opts.once)
         else r.firing == l.firing && r.memory == l.memory && r.log.started == l.log.started && r.locked == l.locked
  {
    PushAllKeepsQueue(l, fns);
    if Refires(l) { PushAllKeepsQueue(Rewind(l), fns); }
  }

  lemma RemembersStep(l: List, m: Move)
    requires Ok(l) && Remembers(l)
    ensures Remembers(Step(l, m)) && Step(l, m).opts == l.opts
  {
    match m
    case Add(fns) => AddPasses(l, fns);
    case Remove(fns) => RemoveKeepsRest(l, fns);
    case _ =>
  }

  lemma FirePasses(l: List, fires: seq<Args>, a: Args)
    requires Ok(l) && RunsFires(l, fires)
    ensures RunsFires(DoFire(l, a), fires + [a])
  {
    var s := l.log.started + l.queue;
    if l.locked {
      assert (fires + [a])[..1] == fires[..1];
    } else {
      RepeatsNext(s, Taken(l.opts, fires), a);
      assert Taken(l.opts, fires + [a]) == Taken(l.opts, fires) + [a];
      assert l.log.started + (l.queue + [a]) == s + [a];
      var r := DoFire(l, a);
      assert r.log.started + r.queue == s + [a];
    }
  }

  lemma TurnPasses(l: List, m: Move)
    requires Ok(l) && (m.Turn? || m.ReturnFalse? || m.Empty?)
    ensures var r := Step(l, m);
      r.log.started + r.queue == l.log.started + l.queue && r.locked == l.locked && r.opts == l.opts
  {
  }

  lemma RunsFiresStep(l: List, fires: seq<Args>, m: Move)
    requires Ok(l) && RunsFires(l, fires) && m != Lock && m != Disable
    ensures RunsFires(Step(l, m), if m.Fire? then fires + [m.args] else fires)
  {
    RemembersStep(l, m);
    match m
    case Add(fns) =>
      AddPasses(l, fns);
      if Refires(l) {
        RepeatsNone(l.log.started + l.queue, Taken(l.opts, fires));
        RepeatsLast(l.log.started + l.queue, Taken(l.opts, fires));
        var r, s := DoAdd(l, fns), l.log.started;
        assert s + l.queue == s && r.log.started + r.queue == s + [s[|s| - 1]];
      }
    case Remove(fns) =>
      RemoveKeepsRest(l, fns);
      assert Step(l, m).log.started == l.log.started && Step(l, m).queue == l.queue;
    case Fire(args) => FirePasses(l, fires, args);
    case _ => TurnPasses(l, m);
  }

  lemma NothingRun(opts: Options)
    ensures RunsFires(New(opts), [])
  {
    assert InTurn([], [], []);
    assert New(opts).log.started + New(opts).queue == [];
  }

  lemma NewListOk(opts: Options)
    ensures Ok(New(opts))
  {
  }

  lemma RunsRemembers(l: List, fires: seq<Args>)
    requires RunsFires(l, fires)
    ensures Remembers(l)
  {
  }

  lemma FiresLast(moves: seq<Move>)
    requires moves != []
    ensures var k := |moves| - 1;
      FiresOf(moves) == if moves[k].Fire? then FiresOf(moves[..k]) + [moves[k].args] else FiresOf(moves[..k])
  {
  }

  lemma RunLast(l: List, moves: seq<Move>)
    requires Ok(l) && moves != []
    ensures var k := |moves| - 1; Run(l, moves) == Step(Run(l, moves[..k]), moves[k])
  {
  }

  /**
   As long as a list is neither locked nor disabled, its passes follow its fires in order: one pass for each fire,
   and on a list with memory perhaps more, each repeating the one before it, for functions added at rest. A "once"
   list does so for its first fire only.
   */
  lemma {:induction false} FiresRunInOrder(opts: Options, moves: seq<Move>)
    requires Lock !in moves && Disable !in moves
    ensures Run(New(opts), moves).opts == opts && RunsFires(Run(New(opts), moves), FiresOf(moves))
    decreases |moves|
  {
    if moves == [] {
      NothingRun(opts);
    } else {
      hide RunsFires, New, Step, Ok;
      var k := |moves| - 1;
      assert moves[k] in moves;
      NewListOk(opts);
      FiresRunInOrder(opts, moves[..k]);
      RunLast(New(opts), moves);
      FiresLast(moves);
      RunsRemembers(Run(New(opts), moves[..k]), FiresOf(moves[..k]));
      RemembersStep(Run(New(opts), moves[..k]), moves[k]);
      RunsFiresStep(Run(New(opts), moves[..k]), FiresOf(moves[..k]), moves[k]);
    }
  }

  /** `s` is `base`, then perhaps its last element again and again. */
  predicate Echoes(base: seq<Args>, s: seq<Args>) {
    |base| <= |s| && s[..|base|] == base && forall j :: |base| <= j < |s| ==> base != [] && s[j] == base[|base| - 1]
  }

  lemma EchoesOn(base: seq<Args>, s: seq<Args>)
    requires Echoes(base, s) && s != []
    ensures Echoes(base, s + [s[|s| - 1]])
  {
    var r := s + [s[|s| - 1]];
    assert r[..|base|] == s[..|base|];
    assert |base| == |s| ==> s == base;
  }

  /** Nothing is queued, and every pass started since `base` repeats the last one of `base`. */
  predicate OnlyRepeats(l: List, base: seq<Args>) {
    l.locked && l.queue == [] && Remembers(l) && Echoes(base, l.log.started)
  }

  /** A locked list with nothing queued starts no pass but a repetition. */
  lemma StartsRepeat(l: List, m: Move)
    requires Ok(l) && l.locked && l.queue == [] && Remembers(l)
    ensures var r, s := Step(l, m), l.log.started;
      r.locked && r.queue == [] && (r.log.started == s || (s != [] && r.log.started == s + [s[|s| - 1]]))
  {
    match m
    case Add(fns) => AddPasses(l, fns);
    case Remove(fns) => RemoveKeepsRest(l, fns);
    case _ =>
  }

  lemma OnlyRepeatsStep(l: List, base: seq<Args>, m: Move)
    requires Ok(l) && OnlyRepeats(l, base)
    ensures OnlyRepeats(Step(l, m), base)
  {
    hide Echoes;
    RemembersStep(l, m);
    StartsRepeat(l, m);
    if l.log.started != [] { EchoesOn(base, l.log.started); }
  }

  lemma ShutOnce(l: List, m: Move)
    requires Ok(l) && Remembers(l) && (m == Lock || m == Disable)
    ensures OnlyRepeats(Step(l, m), l.log.started)
  {
    RemembersStep(l, m);
  }

  /**
   The first `lock` or `disable` drops what is queued and all later fires: from then on nothing is started but
   repetitions of the last pass, for functions added to a locked list with memory.
   */
  lemma {:induction false} ShutDropsFires(opts: Options, before: seq<Move>, shut: Move, after: seq<Move>)
    requires Lock !in before && Disable !in before && (shut == Lock || shut == Disable)
    ensures OnlyRepeats(Run(New(opts), before + [shut] + after), Run(New(opts), before).log.started)
    decreases |after|
  {
    var l0, base := New(opts), Run(New(opts), before).log.started;
    if after == [] {
      FiresRunInOrder(opts, before);
      RunSnoc(l0, before, shut);
      assert before + [shut] + [] == before + [shut];
      ShutOnce(Run(l0, before), shut);
    } else {
      var k := |after| - 1;
      ShutDropsFires(opts, before, shut, after[..k]);
      var moves := before + [shut] + after[..k];
      assert before + [shut] + after == moves + [after[k]];
      RunSnoc(l0, moves, after[k]);
      OnlyRepeatsStep(Run(l0, moves), base, after[k]);
    }
  }

  lemma DisabledStep(l: List, m: Move)
    requires Ok(l) && !l.enabled
    ensures var r := Step(l, m); !r.enabled && r.log.calls == l.log.calls && r.log.added == l.log.added
  {
    if m.Remove? { RemoveKeepsRest(l, m.fns); }
  }

  /** A disabled list stays disabled and calls nothing more. */
  lemma {:induction false} DisabledForGood(l: List, moves: seq<Move>)
    requires Ok(l) && !l.enabled
    ensures var r := Run(l, moves); !r.enabled && r.log.calls == l.log.calls && r.log.added == l.log.added
    decreases |moves|
  {
    if moves != [] {
      DisabledForGood(l, moves[..|moves| - 1]);
      DisabledStep(Run(l, moves[..|moves| - 1]), moves[|moves| - 1]);
    }
  }

  // ----- "once memory" lists -----

  const ONCE_MEMORY := Options(true, true, false, false)

  predicate Unrevoked(m: Move) { m.Add? || m.Fire? || m.Turn? || m.ReturnFalse? }

  /** The calls made and the entries ahead of the firing index are, together and in order, all additions. */
  ghost predicate OnceMemoryInv(l: List) {
    && l.opts == ONCE_MEMORY && l.enabled && l.queue == [] && l.locked == l.fired
    && (!l.fired ==> !l.firing && l.memory == None && l.log.calls == [] && l.log.started == [])
    && (l.fired ==> l.log.started != [] && l.memory == Some(l.log.started[0]))
    && (forall j :: 0 <= j < |l.log.calls| ==> l.log.calls[j].serial == j && l.log.calls[j].args == l.log.started[0])
    && -1 <= l.index < |l.items|
    && |l.log.calls| + |l.items| - (l.index + 1) == |l.log.added|
    && (forall j :: l.index < j < |l.items| ==> l.items[j].serial == |l.log.calls| + j - (l.index + 1))
    && (l.fired && !l.firing ==> l.items == [])
  }

  lemma {:induction false} PushAllPlain(l: List, fns: seq<Fn>)
    requires !l.opts.unique
    ensures var r := PushAll(l, fns);
      && r == l.(items := r.items, log := l.log.(added := l.log.added + fns))
      && |r.items| == |l.items| + |fns| && r.items[..|l.items|] == l.items
      && forall j :: |l.items| <= j < |r.items| ==>
        r.items[j] == Entry(fns[j - |l.items|], |l.log.added| + j - |l.items|)
    decreases |fns|
  {
    if fns != [] {
      PushAllPlain(PushOne(l, fns[0]), fns[1..]);
      assert l.log.added + fns == (l.log.added + [fns[0]]) + fns[1..];
      var r, p := PushAll(l, fns), PushOne(l, fns[0]);
      assert p.items[..|l.items|] == l.items;
      assert r.items[..|l.items|] == r.items[..|p.items|][..|l.items|];
      assert r.items[|l.items|] == r.items[..|p.items|][|l.items|];
    }
  }

  lemma OnceMemoryStep(l: List, m: Move)
    requires Ok(l) && OnceMemoryInv(l) && Unrevoked(m)
    ensures OnceMemoryInv(Step(l, m))
    ensures Step(l, m).log.added == l.log.added + if m.Add? then m.fns else []
    ensures l.fired ==> Step(l, m).fired && Step(l, m).log.started[0] == l.log.started[0]
    ensures !l.fired ==> Step(l, m).fired == m.Fire?
    ensures !l.fired && m.Fire? ==> Step(l, m).log.started[0] == m.args
  {
    if m.Add? {
      if Refires(l) { PushAllPlain(Rewind(l), m.fns); } else { PushAllPlain(l, m.fns); }
    }
  }

  lemma {:induction false} OnceMemoryRun(moves: seq<Move>)
    requires forall m :: m in moves ==> Unrevoked(m)
    ensures var l := Run(New(ONCE_MEMORY), moves);
      && OnceMemoryInv(l) && l.log.added == AddedBy(moves)
      && l.fired == (FiresOf(moves) != []) && (l.fired ==> l.log.started[0] == FiresOf(moves)[0])
    decreases |moves|
  {
    if moves != [] {
      OnceMemoryRun(moves[..|moves| - 1]);
      OnceMemoryStep(Run(New(ONCE_MEMORY), moves[..|moves| - 1]), moves[|moves| - 1]);
    }
  }

  /**
   On a "once memory" list that is never locked, disabled, emptied or removed from, the n-th call runs the n-th
   addition with the arguments of the first fire; when no pass is under way after a fire, all
   additions have been called.
   */
  lemma {:induction false} OnceMemoryCallsEachOnce(moves: seq<Move>)
    requires forall m :: m in moves ==> Unrevoked(m)
    ensures var l := Run(New(ONCE_MEMORY), moves);
      && |l.log.calls| <= |AddedBy(moves)|
      && (l.log.calls != [] ==> FiresOf(moves) != [])
      && (forall j :: 0 <= j < |l.log.calls| ==>
            l.log.calls[j].fn == AddedBy(moves)[j] && l.log.calls[j].args == FiresOf(moves)[0])
      && (FiresOf(moves) != [] && !l.firing ==> |l.log.calls| == |AddedBy(moves)|)
      && (FiresOf(moves) == [] ==> l.log.calls == [])
  {
    OnceMemoryRun(moves);
    RunInv(ONCE_MEMORY, moves);
  }

  // ----- remove -----

  function Without(items: seq<Entry>, fn: Fn): seq<Entry> {
    if items == [] then []
    else Without(items[..|items| - 1], fn) + if items[|items| - 1].fn == fn then [] else [items[|items| - 1]]
  }

  lemma {:induction false} WithoutConcat(a: seq<Entry>, b: seq<Entry>, fn: Fn)
    ensures Without(a + b, fn) == Without(a, fn) + Without(b, fn)
    decreases |b|
  {
    if b == [] {
      assert a + b == a;
    } else {
      var k := |b| - 1;
      assert (a + b)[..|a + b| - 1] == a + b[..k];
      WithoutConcat(a, b[..k], fn);
    }
  }

  ghost predicate SplitAs(r: List, l: List, fn: Fn)
    requires -1 <= l.index < |l.items|
  {
    && -1 <= r.index < |r.items|
    && r.items == Without(l.items, fn)
    && r.items[..r.index + 1] == Without(l.items[..l.index + 1], fn)
  }

  lemma {:induction false} WithoutSnoc(items: seq<Entry>, n: nat, fn: Fn)
    requires n < |items| && items[n].fn != fn && Without(items[..n], fn) == items[..n]
    ensures Without(items[..n + 1], fn) == items[..n + 1]
  {
    assert items[..n + 1][..n] == items[..n];
  }

  lemma {:induction false} WithoutSplice(items: seq<Entry>, n: nat, end: nat, fn: Fn)
    requires n < end <= |items| && items[n].fn == fn
    ensures Without(items[..end], fn) == Without((items[..n] + items[n + 1..])[..end - 1], fn)
  {
    assert items[..end] == items[..n] + ([items[n]] + items[n + 1..end]);
    assert (items[..n] + items[n + 1..])[..end - 1] == items[..n] + items[n + 1..end];
    WithoutConcat(items[..n], [items[n]] + items[n + 1..end], fn);
    WithoutConcat([items[n]], items[n + 1..end], fn);
    WithoutConcat(items[..n], items[n + 1..end], fn);
    assert Without([items[n]], fn) == [];
  }

  lemma {:induction false} SpliceSplits(l: List, fn: Fn, n: nat)
    requires -1 <= l.index < |l.items| && n < |l.items| && l.items[n].fn == fn
    ensures var r := RemoveAt(l, n);
      && -1 <= r.index < |r.items|
      && Without(r.items, fn) == Without(l.items, fn)
      && Without(r.items[..r.index + 1], fn) == Without(l.items[..l.index + 1], fn)
  {
    hide Without;
    var spliced := RemoveAt(l, n).items;
    WithoutSplice(l.items, n, |l.items|, fn);
    assert l.items[..|l.items|] == l.items && spliced[..|l.items| - 1] == spliced;
    if n <= l.index {
      WithoutSplice(l.items, n, l.index + 1, fn);
    } else {
      assert spliced[..l.index + 1] == l.items[..l.index + 1];
    }
  }

  lemma {:induction false} WithoutShrinks(items: seq<Entry>, fn: Fn)
    ensures |Without(items, fn)| <= |items|
    decreases |items|
  {
    if items != [] { WithoutShrinks(items[..|items| - 1], fn); }
  }

  lemma {:induction false} WithoutFixed(items: seq<Entry>, k: nat, fn: Fn)
    requires k <= |items| && Without(items, fn) == items
    ensures Without(items[..k], fn) == items[..k]
  {
    WithoutConcat(items[..k], items[k..], fn);
    assert items == items[..k] + items[k..];
    WithoutShrinks(items[..k], fn);
    WithoutShrinks(items[k..], fn);
  }

  /**
   `remove` takes out every copy of the function and nothing else, and moves the firing index so that it
   separates the same survivors: those it had passed stay behind it, those ahead stay ahead.
   */
  lemma {:induction false} RemoveSplitsAtIndex(l: List, fn: Fn, n: nat)
    requires -1 <= l.index < |l.items| && n <= |l.items|
    requires Without(l.items[..n], fn) == l.items[..n]
    ensures SplitAs(RemoveFrom(l, fn, n), l, fn)
    decreases |l.items| - n
  {
    hide Without;
    if n >= |l.items| {
      assert l.items[..n] == l.items;
      WithoutFixed(l.items, l.index + 1, fn);
    } else if l.items[n].fn == fn {
      var r := RemoveAt(l, n);
      assert r.items[..n] == l.items[..n];
      RemoveSplitsAtIndex(r, fn, n);
      SpliceSplits(l, fn, n);
    } else {
      WithoutSnoc(l.items, n, fn);
      RemoveSplitsAtIndex(l, fn, n + 1);
    }
  }

  // ----- nothing that has happened is undone -----

  predicate Grows(l: List, r: List) {
    && (l.fired ==> r.fired) && (r.enabled ==> l.enabled)
    && l.log.added <= r.log.added && l.log.calls <= r.log.calls && l.log.started <= r.log.started
  }

  lemma {:induction false} PushAllGrows(l: List, fns: seq<Fn>)
    ensures Grows(l, PushAll(l, fns))
    decreases |fns|
  {
    if fns != [] { PushAllGrows(if l.opts.unique && Has(l.items, fns[0]) then l else PushOne(l, fns[0]), fns[1..]); }
  }

  lemma StepGrows(l: List, m: Move)
    requires Ok(l)
    ensures Grows(l, Step(l, m))
  {
    match m
    case Add(fns) =>
      PushAllGrows(l, fns);
      if Refires(l) {
        PushAllGrows(Rewind(l), fns);
        PushAllKeepsQueue(Rewind(l), fns);
      }
    case Remove(fns) => RemoveKeepsRest(l, fns);
    case _ =>
  }
}
