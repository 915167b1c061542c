/**
 The loop of `k.when` runs to its end before any user code does: whoever has the promise has it after the handlers
 have been added to all inputs (Mypintool/doc/html/jquery.js, line 2).
 */
module WhenLoop {
  import opened Optional
  import opened Values
  import opened CallbackList
  import opened CallbackRuns
  import opened Deferreds
  import opened DeferredRuns
  import opened DeferredWorld
  import opened WhenRuns
  import opened WhenSteps
  import opened WhenLaws
  import opened WhenOrder

  // ----- the invariant -----

  ghost predicate InLoop(w: World) { exists i :: 0 <= i < |w.stack| && GatherFrame(w.stack[i]) }

  predicate NoUsers(added: seq<Fn>) { forall j :: 0 <= j < |added| ==> !added[j].User? }

  /** Nobody has added anything to the deferred that `k.when` makes. */
  ghost predicate Private(w: World) {
    MASTER < |w.ds| && forall role :: Settles(role) ==> NoUsers(Added(w, MASTER, role))
  }

  /** A pass of one handler, or what is left of it. */
  ghost predicate Tame(l: List) { Spent(l) || exists fn, a :: Handler(fn) && SoloPass(l, fn, a) }

  ghost predicate TameFrame(w: World, f: Frame) {
    && f.Firing? && f.d < |w.ds| && Settles(f.role)
    && (f.d != MASTER ==> Watched(f.role) && Tame(Get(w.ds[f.d], f.role)))
  }

  ghost predicate LoopQuiet(w: World) {
    && (w.when.None? || InLoop(w) ==> Private(w))
    && forall i, j :: 0 <= i < j < |w.stack| && GatherFrame(w.stack[i]) ==> TameFrame(w, w.stack[j])
  }

  // ----- what adds nothing -----

  ghost predicate SameAdded(w: World, r: World) {
    |r.ds| == |w.ds| && MASTER < |w.ds| && forall role :: Added(r, MASTER, role) == Added(w, MASTER, role)
  }

  /** At most one frame more, and not one of the loop. */
  predicate Grown(s: seq<Frame>, t: seq<Frame>) {
    t == s || (|t| == |s| + 1 && t[..|s|] == s && !GatherFrame(t[|s|]))
  }

  lemma StepAdded(l: List, m: Move)
    requires Ok(l) && (m.Turn? || m.Fire? || m.Disable? || m.Lock?)
    ensures Step(l, m).log.added == l.log.added
  {
  }

  lemma ApplyAdded(w: World, d: nat, role: Role, m: Move)
    requires d < |w.ds| && Ok(Get(w.ds[d], role)) && MASTER < |w.ds|
    requires m.Turn? || m.Fire? || m.Disable? || m.Lock? || (m.Add? && d != MASTER)
    ensures var r := Apply(w, d, role, m); SameAdded(w, r) && Grown(w.stack, r.stack) && r.when == w.when
    ensures forall e: nat :: e < |w.ds| && e != d ==> Apply(w, d, role, m).ds[e] == w.ds[e]
  {
    var l := Get(w.ds[d], role);
    if !m.Add? { StepAdded(l, m); }
    hide Ok, Step;
    GetSet(w.ds[d], role, Step(l, m));
  }

  lemma CountAdded(w: World, t: nat, args: Args)
    requires AllOk(w) && MASTER < |w.ds|
    ensures var r := Count(w, t, args);
      && SameAdded(w, r) && Grown(w.stack, r.stack) && r.when.Some? == w.when.Some?
      && (forall e: nat :: e < |w.ds| && e != MASTER ==> r.ds[e] == w.ds[e])
      && (r.stack != w.stack ==> r.stack[|w.stack|] == Firing(MASTER, Done))
  {
    hide Ok, Step;
    if w.when.Some? && t < |w.when.value.contexts| && t < |w.when.value.values| {
      var v := w.when.value;
      var v' := v.(contexts := v.contexts[t := args.context], values := v.values[t := Collected(args)],
                   remaining := v.remaining - 1, open := v.open - {t});
      assert Ok(Get(w.(when := Some(v')).ds[MASTER], Done));
      ApplyAdded(w.(when := Some(v')), MASTER, Done, Fire(Args(Arr(v'.contexts), v'.values)));
    }
  }

  lemma RejectAdded(w: World, args: Args)
    requires AllOk(w) && MASTER < |w.ds|
    ensures var r := RejectMaster(w, args);
      && SameAdded(w, r) && Grown(w.stack, r.stack) && r.when.Some? == w.when.Some?
      && (forall e: nat :: e < |w.ds| && e != MASTER ==> r.ds[e] == w.ds[e])
      && (r.stack != w.stack ==> r.stack[|w.stack|] == Firing(MASTER, Fail))
  {
    hide Ok, Step;
    var w' := if w.when.None? then w
              else w.(when := Some(w.when.value.(rejections := w.when.value.rejections + [args])));
    assert Ok(Get(w'.ds[MASTER], Fail));
    ApplyAdded(w', MASTER, Fail, Fire(args));
  }

  lemma InvokeAdded(w: World, d: nat, role: Role, fn: Fn, args: Args)
    requires AllOk(w) && MASTER < |w.ds|
    ensures var r := Invoke(w, d, role, fn, args);
        SameAdded(w, r) && Grown(w.stack, r.stack) && r.when.Some? == w.when.Some?
  {
    hide Ok, Apply, Count;
    match fn
    case User(_) =>
    case SetState(e, to) =>
    case DisableList(e, o) => if e < |w.ds| { assert Ok(Get(w.ds[e], o)); ApplyAdded(w, e, o, Disable); }
    case LockList(e, o) => if e < |w.ds| { assert Ok(Get(w.ds[e], o)); ApplyAdded(w, e, o, Lock); }
    case FireList(e, o) =>
      if e == MASTER && o == Fail {
        RejectAdded(w, args);
      } else if e < |w.ds| {
        assert Ok(Get(w.ds[e], o));
        ApplyAdded(w, e, o, Fire(args));
      }
    case CountDown(t) => CountAdded(w, t, args);
  }

  lemma FiringAdded(w: World, d: nat, role: Role)
    requires AllOk(w) && MASTER < |w.ds| && d < |w.ds| && w.stack != []
    ensures var r := FiringStep(w, d, role);
      SameAdded(w, r) && r.when.Some? == w.when.Some?
        && (Grown(w.stack, r.stack) || r.stack == w.stack[..|w.stack| - 1])
  {
    hide Ok, Step, Invoke;
    var l := Get(w.ds[d], role);
    var w1 := SetList(w, d, role, Step(l, Turn));
    StepOk(l, Turn);
    GetSet(w.ds[d], role, Step(l, Turn));
    StepAdded(l, Turn);
    if Calls(l) {
      FiringStarted(l);
      InvokeAdded(w1, d, role, NextCall(l).fn, NextCall(l).args);
    }
  }

  // ----- outside the loop -----

  lemma StaysPrivate(w: World, r: World)
    requires Private(w) && SameAdded(w, r)
    ensures Private(r)
  {
    forall role | Settles(role) ensures NoUsers(Added(r, MASTER, role)) { assert NoUsers(Added(w, MASTER, role)); }
  }

  lemma SameWorldAdded(w: World, r: World)
    requires w.ds == r.ds && MASTER < |w.ds|
    ensures SameAdded(w, r)
  {
  }

  lemma OutsideStays(w: World, r: World)
    requires LoopQuiet(w) && !InLoop(w) && SameAdded(w, r) && r.when.Some? == w.when.Some?
    requires Grown(w.stack, r.stack) || (w.stack != [] && r.stack == w.stack[..|w.stack| - 1])
    ensures LoopQuiet(r)
  {
    hide Private;
    if w.when.None? { StaysPrivate(w, r); }
    forall i | 0 <= i < |r.stack| ensures !GatherFrame(r.stack[i]) {
      assert i < |w.stack| ==> r.stack[i] == w.stack[i];
    }
  }

  lemma OutsideAdd(w: World, d: nat, role: Role, m: Move)
    requires AllOk(w) && MASTER < |w.ds| && LoopQuiet(w) && !InLoop(w) && d < |w.ds| && (d != MASTER || w.when.Some?)
    requires m.Fire? || m.Add?
    ensures Ok(Get(w.ds[d], role)) && LoopQuiet(Apply(w, d, role, m))
  {
    hide Ok, Private, Step;
    assert Ok(Get(w.ds[d], role));
    if d != MASTER {
      ApplyAdded(w, d, role, m);
      OutsideStays(w, Apply(w, d, role, m));
    }
  }

  /** Outside the loop nothing enters it but the call of `k.when`. */
  lemma OutsideStep(w: World, e: Event)
    requires AllOk(w) && MASTER < |w.ds| && LoopQuiet(w) && !InLoop(w)
    ensures LoopQuiet(WorldStep(w, e))
  {
    hide Ok, Apply, Private, FiringStep;
    var r := WorldStep(w, e);
    match e
    case Internal =>
      if w.stack != [] {
        match w.stack[|w.stack| - 1]
        case Firing(d, role) =>
          if d < |w.ds| {
            FiringAdded(w, d, role);
            OutsideStays(w, r);
          }
        case _ =>
      }
    case ApiAdd(d, role, ids) =>
      if UserRuns(w) && d < |w.ds| && (d != MASTER || w.when.Some?) { OutsideAdd(w, d, role, Add(UserFns(ids))); }
    case ApiFire(d, role, args) =>
      if UserRuns(w) && MASTER < d < |w.ds| && FirstRole(role) { OutsideAdd(w, d, role, Fire(args)); }
    case ApiReturn =>
      if UserRuns(w) && w.stack != [] { SameWorldAdded(w, r); OutsideStays(w, r); }
    case ApiWhen(inputs) =>
      if UserRuns(w) && w.when.None? && GoodInputs(w, inputs) {
        SameWorldAdded(w, r);
        StaysPrivate(w, r);
      }
  }

  // ----- inside the loop -----

  /** What is called inside the loop: functions that touch the deferred of `k.when` only. */
  predicate MasterCall(fn: Fn) {
    match fn
    case User(_) => false
    case SetState(e, _) => e == MASTER
    case DisableList(e, _) => e == MASTER
    case LockList(e, _) => e == MASTER
    case FireList(e, role) => e == MASTER && Settles(role)
    case CountDown(_) => true
  }

  lemma ShutSteps(l: List)
    requires Ok(l)
    ensures Step(l, Disable).firing == l.firing && Step(l, Lock).firing == l.firing
  {
  }

  lemma InvokeMaster(w: World, d: nat, role: Role, fn: Fn, args: Args)
    requires AllOk(w) && MASTER < |w.ds| && MasterCall(fn)
    ensures var r := Invoke(w, d, role, fn, args);
      && SameAdded(w, r) && Grown(w.stack, r.stack) && r.when.Some? == w.when.Some?
      && (forall e: nat :: e < |w.ds| && e != MASTER ==> r.ds[e] == w.ds[e])
      && (r.stack != w.stack ==>
        r.stack[|w.stack|].Firing? && r.stack[|w.stack|].d == MASTER && Settles(r.stack[|w.stack|].role))
  {
    hide Ok, Step, Count, RejectMaster;
    InvokeAdded(w, d, role, fn, args);
    match fn
    case SetState(e, to) =>
    case DisableList(e, o) => assert Ok(Get(w.ds[e], o)); ApplyAdded(w, e, o, Disable); ShutSteps(Get(w.ds[e], o));
    case LockList(e, o) => assert Ok(Get(w.ds[e], o)); ApplyAdded(w, e, o, Lock); ShutSteps(Get(w.ds[e], o));
    case FireList(e, o) =>
      if o == Fail {
        RejectAdded(w, args);
      } else {
        assert Ok(Get(w.ds[e], o));
        ApplyAdded(w, e, o, Fire(args));
      }
    case CountDown(t) => CountAdded(w, t, args);
  }

  /** The frames below the top stay tame when only the top list and the deferred of `k.when` change. */
  lemma BelowStays(w: World, r: World, j: nat, d: nat, role: Role)
    requires StackInv(w) && |r.ds| == |w.ds| && d < |w.ds| && MASTER < |w.ds|
    requires j < |w.stack| - 1 && w.stack[|w.stack| - 1] == Firing(d, role) && TameFrame(w, w.stack[j])
    requires forall e: nat, o :: MASTER < e < |w.ds| && (e != d || o != role) ==> Get(r.ds[e], o) == Get(w.ds[e], o)
    ensures TameFrame(r, w.stack[j])
  {
    hide Tame;
  }

  lemma MasterPermitted(role: Role, l: List)
    requires LocalInv(MASTER, role, l) && Settles(role) && NoUsers(l.log.added) && l.firing && Calls(l)
    ensures MasterCall(NextCall(l).fn)
  {
    var j := l.items[l.index + 1].serial;
    assert Permitted(MASTER, role, j, l.log.added[j]);
  }

  lemma PrivateRole(w: World, role: Role)
    requires Private(w) && Settles(role)
    ensures NoUsers(Added(w, MASTER, role))
  {
  }

  /** A turn of a pass started inside the loop. */
  lemma TameTurn(w: World, d: nat, role: Role)
    requires WorldInv(w) && InLoop(w) && LoopQuiet(w) && Top(w) == Some(Firing(d, role))
    requires TameFrame(w, Firing(d, role))
    ensures AllOk(w) && MASTER < |w.ds| && d < |w.ds|
    ensures var l, r := Get(w.ds[d], role), FiringStep(w, d, role);
      && SameAdded(w, r) && r.when.Some? == w.when.Some?
      && (forall e: nat, o :: MASTER < e < |w.ds| && (e != d || o != role) ==> Get(r.ds[e], o) == Get(w.ds[e], o))
      && (r.stack == w.stack[..|w.stack| - 1]
          || (&& (d != MASTER ==> Spent(Get(r.ds[d], role)))
              && (r.stack == w.stack || (&& |r.stack| == |w.stack| + 1 && r.stack[..|w.stack|] == w.stack
                                         && TameFrame(r, r.stack[|w.stack|])))))
  {
    hide DeferredInv, HeadOnTop, StackInv, Invoke, DoTurn, LocalInv, Private;
    InvOk(w);
    TopInRange(w);
    WatchedLocal(w, d, role);
    var l := Get(w.ds[d], role);
    var w1 := SetList(w, d, role, DoTurn(l));
    GetSet(w.ds[d], role, DoTurn(l));
    StepOk(l, Turn);
    StepAdded(l, Turn);
    if d == MASTER {
      assert NoUsers(l.log.added) by { PrivateRole(w, role); }
      if Calls(l) { MasterPermitted(role, l); }
    } else if !Spent(l) {
      var fn, a :| Handler(fn) && SoloPass(l, fn, a);
      SoloTurn(d, role, l, fn, a);
    } else {
      SpentTurn(d, role, l);
    }
    if Calls(l) {
      FiringStarted(l);
      InvokeMaster(w1, d, role, NextCall(l).fn, NextCall(l).args);
    }
  }

  lemma TopIsTame(w: World)
    requires InLoop(w) && LoopQuiet(w) && w.stack != [] && !GatherFrame(w.stack[|w.stack| - 1])
    ensures TameFrame(w, w.stack[|w.stack| - 1])
  {
    var i :| 0 <= i < |w.stack| && GatherFrame(w.stack[i]);
  }

  lemma TopStays(w: World, r: World, d: nat, role: Role)
    requires TameFrame(w, Firing(d, role)) && |r.ds| == |w.ds| && (d != MASTER ==> Spent(Get(r.ds[d], role)))
    ensures TameFrame(r, Firing(d, role))
  {
  }

  lemma InsideFiring(w: World, d: nat, role: Role)
    requires WorldInv(w) && InLoop(w) && LoopQuiet(w) && Top(w) == Some(Firing(d, role))
    ensures AllOk(w) && MASTER < |w.ds| && d < |w.ds| && LoopQuiet(FiringStep(w, d, role))
  {
    hide AllDeferreds, StackInv, HeadOnTop, FiringStep, Private, TameFrame, Tame;
    TopIsTame(w);
    TameTurn(w, d, role);
    var r := FiringStep(w, d, role);
    StaysPrivate(w, r);
    forall i, j | 0 <= i < j < |r.stack| && GatherFrame(r.stack[i]) ensures TameFrame(r, r.stack[j]) {
      if j < |w.stack| {
        assert r.stack[i] == w.stack[i] && r.stack[j] == w.stack[j];
        if j < |w.stack| - 1 { BelowStays(w, r, j, d, role); } else { TopStays(w, r, d, role); }
      }
    }
  }

  /** No frame of the loop stands below the one on top. */
  lemma OneLoop(w: World)
    requires WhenInv(w) && w.when.Some? && w.stack != [] && GatherFrame(w.stack[|w.stack| - 1])
    ensures InLoop(w) && forall i :: 0 <= i < |w.stack| - 1 ==> !GatherFrame(w.stack[i])
  {
    hide CountInv, RejectInv, MasterInv;
  }

  lemma HandlerAdds(w: World, f: Frame, d: nat, role: Role, fn: Fn)
    requires AllDeferreds(w) && AllOk(w) && MASTER < d < |w.ds| && w.stack != [] && Watched(role) && Handler(fn)
    ensures var r := Apply(Replace(w, f), d, role, Add([fn]));
      && SameAdded(w, r) && r.when == w.when
      && (r.stack == Replace(w, f).stack || (r.stack == Replace(w, f).stack + [Firing(d, role)]
        && TameFrame(r, Firing(d, role))))
  {
    hide DeferredInv, Ok, LocalInv, DoAdd, SoloPass;
    var l := Get(w.ds[d], role);
    assert Ok(l);
    WatchedLocal(w, d, role);
    AddRefires(d, role, l, fn);
    ApplyAdded(Replace(w, f), d, role, Add([fn]));
    GetSet(w.ds[d], role, DoAdd(l, [fn]));
  }

  /** The loop itself: it pushes passes of its handlers, or leaves. */
  lemma InsideGather(w: World)
    requires WorldInv(w) && WhenInv(w) && w.when.Some? && LoopQuiet(w) && Top(w) == Some(Gathering)
    ensures AllOk(w) && MASTER < |w.ds| && LoopQuiet(GatherStep(w))
  {
    hide DeferredInv, StackInv, HeadOnTop, CountInv, RejectInv, MasterInv, Private, Tame, Apply, Count;
    InvOk(w);
    MasterSized(w);
    var v, r := w.when.value, GatherStep(w);
    OneLoop(w);
    if v.t > 0 {
      var t := v.t - 1;
      var w' := w.(when := Some(v.(t := t)));
      match v.inputs[t]
      case Plain(x) =>
        CountAdded(w', t, Args(Undefined, [x]));
        StaysPrivate(w, r);
      case Promise(d) =>
        HandlerAdds(w', GatheringFail, d, Done, CountDown(t));
        StaysPrivate(w, r);
    }
  }

  lemma InsideGatherFail(w: World)
    requires WorldInv(w) && WhenInv(w) && w.when.Some? && LoopQuiet(w) && Top(w) == Some(GatheringFail)
    ensures AllOk(w) && MASTER < |w.ds| && LoopQuiet(GatherFailStep(w))
  {
    hide DeferredInv, StackInv, HeadOnTop, CountInv, RejectInv, MasterInv, Private, Tame, Apply;
    InvOk(w);
    MasterSized(w);
    var v, r := w.when.value, GatherFailStep(w);
    OneLoop(w);
    if v.t < |v.inputs| && v.inputs[v.t].Promise? {
      HandlerAdds(w, Gathering, v.inputs[v.t].d, Fail, FireList(MASTER, Fail));
      StaysPrivate(w, r);
    }
  }

  lemma InvOkAll(w: World)
    requires WorldInv(w)
    ensures AllOk(w) && MASTER < |w.ds|
  {
    hide DeferredInv;
    InvOk(w);
  }

  lemma LoopHasWhen(w: World)
    requires WhenInv(w) && InLoop(w)
    ensures w.when.Some?
  {
    hide LoopInv, CountInv, RejectInv, MasterInv;
    var i :| 0 <= i < |w.stack| && GatherFrame(w.stack[i]);
    assert w.stack[i] in w.stack;
  }

  lemma LoopIsBusy(w: World)
    requires LoopQuiet(w) && InLoop(w)
    ensures Busy(w)
  {
    if !GatherFrame(w.stack[|w.stack| - 1]) { TopIsTame(w); }
  }

  lemma InsideStep(w: World, e: Event)
    requires WorldInv(w) && WhenInv(w) && LoopQuiet(w) && InLoop(w)
    ensures AllOk(w) && MASTER < |w.ds| && LoopQuiet(WorldStep(w, e))
  {
    hide AllDeferreds, StackInv, HeadOnTop, FiringStep, GatherStep, GatherFailStep, LoopInv, LoopQuiet, CountInv;
    hide RejectInv, MasterInv;
    InvOkAll(w);
    LoopHasWhen(w);
    LoopIsBusy(w);
    OnlyInternal(w, e);
    if e == Internal {
      match w.stack[|w.stack| - 1]
      case Firing(d, role) => InsideFiring(w, d, role);
      case Gathering => InsideGather(w);
      case GatheringFail => InsideGatherFail(w);
    }
  }

  // ----- every run -----

  lemma NewSeconds(d: nat)
    ensures NewDeferred(d).done2.log.added == [] && NewDeferred(d).fail2.log.added == []
  {
    hide DoAdd;
  }

  lemma NewQuiet(n: nat)
    requires n > MASTER
    ensures LoopQuiet(NewWorld(n))
  {
    hide NewDeferred;
    NewAdded(MASTER);
    NewSeconds(MASTER);
    forall role | Settles(role) ensures NoUsers(Added(NewWorld(n), MASTER, role)) {}
  }

  lemma {:induction false} RunQuiet(run: Run, n: nat, i: nat)
    requires IsRun(run, n) && i < |run.states|
    ensures LoopQuiet(run.states[i])
    decreases i
  {
    hide WorldInv, WhenInv, LoopQuiet, WorldStep, NewWorld, InLoop;
    if i == 0 {
      NewQuiet(n);
    } else {
      var k := i - 1;
      RunQuiet(run, n, k);
      RunKeepsWhen(run, n, k);
      assert Steps(run.states[k], run.events[k], run.states[k + 1]);
      var w := run.states[k];
      InvOkAll(w);
      if InLoop(w) { InsideStep(w, run.events[k]); } else { OutsideStep(w, run.events[k]); }
    }
  }

  /** When user code runs, the loop of `k.when` is over: all its handlers have been added. */
  lemma UserRunsAfterLoop(run: Run, n: nat, i: nat)
    requires IsRun(run, n) && i < |run.states| && UserRuns(run.states[i])
    ensures Gathering !in run.states[i].stack && GatheringFail !in run.states[i].stack
    ensures run.states[i].when.Some? ==> run.states[i].when.value.t == 0
  {
    hide NewWorld, WorldStep, WorldInv, LoopQuiet, CountInv, RejectInv, MasterInv;
    RunQuiet(run, n, i);
    RunKeepsWhen(run, n, i);
    var w := run.states[i];
    if InLoop(w) { LoopIsBusy(w); }
  }
}
