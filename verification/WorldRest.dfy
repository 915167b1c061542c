/**
 Code comes to rest: when callbacks return without calling the API, every run of deferreds goes on to a state in
 which no code is running (Mypintool/doc/html/jquery.js, line 2).
 */
module WorldRest {
  import opened Optional
  import opened Values
  import opened CallbackList
  import opened CallbackRuns
  import opened Deferreds
  import opened DeferredRuns
  import opened DeferredWorld

  // ----- how much is left to do -----

  /** Functions of the list that no pass has called. */
  function Left(l: List): nat {
    if |l.log.calls| < |l.log.added| then |l.log.added| - |l.log.calls| else 0
  }

  function LeftOf(x: Deferred): nat { Left(x.done) + Left(x.done2) + Left(x.fail) + Left(x.fail2) }

  /** Items that the pass under way has not come to. */
  function ItemsAhead(l: List): nat {
    if l.firing && -1 <= l.index < |l.items| - 1 then |l.items| - 1 - l.index else 0
  }

  function Queued(x: Deferred): nat { |x.progress.queue| }
  function Ahead1(x: Deferred): nat { ItemsAhead(x.progress) }
  function Queued2(x: Deferred): nat { |x.progress2.queue| }
  function Ahead2(x: Deferred): nat { ItemsAhead(x.progress2) }

  function Total(ds: seq<Deferred>, f: Deferred -> nat): nat {
    if ds == [] then 0 else f(ds[0]) + Total(ds[1..], f)
  }

  function Weight(f: Frame): nat { if f == GatheringFail then 4 else 0 }

  function Waiting(stack: seq<Frame>): nat {
    if stack == [] then 0 else Waiting(stack[..|stack| - 1]) + Weight(stack[|stack| - 1])
  }

  function Positions(w: World): nat { if w.when.None? then 0 else w.when.value.t }

  /** Callbacks to be called for settling, and positions of `k.when` to be looked at. */
  function Debt(w: World): nat { 2 * Total(w.ds, LeftOf) + Waiting(w.stack) + 8 * Positions(w) }

  predicate LessSecond(r: World, w: World) {
    || Total(r.ds, Queued2) < Total(w.ds, Queued2)
    || (Total(r.ds, Queued2) == Total(w.ds, Queued2) &&
        (|| Total(r.ds, Ahead2) < Total(w.ds, Ahead2)
         || (Total(r.ds, Ahead2) == Total(w.ds, Ahead2) && |r.stack| < |w.stack|)))
  }

  /**
   The step from `w` to `r` has called a settling function or looked at an input; if not, it has taken something
   off the work of the first progress lists, then of the second ones, then off the stack.
   */
  predicate Less(r: World, w: World) {
    || Debt(r) < Debt(w)
    || (Debt(r) == Debt(w) &&
        (|| Total(r.ds, Queued) < Total(w.ds, Queued)
         || (Total(r.ds, Queued) == Total(w.ds, Queued) &&
             (|| Total(r.ds, Ahead1) < Total(w.ds, Ahead1)
              || (Total(r.ds, Ahead1) == Total(w.ds, Ahead1) && LessSecond(r, w))))))
  }

  lemma {:induction false} TotalPut(ds: seq<Deferred>, d: nat, x: Deferred, f: Deferred -> nat)
    requires d < |ds|
    ensures Total(ds[d := x], f) + f(ds[d]) == Total(ds, f) + f(x)
    decreases d
  {
    if d == 0 {
      assert ds[0 := x][1..] == ds[1..];
    } else {
      assert ds[d := x][1..] == ds[1..][d - 1 := x];
      TotalPut(ds[1..], d - 1, x, f);
    }
  }

  lemma WaitingPush(stack: seq<Frame>, f: Frame)
    ensures Waiting(stack + [f]) == Waiting(stack) + Weight(f)
  {
    assert (stack + [f])[..|stack|] == stack;
  }

  // ----- steps that only push -----

  /** Whether a deferred other than the master has been resolved or rejected does not change. */
  predicate Unsettled(w: World, r: World)
    requires |r.ds| == |w.ds|
  {
    forall d: nat :: MASTER < d < |w.ds| ==>
      r.ds[d].done.fired == w.ds[d].done.fired && r.ds[d].fail.fired == w.ds[d].fail.fired
  }

  /** Nothing added, nothing called, no deferred but the master fired by hand. */
  predicate Pushes(w: World, r: World) {
    && |r.ds| == |w.ds| && Debt(r) == Debt(w) && Positions(r) == Positions(w) && (r.when.Some? == w.when.Some?)
    && Unsettled(w, r)
  }

  lemma FireLeaves(l: List, m: Move)
    requires Ok(l) && (m.Fire? || m.Disable? || m.Lock?)
    ensures Left(Step(l, m)) == Left(l) && (!m.Fire? ==> Step(l, m).firing == l.firing && Step(l, m).fired == l.fired)
  {
    if m.Fire? { FireFrame(l, m.args); }
  }

  lemma ApplyPushes(w: World, d: nat, role: Role, m: Move)
    requires d < |w.ds| && Ok(Get(w.ds[d], role)) && (m.Fire? || m.Disable? || m.Lock?)
    requires m.Fire? ==> Settles(role) && (d == MASTER || (role != Done && role != Fail))
    ensures Pushes(w, Apply(w, d, role, m))
  {
    hide Ok, Step, Total, Left, Waiting;
    var l := Get(w.ds[d], role);
    FireLeaves(l, m);
    GetSet(w.ds[d], role, Step(l, m));
    TotalPut(w.ds, d, Set(w.ds[d], role, Step(l, m)), LeftOf);
    WaitingPush(w.stack, Firing(d, role));
  }

  lemma PushesOn(a: World, b: World, c: World)
    requires Pushes(a, b) && b.ds == c.ds && b.stack == c.stack && Positions(b) == Positions(c)
    requires b.when.Some? == c.when.Some?
    ensures Pushes(a, c)
  {
  }

  lemma Nothing(w: World)
    ensures Pushes(w, w)
  {
  }

  lemma SameStart(a: World, b: World, c: World)
    requires Pushes(b, c) && a.ds == b.ds && a.stack == b.stack && Positions(a) == Positions(b)
    requires a.when.Some? == b.when.Some?
    ensures Pushes(a, c)
  {
  }

  lemma CountPushes(w: World, t: nat, args: Args)
    requires AllOk(w) && MASTER < |w.ds|
    ensures Pushes(w, Count(w, t, args))
  {
    hide Apply, Total, Waiting, Ok;
    Nothing(w);
    if w.when.Some? && t < |w.when.value.contexts| && t < |w.when.value.values| {
      var v := w.when.value;
      var v' := v.(contexts := v.contexts[t := args.context], values := v.values[t := Collected(args)],
                   remaining := v.remaining - 1, open := v.open - {t});
      var w' := w.(when := Some(v'));
      assert AllOk(w') && Get(w'.ds[MASTER], Done) == Get(w.ds[MASTER], Done);
      if v'.remaining == 0 {
        ApplyPushes(w', MASTER, Done, Fire(Args(Arr(v'.contexts), v'.values)));
        SameStart(w, w', Count(w, t, args));
      } else {
        PushesOn(w, w, w');
      }
    }
  }

  /** What a pass over a settling list can call. */
  predicate SettlingCall(d: nat, fn: Fn) {
    match fn
    case User(_) => true
    case SetState(e, _) => true
    case DisableList(_, _) => true
    case LockList(_, _) => true
    case FireList(e, role) => role == Done2 || role == Fail2 || (e == MASTER && role == Fail)
    case CountDown(_) => true
  }

  lemma InvokePushes(w: World, d: nat, role: Role, fn: Fn, args: Args)
    requires AllOk(w) && MASTER < |w.ds| && SettlingCall(d, fn)
    ensures Pushes(w, Invoke(w, d, role, fn, args))
  {
    hide Apply, Count, Total, Waiting, Ok;
    Nothing(w);
    match fn
    case User(_) => WaitingPush(w.stack, Calling(d, role));
    case SetState(e, to) => if e < |w.ds| { TotalPut(w.ds, e, w.ds[e].(history := w.ds[e].history + [to]), LeftOf); }
    case DisableList(e, o) => if e < |w.ds| { ApplyPushes(w, e, o, Disable); }
    case LockList(e, o) => if e < |w.ds| { ApplyPushes(w, e, o, Lock); }
    case FireList(e, o) =>
      if e == MASTER && o == Fail {
        var w' := if w.when.None? then w
                  else w.(when := Some(w.when.value.(rejections := w.when.value.rejections + [args])));
        assert AllOk(w');
        ApplyPushes(w', MASTER, Fail, Fire(args));
        SameStart(w, w', RejectMaster(w, args));
      } else if e < |w.ds| {
        ApplyPushes(w, e, o, Fire(args));
      }
    case CountDown(t) => CountPushes(w, t, args);
  }

  // ----- every step gets closer -----

  predicate Nearer(w: World, r: World) {
    |r.ds| == |w.ds| && Less(r, w) && (r.when.Some? == w.when.Some?) && Unsettled(w, r)
  }

  lemma CalledPermitted(d: nat, role: Role, l: List)
    requires LocalInv(d, role, l) && Settles(role) && l.firing && Calls(l)
    ensures SettlingCall(d, NextCall(l).fn)
  {
    var j := l.items[l.index + 1].serial;
    assert Permitted(d, role, j, l.log.added[j]);
  }

  lemma TurnLeaves(d: nat, role: Role, l: List)
    requires LocalInv(d, role, l) && Settles(role) && l.firing
    ensures DoTurn(l).fired == l.fired
    ensures Calls(l) ==> Left(DoTurn(l)) + 1 == Left(l) && l.log.started != [] && SettlingCall(d, NextCall(l).fn)
    ensures !Calls(l) ==> Left(DoTurn(l)) == Left(l) && !DoTurn(l).firing
  {
    assert OnceMemoryInv(l);
    if Calls(l) { CalledPermitted(d, role, l); }
  }

  lemma LocalOf(w: World, d: nat, role: Role)
    requires AllDeferreds(w) && d < |w.ds|
    ensures LocalInv(d, role, Get(w.ds[d], role))
  {
    assert DeferredInv(w.ds[d], d);
  }

  lemma PutLeft(w: World, d: nat, role: Role, l: List)
    requires d < |w.ds| && Settles(role)
    ensures var r := SetList(w, d, role, l);
      && Total(r.ds, LeftOf) + Left(Get(w.ds[d], role)) == Total(w.ds, LeftOf) + Left(l)
      && (l.fired == Get(w.ds[d], role).fired ==> Unsettled(w, r))
  {
    hide Left, Total;
    TotalPut(w.ds, d, Set(w.ds[d], role, l), LeftOf);
  }

  /** Changing a list changes the work of that list only. */
  lemma PutWork(w: World, d: nat, role: Role, l: List)
    requires d < |w.ds|
    ensures var r, o := SetList(w, d, role, l), Get(w.ds[d], role);
      && (if role == Progress then
            && Total(r.ds, Queued) + |o.queue| == Total(w.ds, Queued) + |l.queue|
            && Total(r.ds, Ahead1) + ItemsAhead(o) == Total(w.ds, Ahead1) + ItemsAhead(l)
          else Total(r.ds, Queued) == Total(w.ds, Queued) && Total(r.ds, Ahead1) == Total(w.ds, Ahead1))
      && (if role == Progress2 then
            && Total(r.ds, Queued2) + |o.queue| == Total(w.ds, Queued2) + |l.queue|
            && Total(r.ds, Ahead2) + ItemsAhead(o) == Total(w.ds, Ahead2) + ItemsAhead(l)
          else Total(r.ds, Queued2) == Total(w.ds, Queued2) && Total(r.ds, Ahead2) == Total(w.ds, Ahead2))
      && (!Settles(role) ==> Total(r.ds, LeftOf) == Total(w.ds, LeftOf) && Unsettled(w, r))
  {
    hide Left, Total, ItemsAhead;
    var x := Set(w.ds[d], role, l);
    TotalPut(w.ds, d, x, Queued);
    TotalPut(w.ds, d, x, Ahead1);
    TotalPut(w.ds, d, x, Queued2);
    TotalPut(w.ds, d, x, Ahead2);
    TotalPut(w.ds, d, x, LeftOf);
  }

  lemma TurnOk(w: World, d: nat, role: Role)
    requires AllOk(w) && d < |w.ds|
    ensures Ok(Get(w.ds[d], role)) && AllOk(SetList(w, d, role, DoTurn(Get(w.ds[d], role))))
  {
    hide Ok, DoTurn;
    StepOk(Get(w.ds[d], role), Turn);
    GetSet(w.ds[d], role, DoTurn(Get(w.ds[d], role)));
  }

  lemma UnsettledOn(a: World, b: World, c: World)
    requires |a.ds| == |b.ds| == |c.ds| && Unsettled(a, b) && Unsettled(b, c)
    ensures Unsettled(a, c)
  {
  }

  lemma WaitingPop(stack: seq<Frame>)
    requires stack != []
    ensures Waiting(stack) == Waiting(stack[..|stack| - 1]) + Weight(stack[|stack| - 1])
  {
  }

  lemma SettlingNearer(w: World, d: nat, role: Role)
    requires AllDeferreds(w) && d < |w.ds| && Top(w) == Some(Firing(d, role)) && Get(w.ds[d], role).firing
    requires Settles(role)
    ensures AllOk(w) && Nearer(w, FiringStep(w, d, role))
  {
    hide DeferredInv, Invoke, DoTurn, LocalInv, Left, Total, Waiting;
    InvOk(w);
    LocalOf(w, d, role);
    var l := Get(w.ds[d], role);
    TurnLeaves(d, role, l);
    PutLeft(w, d, role, DoTurn(l));
    PutWork(w, d, role, DoTurn(l));
    var w1 := SetList(w, d, role, DoTurn(l));
    TurnOk(w, d, role);
    if Calls(l) {
      InvokePushes(w1, d, role, NextCall(l).fn, NextCall(l).args);
      UnsettledOn(w, w1, FiringStep(w, d, role));
    } else {
      WaitingPop(w.stack);
    }
  }

  /** A turn of a progress list: an item less ahead, or a fire less queued, or the pass is over. */
  lemma ProgressTurn(d: nat, role: Role, l: List)
    requires LocalInv(d, role, l) && !Settles(role) && l.firing
    ensures var r := DoTurn(l);
      if Calls(l) then
        && |r.queue| == |l.queue| && ItemsAhead(r) < ItemsAhead(l) && l.log.started != []
        && (NextCall(l).fn.User? || (role == Progress && NextCall(l).fn == FireList(d, Progress2)))
      else |r.queue| < |l.queue| || (|r.queue| == |l.queue| && ItemsAhead(r) <= ItemsAhead(l) && !r.firing)
  {
    if Calls(l) {
      var j := l.items[l.index + 1].serial;
      assert Permitted(d, role, j, l.log.added[j]);
    }
  }

  /** `t[3].fire` of progress: only the second progress list gets more to do. */
  lemma NotifySecond(w: World, d: nat, args: Args)
    requires d < |w.ds| && Ok(Get(w.ds[d], Progress2))
    ensures var r := Apply(w, d, Progress2, Fire(args));
      && |r.ds| == |w.ds| && Debt(r) == Debt(w) && r.when == w.when && Unsettled(w, r)
      && Total(r.ds, Queued) == Total(w.ds, Queued) && Total(r.ds, Ahead1) == Total(w.ds, Ahead1)
  {
    hide Ok, Step, Total, Waiting, ItemsAhead;
    var l := Get(w.ds[d], Progress2);
    PutWork(w, d, Progress2, Step(l, Fire(args)));
    WaitingPush(w.stack, Firing(d, Progress2));
  }

  /** A turn of a progress list that calls nothing, or a user callback. */
  lemma ProgressPlainly(w: World, d: nat, role: Role)
    requires AllDeferreds(w) && d < |w.ds| && Top(w) == Some(Firing(d, role)) && Get(w.ds[d], role).firing
    requires !Settles(role) && (Calls(Get(w.ds[d], role)) ==> NextCall(Get(w.ds[d], role)).fn.User?)
    ensures AllOk(w) && MASTER < |w.ds| && Nearer(w, FiringStep(w, d, role))
  {
    hide DeferredInv, DoTurn, LocalInv, Total, Waiting, ItemsAhead;
    InvOk(w);
    LocalOf(w, d, role);
    var l := Get(w.ds[d], role);
    ProgressTurn(d, role, l);
    PutWork(w, d, role, DoTurn(l));
    TurnOk(w, d, role);
    WaitingPop(w.stack);
    WaitingPush(w.stack, Calling(d, role));
  }

  lemma ProgressNearer(w: World, d: nat, role: Role)
    requires AllDeferreds(w) && d < |w.ds| && Top(w) == Some(Firing(d, role)) && Get(w.ds[d], role).firing
    requires !Settles(role)
    ensures AllOk(w) && MASTER < |w.ds| && Nearer(w, FiringStep(w, d, role))
  {
    hide DeferredInv, DoTurn, Apply, LocalInv, Total, Waiting, ItemsAhead;
    var l := Get(w.ds[d], role);
    LocalOf(w, d, role);
    ProgressTurn(d, role, l);
    if Calls(l) && !NextCall(l).fn.User? {
      InvOk(w);
      PutWork(w, d, role, DoTurn(l));
      TurnOk(w, d, role);
      NotifySecond(SetList(w, d, role, DoTurn(l)), d, NextCall(l).args);
      UnsettledOn(w, SetList(w, d, role, DoTurn(l)), FiringStep(w, d, role));
    } else {
      ProgressPlainly(w, d, role);
    }
  }

  lemma TopFires(w: World, d: nat, role: Role)
    requires StackInv(w) && Top(w) == Some(Firing(d, role))
    ensures d < |w.ds| && Get(w.ds[d], role).firing
  {
    assert FrameOk(w.stack, |w.stack| - 1, |w.ds|);
    assert Firing(d, role) in w.stack;
  }

  lemma FiringNearer(w: World, d: nat, role: Role)
    requires WorldInv(w) && Top(w) == Some(Firing(d, role))
    ensures d < |w.ds| && AllOk(w) && MASTER < |w.ds| && Nearer(w, FiringStep(w, d, role))
  {
    hide DeferredInv, StackInv, HeadOnTop, Less, FiringStep;
    InvOk(w);
    TopFires(w, d, role);
    if Settles(role) { SettlingNearer(w, d, role); } else { ProgressNearer(w, d, role); }
  }

  lemma OneAdded(l: List, fn: Fn)
    ensures |PushAll(l, [fn]).log.added| <= |l.log.added| + 1 && PushAll(l, [fn]).log.calls == l.log.calls
  {
    assert [fn][1..] == [];
    PushAllKeepsQueue(l, [fn]);
  }

  lemma AddLeaves(l: List, fn: Fn)
    requires Ok(l)
    ensures Left(DoAdd(l, [fn])) <= Left(l) + 1 && DoAdd(l, [fn]).fired == l.fired
  {
    AddFrame(l, [fn]);
    assert forall x: List {:trigger PushAll(x, [fn])} :: !x.opts.unique ==>
      PushAll(x, [fn]) == PushAll(PushOne(x, fn), []);
    OneAdded(l, fn);
    if Refires(l) { OneAdded(Rewind(l), fn); }
  }

  lemma ReplacedAdd(w: World, f: Frame, d: nat, role: Role, fn: Fn)
    requires AllOk(w) && w.stack != [] && d < |w.ds| && (role == Done || role == Fail)
    ensures var r := Apply(Replace(w, f), d, role, Add([fn]));
      && |r.ds| == |w.ds| && Total(r.ds, LeftOf) <= Total(w.ds, LeftOf) + 1 && Unsettled(w, r) && r.when == w.when
      && Waiting(r.stack) == Waiting(w.stack) - Weight(w.stack[|w.stack| - 1]) + Weight(f)
  {
    hide Ok, DoAdd, Left, Total, Waiting;
    var l := Get(w.ds[d], role);
    assert Ok(l);
    AddLeaves(l, fn);
    PutLeft(w, d, role, DoAdd(l, [fn]));
    WaitingPop(w.stack);
    WaitingPush(w.stack[..|w.stack| - 1], f);
    WaitingPush(w.stack[..|w.stack| - 1] + [f], Firing(d, role));
  }

  lemma GatherNearer(w: World)
    requires AllOk(w) && MASTER < |w.ds| && Top(w) == Some(Gathering)
    ensures Nearer(w, GatherStep(w))
  {
    hide Ok, Total, Waiting, Count, Apply, Replace;
    WaitingPop(w.stack);
    if w.when.Some? && 0 < w.when.value.t <= |w.when.value.inputs| {
      var t := w.when.value.t - 1;
      var w' := w.(when := Some(w.when.value.(t := t)));
      assert AllOk(w');
      match w.when.value.inputs[t]
      case Plain(v) => CountPushes(w', t, Args(Undefined, [v]));
      case Promise(d) => if d < |w.ds| { ReplacedAdd(w', GatheringFail, d, Done, CountDown(t)); }
    }
  }

  lemma GatherFailNearer(w: World)
    requires AllOk(w) && MASTER < |w.ds| && Top(w) == Some(GatheringFail)
    ensures Nearer(w, GatherFailStep(w))
  {
    hide Ok, Total, Waiting, Apply, Replace;
    WaitingPop(w.stack);
    if w.when.Some? {
      var v := w.when.value;
      if v.t < |v.inputs| && v.inputs[v.t].Promise? && v.inputs[v.t].d < |w.ds| {
        ReplacedAdd(w, Gathering, v.inputs[v.t].d, Fail, FireList(MASTER, Fail));
      }
    }
  }

  /** What happens when callbacks just return. */
  function NextEvent(w: World): Event
    requires w.stack != []
  {
    if w.stack[|w.stack| - 1].Calling? then ApiReturn else Internal
  }

  lemma StepNearer(w: World)
    requires WorldInv(w) && w.stack != []
    ensures AllOk(w) && MASTER < |w.ds| && Nearer(w, WorldStep(w, NextEvent(w)))
  {
    hide DeferredInv, StackInv, HeadOnTop, FiringStep, GatherStep, GatherFailStep, Total, Waiting;
    InvOk(w);
    Sized(w);
    WaitingPop(w.stack);
    match w.stack[|w.stack| - 1]
    case Firing(d, role) => FiringNearer(w, d, role);
    case Calling(_, _) =>
    case Gathering => GatherNearer(w);
    case GatheringFail => GatherFailNearer(w);
  }

  // ----- so runs come to rest -----

  /** `longer` goes on from `run` to a state at rest, and user code has resolved and rejected nothing meanwhile. */
  ghost predicate RestsAfter(run: Run, longer: Run) {
    && run.states != [] && longer.states != [] && run.states <= longer.states && run.events <= longer.events
    && var w, r := run.states[|run.states| - 1], longer.states[|longer.states| - 1];
       && r.stack == [] && |r.ds| == |w.ds| && (r.when.Some? == w.when.Some?) && Unsettled(w, r)
  }

  lemma SameUnsettled(w: World)
    ensures Unsettled(w, w)
  {
  }

  lemma {:induction false} ComesToRest(run: Run, n: nat) returns (longer: Run)
    requires IsRun(run, n)
    ensures IsRun(longer, n) && RestsAfter(run, longer)
    decreases Debt(run.states[|run.events|]),
              Total(run.states[|run.events|].ds, Queued), Total(run.states[|run.events|].ds, Ahead1),
              Total(run.states[|run.events|].ds, Queued2), Total(run.states[|run.events|].ds, Ahead2),
              |run.states[|run.events|].stack|
  {
    hide WorldInv, WorldStep, NewWorld, Debt, Total, Unsettled;
    var w := run.states[|run.events|];
    if w.stack == [] {
      longer := run;
      assert Unsettled(w, w) by { SameUnsettled(w); }
    } else {
      RunKeeps(run, n, |run.events|);
      StepNearer(w);
      var next := RunGoesOn(run, n, NextEvent(w));
      assert Steps(next.states[|run.events|], next.events[|run.events|], next.states[|run.events| + 1]);
      assert next.states[|run.events|] == w;
      longer := ComesToRest(next, n);
      UnsettledOn(w, next.states[|next.events|], longer.states[|longer.states| - 1]);
    }
  }
}
