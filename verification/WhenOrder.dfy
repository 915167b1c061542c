/** Which rejection `k.when` passes on, in terms of what its inputs do (Mypintool/doc/html/jquery.js, line 2). */
module WhenOrder {
  import opened Optional
  import opened Values
  import opened CallbackList
  import opened CallbackRuns
  import opened Deferreds
  import opened DeferredRuns
  import opened DeferredWorld
  import opened DeferredLaws
  import opened WhenRuns
  import opened WhenSteps
  import opened WhenLaws

  // ----- the winner, once there is one, stays -----

  /** The first call of `o.reject` has been made, with `a`. */
  predicate Won(w: World, a: Args) {
    w.when.Some? && w.when.value.rejections != [] && w.when.value.rejections[0] == a
  }

  lemma WonOnInvoke(w: World, d: nat, role: Role, fn: Fn, args: Args, a: Args)
    requires Won(w, a) && AllOk(w) && MASTER < |w.ds|
    ensures Won(Invoke(w, d, role, fn, args), a)
  {
    hide Step, Ok;
  }

  lemma FiringWon(w: World, d: nat, role: Role, a: Args)
    requires Won(w, a) && AllOk(w) && MASTER < |w.ds| && d < |w.ds| && w.stack != []
    ensures Won(FiringStep(w, d, role), a)
  {
    hide Step, Ok, Invoke;
    var l := Get(w.ds[d], role);
    StepOk(l, Turn);
    GetSet(w.ds[d], role, Step(l, Turn));
    if Calls(l) {
      FiringStarted(l);
      WonOnInvoke(SetList(w, d, role, Step(l, Turn)), d, role, NextCall(l).fn, NextCall(l).args, a);
    }
  }

  lemma WonStays(w: World, e: Event, a: Args)
    requires Won(w, a) && AllOk(w) && MASTER < |w.ds|
    ensures Won(WorldStep(w, e), a)
  {
    hide Step, Ok, Invoke;
    match e
    case Internal =>
      if w.stack != [] {
        match w.stack[|w.stack| - 1]
        case Firing(d, role) => if d < |w.ds| { FiringWon(w, d, role, a); }
        case _ =>
      }
    case _ =>
  }

  /** At rest the winner's arguments are those of the promise of `k.when`. */
  lemma WonSettles(run: Run, n: nat, j: nat, a: Args)
    requires IsRun(run, n) && j < |run.states| && run.states[j].stack == [] && Won(run.states[j], a)
    ensures MASTER < |run.states[j].ds| && SettledThrough(run.states[j].ds[MASTER], Rejected, a)
  {
    hide IsRun, AllDeferreds, StackInv, HeadOnTop, CountInv, RejectInv, SettledThrough;
    RestParts(run, n, j);
    FiredIsSettled(run.states[j], MASTER, Rejected);
  }

  // ----- the arguments of `k.when` -----

  predicate SameInputs(w: World, r: World) {
    w.when.Some? ==> r.when.Some? && r.when.value.inputs == w.when.value.inputs
  }

  lemma InvokeInputs(w: World, d: nat, role: Role, fn: Fn, args: Args)
    requires AllOk(w) && MASTER < |w.ds|
    ensures SameInputs(w, Invoke(w, d, role, fn, args))
  {
    hide Step, Ok;
  }

  lemma FiringInputs(w: World, d: nat, role: Role)
    requires AllOk(w) && MASTER < |w.ds| && d < |w.ds| && w.stack != []
    ensures SameInputs(w, FiringStep(w, d, role))
  {
    hide Step, Ok, Invoke;
    var l := Get(w.ds[d], role);
    StepOk(l, Turn);
    GetSet(w.ds[d], role, Step(l, Turn));
    if Calls(l) {
      FiringStarted(l);
      InvokeInputs(SetList(w, d, role, Step(l, Turn)), d, role, NextCall(l).fn, NextCall(l).args);
    }
  }

  lemma StepInputs(w: World, e: Event)
    requires AllOk(w) && MASTER < |w.ds|
    ensures SameInputs(w, WorldStep(w, e))
  {
    hide Step, Ok, Invoke;
    if e == Internal && w.stack != [] && w.stack[|w.stack| - 1].Firing? && w.stack[|w.stack| - 1].d < |w.ds| {
      FiringInputs(w, w.stack[|w.stack| - 1].d, w.stack[|w.stack| - 1].role);
    }
  }

  /** The arguments of `k.when` do not change. */
  lemma {:induction false} InputsStay(run: Run, n: nat, i: nat, j: nat)
    requires IsRun(run, n) && i <= j < |run.states|
    ensures SameInputs(run.states[i], run.states[j])
    decreases j
  {
    hide WorldStep, NewWorld;
    if i < j {
      var k := j - 1;
      InputsStay(run, n, i, k);
      assert Steps(run.states[k], run.events[k], run.states[k + 1]);
      StepInputs(run.states[k], run.events[k]);
    }
  }

  /** Any two or more values and deferreds can be passed to `k.when`, and its promise is about these for good. */
  lemma WhenTakesInputs(run: Run, n: nat, i: nat, inputs: seq<Input>, j: nat)
    requires IsRun(run, n) && i < j < |run.states| && UserRuns(run.states[i]) && run.states[i].when.None?
    requires run.events[i] == ApiWhen(inputs) && |inputs| >= 2
    requires forall k :: 0 <= k < |inputs| && inputs[k].Promise? ==> 0 < inputs[k].d < |run.states[i].ds|
    ensures run.states[j].when.Some? && run.states[j].when.value.inputs == inputs
  {
    hide NewWorld;
    assert Steps(run.states[i], run.events[i], run.states[i + 1]);
    InputsStay(run, n, i + 1, j);
  }

  // ----- between two events of user code -----

  /** Code other than user code is running. */
  predicate Busy(w: World) { w.stack != [] && !w.stack[|w.stack| - 1].Calling? }

  lemma OnlyInternal(w: World, e: Event)
    requires AllOk(w) && MASTER < |w.ds| && Busy(w)
    ensures e == Internal || WorldStep(w, e) == w
  {
  }

  // ----- functions added to a list that has been fired -----

  /** A pass of one function, about to be called or called. */
  predicate SoloPass(l: List, fn: Fn, a: Args) {
    l.firing && Calls(l) && |l.items| == 1 && l.log.started != [] && NextCall(l).fn == fn && NextCall(l).args == a
  }

  predicate Spent(l: List) { l.firing && !Calls(l) }

  predicate Idle(l: List) { l.fired && !l.firing }

  /** `add` on a settled list runs a pass of what was added; on any other list it only adds. */
  lemma AddRefires(d: nat, role: Role, l: List, fn: Fn)
    requires LocalInv(d, role, l) && Watched(role)
    ensures var r := DoAdd(l, [fn]);
      && r.fired == l.fired
      && (Idle(l) ==> l.log.started != [] && SoloPass(r, fn, l.log.started[0]))
      && (!Idle(l) ==> r.firing == l.firing)
  {
    AddFrame(l, [fn]);
    PushAllKeepsQueue(l, [fn]);
    if Idle(l) {
      assert OnceMemoryInv(l);
      assert PushAll(PushOne(Rewind(l), fn), [fn][1..]) == PushOne(Rewind(l), fn);
    }
  }

  lemma SoloTurn(d: nat, role: Role, l: List, fn: Fn, a: Args)
    requires LocalInv(d, role, l) && Watched(role) && SoloPass(l, fn, a)
    ensures Spent(DoTurn(l)) && DoTurn(l).fired == l.fired
  {
  }

  lemma SpentTurn(d: nat, role: Role, l: List)
    requires LocalInv(d, role, l) && Settles(role) && Spent(l)
    ensures !DoTurn(l).firing && DoTurn(l).fired == l.fired
  {
    assert OnceMemoryInv(l);
  }

  // ----- the loop of `k.when`, while it meets no handler that is due -----

  /** The fail list of the input at position `o` has been fired. */
  predicate Blocked(w: World, inputs: seq<Input>, o: nat) {
    GoodInputs(w, inputs) && o < |inputs| && inputs[o].Promise? && Seen(w, inputs[o].d, Fail).first.Some?
  }

  /** No input behind position `p` has a fail list at rest after a fire. */
  predicate NoneIdle(w: World, inputs: seq<Input>, p: int) {
    && GoodInputs(w, inputs)
    && forall q :: 0 <= q < |inputs| && p < q && inputs[q].Promise? ==> !Idle(Get(w.ds[inputs[q].d], Fail))
  }

  /** The loop, called on top of `base`, has not come to position `p` yet; one input, at `o`, is not to be counted. */
  ghost predicate Passing(w: World, base: seq<Frame>, p: int, o: nat) {
    && w.when.Some? && w.stack != [] && (p == -1 || p == o)
    && var v, k := w.when.value, |w.stack| - 1;
       && Blocked(w, v.inputs, o) && NoneIdle(w, v.inputs, p) && v.rejections == []
       && match w.stack[k]
          case Gathering => v.t > p && w.stack[..k] == base
          case GatheringFail => p <= v.t < |v.inputs| && v.inputs[v.t].Promise? && w.stack[..k] == base
          case Firing(e, role) =>
            && role == Done && k > 0 && w.stack[k - 1] == GatheringFail && w.stack[..k - 1] == base
            && p < v.t < |v.inputs| && v.inputs[v.t] == Promise(e)
            && (Spent(w.ds[e].done) || exists b :: SoloPass(w.ds[e].done, CountDown(v.t), b))
          case Calling(_, _) => false
  }

  /** The fail lists are as before. */
  predicate SameFailLists(w: World, r: World) {
    |r.ds| == |w.ds| && forall e: nat :: e < |w.ds| ==> r.ds[e].fail == w.ds[e].fail && r.ds[e].fail2 == w.ds[e].fail2
  }

  lemma StillBlocked(w: World, r: World, inputs: seq<Input>, p: int, o: nat)
    requires Blocked(w, inputs, o) && NoneIdle(w, inputs, p) && |r.ds| == |w.ds|
    requires forall e: nat :: e < |w.ds| ==>
      Idle(r.ds[e].fail) == Idle(w.ds[e].fail) && Seen(r, e, Fail).first == Seen(w, e, Fail).first
    ensures Blocked(r, inputs, o) && NoneIdle(r, inputs, p)
  {
  }

  /** A rejected input is never counted. */
  lemma OpenWhileRejected(w: World, v: When, o: nat, due: int)
    requires AllDeferreds(w) && LoopInv(w, v) && CountInv(w, v, due) && Blocked(w, v.inputs, o)
    ensures o in v.open && !Seen(w, v.inputs[o].d, Done).fired
  {
    hide DeferredInv;
    assert Position(w, v, o, due);
    Exclusive(w, v.inputs[o].d);
  }

  lemma CountStays(w: World, v: When, t: nat, args: Args, o: nat)
    requires AllOk(w) && MASTER < |w.ds| && w.when == Some(v) && CountDue(w, v, t, args) && o in v.open && o != t
    ensures t < |v.contexts| && t < |v.values| && Count(w, t, args) == w.(when := Some(Counted(v, t, args)))
  {
    hide CountInv, RejectInv, MasterInv, Ok;
    CountDueSizes(w, v, t, args);
    assert o in v.open - {t};
    assert v.remaining - 1 == |v.open - {t}|;
    assert |v.open - {t}| > 0;
  }

  lemma WatchedLocal(w: World, d: nat, role: Role)
    requires AllDeferreds(w) && d < |w.ds|
    ensures LocalInv(d, role, Get(w.ds[d], role)) && DeferredInv(w.ds[d], d)
  {
  }

  lemma GatherCounts(w: World, v: When)
    requires AllOk(w) && MASTER < |w.ds| && w.stack != [] && w.when == Some(v)
    requires 0 < v.t <= |v.inputs| && v.inputs[v.t - 1].Plain?
    ensures var w', t := w.(when := Some(v.(t := v.t - 1))), v.t - 1;
      AllOk(w') && GatherStep(w) == Count(w', t, Args(Undefined, [v.inputs[t].value]))
  {
    hide Ok, Count, Apply;
  }

  /** A plain argument is counted, and that is not the last. */
  lemma PlainCounts(w: World, v: When, o: nat)
    requires w.when == Some(v) && Top(w) == Some(Gathering) && 0 < v.t <= |v.inputs| && v.inputs[v.t - 1].Plain?
    requires WorldInv(w) && WhenInv(w) && Blocked(w, v.inputs, o)
    ensures AllOk(w) && MASTER < |w.ds| && v.t - 1 < |v.contexts| && v.t - 1 < |v.values|
    ensures var t := v.t - 1;
      GatherStep(w) == w.(when := Some(Counted(v.(t := t), t, Args(Undefined, [v.inputs[t].value]))))
  {
    hide AllDeferreds, StackInv, HeadOnTop, CountInv, RejectInv, MasterInv, WhenInv, Count, GatherStep, CountDue;
    InvOk(w);
    MasterSized(w);
    WhenParts(w, v);
    var v' := v.(t := v.t - 1);
    var w' := w.(when := Some(v'));
    GatherCounts(w, v);
    OpenWhileRejected(w, v, o, -1);
    PlainDue(w, v, v.inputs[v.t - 1].value, w', v');
    CountStays(w', v', v'.t, Args(Undefined, [v.inputs[v.t - 1].value]), o);
  }

  lemma LoopBounds(w: World, v: When)
    requires WhenInv(w) && w.when == Some(v)
    ensures v.t <= |v.inputs|
  {
    hide CountInv, RejectInv, MasterInv;
  }

  lemma PassPlain(w: World, base: seq<Frame>, p: int, o: nat)
    requires WorldInv(w) && WhenInv(w) && Passing(w, base, p, o) && Top(w) == Some(Gathering)
    requires w.when.value.t > 0 && w.when.value.inputs[w.when.value.t - 1].Plain?
    ensures AllOk(w) && Passing(GatherStep(w), base, p, o) && SameFailLists(w, GatherStep(w))
  {
    hide WorldInv, WhenInv, GatherStep;
    LoopBounds(w, w.when.value);
    PlainCounts(w, w.when.value, o);
    StillBlocked(w, GatherStep(w), w.when.value.inputs, p, o);
  }

  lemma IdleMeans(l: List)
    ensures Idle(l) ==> l.fired && !l.firing
  {
  }

  lemma SoloCalls(l: List, fn: Fn, a: Args)
    requires SoloPass(l, fn, a)
    ensures Calls(l) && l.firing && l.log.started != [] && NextCall(l).fn == fn && NextCall(l).args == a
  {
  }

  /**
   The first half of an iteration: a pass over the done list starts exactly if that list has been fired and is at rest.
   */
  lemma AddsCounter(w: World, t: nat, e: nat)
    requires WorldInv(w) && w.when.Some? && Top(w) == Some(Gathering)
    requires w.when.value.t == t + 1 <= |w.when.value.inputs| && w.when.value.inputs[t] == Promise(e) && e < |w.ds|
    ensures AllOk(w)
    ensures var r := GatherStep(w);
      && r.when == Some(w.when.value.(t := t)) && SameFailLists(w, r)
      && var stack := w.stack[..|w.stack| - 1] + [GatheringFail];
         if Idle(w.ds[e].done) then r.stack == stack + [Firing(e, Done)] && exists b ::
           SoloPass(r.ds[e].done, CountDown(t), b)
         else r.stack == stack
  {
    hide DeferredInv, StackInv, HeadOnTop, DoAdd, LocalInv, SoloPass;
    InvOk(w);
    WatchedLocal(w, e, Done);
    AddRefires(e, Done, w.ds[e].done, CountDown(t));
    GetSet(w.ds[e], Done, DoAdd(w.ds[e].done, [CountDown(t)]));
    IdleMeans(w.ds[e].done);
    assert Ok(Get(w.ds[e], Done));
    if Idle(w.ds[e].done) {
      SoloCalls(DoAdd(w.ds[e].done, [CountDown(t)]), CountDown(t), w.ds[e].done.log.started[0]);
    }
  }

  /** The loop goes on to the second half of an iteration, perhaps with a pass of the handler just added on top. */
  lemma GoesOnPassing(w: World, r: World, base: seq<Frame>, p: int, o: nat, e: nat, runs: bool)
    requires Passing(w, base, p, o) && Top(w) == Some(Gathering) && SameFailLists(w, r)
    requires var v := w.when.value;
      0 < v.t <= |v.inputs| && v.inputs[v.t - 1] == Promise(e) && e < |w.ds| && r.when == Some(v.(t := v.t - 1))
    requires r.stack == base + [GatheringFail] + (if runs then [Firing(e, Done)] else [])
    requires runs ==> r.when.value.t != p && exists b :: SoloPass(r.ds[e].done, CountDown(r.when.value.t), b)
    ensures Passing(r, base, p, o)
  {
    hide SoloPass, Spent;
    StillBlocked(w, r, w.when.value.inputs, p, o);
    var k := |base|;
    assert r.stack[..k] == base && r.stack[k] == GatheringFail;
  }

  lemma RejectedNotResolved(w: World, v: When, o: nat)
    requires WorldInv(w) && LoopInv(w, v) && CountInv(w, v, -1) && Blocked(w, v.inputs, o)
    ensures v.inputs[o].d < |w.ds| && !Idle(w.ds[v.inputs[o].d].done)
  {
    hide DeferredInv, StackInv, HeadOnTop, CountInv;
    OpenWhileRejected(w, v, o, -1);
  }

  lemma PassPromise(w: World, base: seq<Frame>, p: int, o: nat)
    requires Passing(w, base, p, o) && Top(w) == Some(Gathering) && WorldInv(w) && WhenInv(w)
    requires 0 < w.when.value.t <= |w.when.value.inputs| && w.when.value.inputs[w.when.value.t - 1].Promise?
    ensures AllOk(w) && Passing(GatherStep(w), base, p, o) && SameFailLists(w, GatherStep(w))
  {
    hide WhenInv, WorldInv, GatherStep, SoloPass, Spent;
    var v := w.when.value;
    var e := v.inputs[v.t - 1].d;
    AddsCounter(w, v.t - 1, e);
    if v.t - 1 == p { WhenParts(w, v); RejectedNotResolved(w, v, o); }
    assert w.stack[..|w.stack| - 1] == base;
    GoesOnPassing(w, GatherStep(w), base, p, o, e, Idle(w.ds[e].done));
  }

  lemma PassFirst(w: World, base: seq<Frame>, p: int, o: nat)
    requires WorldInv(w) && WhenInv(w) && Passing(w, base, p, o) && Top(w) == Some(Gathering) && w.when.value.t > 0
    ensures AllOk(w) && Passing(GatherStep(w), base, p, o) && SameFailLists(w, GatherStep(w))
  {
    hide DeferredInv, StackInv, CountInv, RejectInv, MasterInv, GatherStep;
    WhenParts(w, w.when.value);
    if w.when.value.inputs[w.when.value.t - 1].Plain? { PassPlain(w, base, p, o); } else { PassPromise(w, base, p, o); }
  }

  lemma SpentCalls(l: List)
    requires Spent(l)
    ensures !Calls(l)
  {
  }

  lemma SpentStep(w: World, e: nat)
    requires WorldInv(w) && e < |w.ds| && Top(w) == Some(Firing(e, Done)) && Spent(w.ds[e].done)
    ensures AllOk(w) && MASTER < |w.ds|
    ensures var r := FiringStep(w, e, Done);
      r.stack == w.stack[..|w.stack| - 1] && r.when == w.when && SameFailLists(w, r)
  {
    hide DeferredInv, StackInv, HeadOnTop, DoTurn, Spent, LocalInv;
    InvOk(w);
    WatchedLocal(w, e, Done);
    var l := w.ds[e].done;
    assert Ok(Get(w.ds[e], Done));
    GetSet(w.ds[e], Done, DoTurn(l));
    SpentTurn(e, Done, l);
    SpentCalls(l);
  }

  lemma PassSpent(w: World, base: seq<Frame>, p: int, o: nat, e: nat)
    requires e < |w.ds| && Top(w) == Some(Firing(e, Done)) && Spent(w.ds[e].done)
    requires WorldInv(w) && Passing(w, base, p, o)
    ensures AllOk(w) && MASTER < |w.ds| && Passing(FiringStep(w, e, Done), base, p, o)
    ensures SameFailLists(w, FiringStep(w, e, Done))
  {
    hide WorldInv, FiringStep, Spent, SoloPass;
    SpentStep(w, e);
    StillBlocked(w, FiringStep(w, e, Done), w.when.value.inputs, p, o);
  }

  /** One turn of the done list of `e` has called the handler of the position reached, with `b`. */
  ghost predicate CountedBy(w: World, r: World, e: nat, b: Args)
    requires w.when.Some? && e < |w.ds|
  {
    var v, t := w.when.value, w.when.value.t;
    && t < |v.contexts| && t < |v.values| && Ok(w.ds[e].done)
    && r == SetList(w, e, Done, DoTurn(w.ds[e].done)).(when := Some(Counted(v, t, b)))
  }

  lemma PassCount(w: World, base: seq<Frame>, p: int, o: nat, e: nat, b: Args)
    requires e < |w.ds| && Top(w) == Some(Firing(e, Done)) && w.when.Some?
    requires WorldInv(w) && WhenInv(w) && Passing(w, base, p, o)
    requires SoloPass(w.ds[e].done, CountDown(w.when.value.t), b)
    ensures AllOk(w) && MASTER < |w.ds|
    ensures CountedBy(w, FiringStep(w, e, Done), e, b)
  {
    hide DeferredInv, DoTurn, Count, CountInv, RejectInv, MasterInv, Spent, SoloPass, WhenInv, OneMoreCall, CountDue;
    hide HeadOnTop, Quiet;
    InvOk(w);
    var v, t := w.when.value, w.when.value.t;
    var l := w.ds[e].done;
    SoloCalls(l, CountDown(t), b);
    WhenParts(w, v);
    OpenWhileRejected(w, v, o, -1);
    TurnFacts(w, e, Done);
    QuietAtHandler(w, e, Done);
    QuietTurn(w, e, Done);
    WatchedTurn(w, e, Done);
    TurnIsOneMore(w, e, Done);
    var w1 := SetList(w, e, Done, DoTurn(l));
    CountTurn(w, w1, v, e, t, b);
    InvOk(w1);
    assert Ok(Get(w.ds[e], Done));
    CountStays(w1, v, t, b, o);
  }

  lemma PassCounted(w: World, base: seq<Frame>, p: int, o: nat, e: nat, b: Args)
    requires e < |w.ds| && Top(w) == Some(Firing(e, Done)) && w.when.Some? && AllOk(w) && MASTER < |w.ds|
    requires AllDeferreds(w) && Passing(w, base, p, o) && SoloPass(w.ds[e].done, CountDown(w.when.value.t), b)
    requires CountedBy(w, FiringStep(w, e, Done), e, b)
    ensures Passing(FiringStep(w, e, Done), base, p, o) && SameFailLists(w, FiringStep(w, e, Done))
  {
    hide DeferredInv, DoTurn, Spent, SoloPass, LocalInv, FiringStep;
    WatchedLocal(w, e, Done);
    var l := w.ds[e].done;
    GetSet(w.ds[e], Done, DoTurn(l));
    SoloTurn(e, Done, l, CountDown(w.when.value.t), b);
    StillBlocked(w, FiringStep(w, e, Done), w.when.value.inputs, p, o);
  }

  /** The pass over a done list that the loop has just refired: first its one handler, then nothing. */
  lemma PassFiring(w: World, base: seq<Frame>, p: int, o: nat, e: nat)
    requires WorldInv(w) && WhenInv(w) && Passing(w, base, p, o) && Top(w) == Some(Firing(e, Done))
    ensures e < |w.ds| && AllOk(w) && MASTER < |w.ds|
    ensures Passing(FiringStep(w, e, Done), base, p, o) && SameFailLists(w, FiringStep(w, e, Done))
  {
    hide DeferredInv, StackInv, HeadOnTop, FiringStep, WhenInv, SoloPass;
    TopInRange(w);
    if Spent(w.ds[e].done) {
      PassSpent(w, base, p, o, e);
    } else {
      var b :| SoloPass(w.ds[e].done, CountDown(w.when.value.t), b);
      PassCount(w, base, p, o, e, b);
      PassCounted(w, base, p, o, e, b);
    }
  }

  /** The fail handler is added to a list behind position `p`, without effect. */
  lemma PassSecond(w: World, base: seq<Frame>, p: int, o: nat)
    requires WorldInv(w) && WhenInv(w) && Passing(w, base, p, o) && Top(w) == Some(GatheringFail) && w.when.value.t != p
    ensures AllOk(w) && Passing(GatherFailStep(w), base, p, o)
    ensures var e := w.when.value.inputs[w.when.value.t].d;
      && e < |w.ds| && Ok(w.ds[e].fail)
      && GatherFailStep(w).ds == w.ds[e := w.ds[e].(fail := DoAdd(w.ds[e].fail, [FireList(MASTER, Fail)]))]
  {
    hide DeferredInv, StackInv, CountInv, RejectInv, MasterInv, DoAdd, LocalInv, SoloPass;
    InvOk(w);
    var v := w.when.value;
    var e := v.inputs[v.t].d;
    WatchedLocal(w, e, Fail);
    var l := w.ds[e].fail;
    assert Ok(Get(w.ds[e], Fail));
    AddRefires(e, Fail, l, FireList(MASTER, Fail));
    WatchedAdd(w, e, Fail, [FireList(MASTER, Fail)]);
    GetSet(w.ds[e], Fail, DoAdd(l, [FireList(MASTER, Fail)]));
    StillBlocked(w, GatherFailStep(w), v.inputs, p, o);
  }

  // ----- inputs that are rejected already -----

  /** No input behind position `p` has a fail list at rest after a fire; that of position `p` has, with `a`. */
  predicate LastRejected(w: World, inputs: seq<Input>, p: nat, a: Args) {
    && NoneIdle(w, inputs, p) && p < |inputs| && inputs[p].Promise?
    && Idle(Get(w.ds[inputs[p].d], Fail)) && Seen(w, inputs[p].d, Fail).first == Some(a)
  }

  /** The loop of `k.when` has not come to position `p` yet, and has met no handler that is due. */
  ghost predicate Approaching(w: World, base: seq<Frame>, p: nat, a: Args) {
    Passing(w, base, p, p) && LastRejected(w, w.when.value.inputs, p, a)
  }

  /** The handler of position `p` is the next thing called. */
  predicate AboutToReject(w: World, p: nat, a: Args) {
    w.when.Some? && w.stack != [] &&
    var v := w.when.value;
    && v.rejections == [] && p < |v.inputs| && v.inputs[p].Promise? && v.inputs[p].d < |w.ds|
    && w.stack[|w.stack| - 1] == Firing(v.inputs[p].d, Fail)
    && SoloPass(w.ds[v.inputs[p].d].fail, FireList(MASTER, Fail), a)
  }

  lemma LastRejectedKept(w: World, r: World, inputs: seq<Input>, p: nat, a: Args)
    requires LastRejected(w, inputs, p, a) && |r.ds| == |w.ds|
    requires forall e: nat :: e < |w.ds| ==>
      Idle(r.ds[e].fail) == Idle(w.ds[e].fail) && Seen(r, e, Fail).first == Seen(w, e, Fail).first
    ensures LastRejected(r, inputs, p, a)
  {
  }

  lemma ApproachKept(w: World, r: World, base: seq<Frame>, p: nat, a: Args)
    requires w.when.Some? && r.when.Some?
    requires Approaching(w, base, p, a) && Passing(r, base, p, p) && SameFailLists(w, r)
    requires r.when.value.inputs == w.when.value.inputs
    ensures Approaching(r, base, p, a)
  {
    hide Passing;
    LastRejectedKept(w, r, w.when.value.inputs, p, a);
  }

  /** The fail handler is added: to the list at position `p` that calls it at once, to those behind without effect. */
  lemma ApproachSecond(w: World, base: seq<Frame>, p: nat, a: Args)
    requires WorldInv(w) && WhenInv(w) && Approaching(w, base, p, a) && Top(w) == Some(GatheringFail)
    ensures AllOk(w)
    ensures if w.when.value.t == p then AboutToReject(GatherFailStep(w), p, a)
        else Approaching(GatherFailStep(w), base, p, a)
  {
    hide DeferredInv, StackInv, CountInv, RejectInv, MasterInv, DoAdd, LocalInv, SoloPass;
    InvOk(w);
    var v := w.when.value;
    var e := v.inputs[v.t].d;
    WatchedLocal(w, e, Fail);
    var l := w.ds[e].fail;
    AddRefires(e, Fail, l, FireList(MASTER, Fail));
    WatchedAdd(w, e, Fail, [FireList(MASTER, Fail)]);
    GetSet(w.ds[e], Fail, DoAdd(l, [FireList(MASTER, Fail)]));
    if v.t != p {
      PassSecond(w, base, p, p);
      LastRejectedKept(w, GatherFailStep(w), v.inputs, p, a);
    }
  }

  lemma RejectStep(w: World, p: nat, a: Args)
    requires WorldInv(w) && AboutToReject(w, p, a)
    ensures AllOk(w) && Won(WorldStep(w, Internal), a)
  {
    hide DeferredInv, StackInv, DoTurn, SoloPass;
    InvOk(w);
    var d := w.when.value.inputs[p].d;
    SoloCalls(w.ds[d].fail, FireList(MASTER, Fail), a);
    assert Ok(Get(w.ds[d], Fail));
    GetSet(w.ds[d], Fail, DoTurn(w.ds[d].fail));
  }

  lemma ApproachStep(w: World, e: Event, base: seq<Frame>, p: nat, a: Args)
    requires WorldInv(w) && WhenInv(w) && (Approaching(w, base, p, a) || AboutToReject(w, p, a) || Won(w, a))
    ensures AllOk(w) && var r := WorldStep(w, e); Approaching(r, base, p, a) || AboutToReject(r, p, a) || Won(r, a)
  {
    hide DeferredInv, StackInv, HeadOnTop, WhenInv, FiringStep, GatherStep, GatherFailStep, LastRejected, SoloPass;
    hide Spent;
    InvOk(w);
    MasterSized(w);
    if Won(w, a) {
      WonStays(w, e, a);
    } else {
      OnlyInternal(w, e);
      if AboutToReject(w, p, a) {
        RejectStep(w, p, a);
      } else {
        var r := WorldStep(w, Internal);
        match w.stack[|w.stack| - 1]
        case Gathering =>
          PassFirst(w, base, p, p);
          StepInputs(w, Internal);
          ApproachKept(w, r, base, p, a);
        case GatheringFail => ApproachSecond(w, base, p, a);
        case Firing(x, _) =>
          PassFiring(w, base, p, p, x);
          StepInputs(w, Internal);
          ApproachKept(w, r, base, p, a);
      }
    }
  }

  lemma {:induction false} ApproachRun(run: Run, n: nat, i: nat, j: nat, base: seq<Frame>, p: nat, a: Args)
    requires IsRun(run, n) && i <= j < |run.states| && Approaching(run.states[i], base, p, a)
    ensures var w := run.states[j]; Approaching(w, base, p, a) || AboutToReject(w, p, a) || Won(w, a)
    decreases j
  {
    hide WorldInv, WhenInv, Approaching, AboutToReject, Won, WorldStep, NewWorld;
    if i < j {
      var k := j - 1;
      ApproachRun(run, n, i, k, base, p, a);
      RunKeepsWhen(run, n, k);
      assert Steps(run.states[k], run.events[k], run.states[k + 1]);
      ApproachStep(run.states[k], run.events[k], base, p, a);
    }
  }

  lemma WhenBegins(w: World, inputs: seq<Input>, p: nat, a: Args)
    requires AllOk(w) && MASTER < |w.ds| && UserRuns(w) && w.when.None? && LastRejected(w, inputs, p, a)
    ensures Approaching(WorldStep(w, ApiWhen(inputs)), w.stack, p, a)
  {
    LastRejectedKept(w, WorldStep(w, ApiWhen(inputs)), inputs, p, a);
  }

  /**
   `k.when` called when some input is rejected already, with no code running in its fail list: the last such
   argument decides, whichever was rejected first, since the loop goes from the last argument to the first.
   */
  lemma LastRejectedArgumentDecides(run: Run, n: nat, i: nat, inputs: seq<Input>, p: nat, a: Args, j: nat)
    requires IsRun(run, n) && i < j < |run.states| && run.states[j].stack == []
    requires UserRuns(run.states[i]) && run.states[i].when.None? && run.events[i] == ApiWhen(inputs)
    requires LastRejected(run.states[i], inputs, p, a)
    ensures MASTER < |run.states[j].ds| && SettledThrough(run.states[j].ds[MASTER], Rejected, a)
  {
    hide SettledThrough, LastRejected, NewWorld;
    assert Steps(run.states[i], run.events[i], run.states[i + 1]);
    WhenBegins(run.states[i], inputs, p, a);
    ApproachRun(run, n, i + 1, j, run.states[i].stack, p, a);
    WonSettles(run, n, j, a);
  }

  /** A deferred is settled with one list of arguments only. */
  lemma SameArgs(x: Deferred, d: nat, s: Settled, a: Args, b: Args)
    requires DeferredInv(x, d) && SettledThrough(x, s, a) && SettledThrough(x, s, b)
    ensures a == b
  {
    assert LocalInv(d, First(s), Get(x, First(s)));
    assert CalledAll(Get(x, First(s)), a) && CalledAll(Get(x, First(s)), b);
    assert Get(x, First(s)).log.calls[0].args == a;
  }

  /** At rest that is the last argument whose state is "rejected". */
  lemma RejectedAtRest(run: Run, n: nat, i: nat, inputs: seq<Input>, p: nat, a: Args)
    requires IsRun(run, n) && i < |run.states| && run.states[i].stack == []
    requires GoodInputs(run.states[i], inputs) && p < |inputs| && inputs[p].Promise?
    requires SettledThrough(run.states[i].ds[inputs[p].d], Rejected, a)
    requires forall q :: p < q < |inputs| && inputs[q].Promise? ==> run.states[i].ds[inputs[q].d].history != [Rejected]
    ensures LastRejected(run.states[i], inputs, p, a)
  {
    hide NewWorld, AllDeferreds, StackInv, HeadOnTop, SettledThrough, DeferredInv;
    RestParts(run, n, i);
    var w, d := run.states[i], inputs[p].d;
    ThroughHistory(w.ds[d], Rejected, a);
    FiredIsSettled(w, d, Rejected);
    AtRestNotFiring(w, d, Fail);
    WatchedLocal(w, d, Fail);
    SameArgs(w.ds[d], d, Rejected, a, w.ds[d].fail.log.started[0]);
    forall q | p < q < |inputs| && inputs[q].Promise? ensures !Idle(w.ds[inputs[q].d].fail) {
      FiredIsSettled(w, inputs[q].d, Rejected);
    }
  }

  // ----- the first input to be rejected -----

  /** When the deferred is rejected, the handler of `k.when` is the first function called after the head. */
  predicate HandlerFirst(x: Deferred) {
    |x.fail.log.added| > 6 && x.fail.log.added[6] == FireList(MASTER, Fail) && x.fail2.log.added == []
  }

  /** The next function of user code or of `k.when` to be called in the fail lists is the handler. */
  predicate HandlerNext(x: Deferred) {
    if |x.fail.log.calls| < 6 then HandlerFirst(x)
    else |x.fail.log.calls| < |x.fail.log.added| && x.fail.log.added[|x.fail.log.calls|] == FireList(MASTER, Fail)
  }

  predicate InSecond(w: World, d: nat)
    requires d < |w.ds|
  {
    && Top(w) == Some(Firing(d, Fail2)) && |w.stack| >= 2 && w.stack[|w.stack| - 2] == Firing(d, Fail)
    && |w.ds[d].fail.log.calls| == 6 && Spent(w.ds[d].fail2)
  }

  /**
   Deferred `d` is being rejected with `a`, and goes on to the handler: through its head, its second list, then at
   once.
   */
  ghost predicate Rejecting(w: World, d: nat, a: Args) {
    && w.when.Some? && w.when.value.rejections == []
    && d < |w.ds| && HandlerNext(w.ds[d]) && w.ds[d].fail.firing && Seen(w, d, Fail).first == Some(a)
    && (Top(w) == Some(Firing(d, Fail)) || InSecond(w, d))
  }

  lemma EmptyPass(d: nat, role: Role, l: List)
    requires LocalInv(d, role, l) && Settles(role) && l.log.added == []
    ensures l.firing ==> Spent(l)
  {
    if l.firing { assert OnceMemoryInv(l); }
  }

  /** A pass over a settling list goes on until everything added has been called. */
  lemma CallsUntilDone(d: nat, role: Role, l: List)
    requires LocalInv(d, role, l) && Settles(role) && l.firing && |l.log.calls| < |l.log.added|
    ensures Calls(l) && l.log.started != [] && NextCall(l).fn == l.log.added[|l.log.calls|]
    ensures NextCall(l).args == l.log.started[0]
    ensures DoTurn(l).firing && DoTurn(l).log.added == l.log.added && |DoTurn(l).log.calls| == |l.log.calls| + 1
    ensures DoTurn(l).log.started == l.log.started
  {
  }

  /** What the head does to the two fail lists of its own deferred. */
  lemma HeadEffectFails(y: Deferred, n: nat, args: Args)
    requires Ok(y.fail2)
    ensures var r := HeadEffect(y, Rejected, n, args);
      && r.fail == y.fail && r.fail2.log.added == y.fail2.log.added && r.fail2.log.calls == y.fail2.log.calls
  {
    FireFrame(y.fail2, args);
  }

  lemma FireEnters(l: List, args: Args)
    requires !l.locked && !l.firing
    ensures DoFire(l, args).firing
  {
  }

  lemma ShutKeepsPass(l: List)
    ensures DoDisable(l).firing == l.firing && DoLock(l).firing == l.firing
  {
  }

  lemma HeadPushes(w: World, d: nat, n: nat, args: Args)
    requires AllOk(w) && MASTER < |w.ds| && d < |w.ds| && n < 6 && !w.ds[d].fail2.locked && !w.ds[d].fail2.firing
    ensures var r := Invoke(w, d, Fail, Head(d, Rejected)[n], args);
      if n < 5 then r.stack == w.stack else r.stack == w.stack + [Firing(d, Fail2)] && r.ds[d].fail2.firing
  {
    hide DoFire, Ok;
    if n == 5 {
      assert Ok(Get(w.ds[d], Fail2));
      FireEnters(w.ds[d].fail2, args);
    } else {
      ShutKeepsPass(Get(w.ds[d], Done));
      ShutKeepsPass(Get(w.ds[d], Done2));
      ShutKeepsPass(Get(w.ds[d], Progress));
      ShutKeepsPass(Get(w.ds[d], Progress2));
    }
  }

  lemma SecondUnfired(v: Views)
    requires Wired(v) && SettlingView(v, Rejected)
    ensures v.fail2.enabled && !v.fail2.fired && !v.fail2.locked && v.fail2.calls == 0
  {
  }

  /** While a deferred is being rejected its second fail list waits. */
  lemma SecondWaits(x: Deferred, d: nat)
    requires DeferredInv(x, d) && Settling(x, Rejected)
    ensures !x.fail2.locked && !x.fail2.firing && x.fail2.log.calls == []
  {
    assert LocalInv(d, Fail2, Get(x, Fail2));
    SecondUnfired(ViewsOf(x));
  }

  lemma HeadReach(d: nat, l: List)
    requires LocalInv(d, Fail, l) && |l.log.calls| < 6
    ensures |l.log.calls| < |l.log.added|
  {
  }

  lemma FailSettling(x: Deferred, d: nat)
    requires DeferredInv(x, d) && x.fail.firing && |x.fail.log.calls| < 6
    ensures Settling(x, Rejected)
  {
    hide Wired;
    assert LocalInv(d, Fail, Get(x, Fail));
  }

  lemma HeadOfReject(w: World, d: nat)
    requires WorldInv(w) && d < |w.ds| && w.ds[d].fail.firing && |w.ds[d].fail.log.calls| < 6
    requires Top(w) == Some(Firing(d, Fail))
    ensures AllOk(w)
    ensures var r, l := FiringStep(w, d, Fail), w.ds[d].fail;
      && r.when == w.when && |r.ds| == |w.ds| && r.ds[d].fail.firing
      && r.ds[d].fail.log.added == l.log.added && r.ds[d].fail.log.started == l.log.started
      && |r.ds[d].fail.log.calls| == |l.log.calls| + 1 && r.ds[d].fail2.log.added == w.ds[d].fail2.log.added
      && (forall e: nat :: e < |w.ds| && e != d ==> r.ds[e] == w.ds[e])
      && (if |l.log.calls| < 5 then r.stack == w.stack
          else r.stack == w.stack + [Firing(d, Fail2)] && r.ds[d].fail2.firing && r.ds[d].fail2.log.calls == [])
  {
    hide DeferredInv, DoTurn, Settling, Invoke, StackInv, AllLocal, HeadEffect, LocalInv;
    InvOk(w);
    var x, l := w.ds[d], w.ds[d].fail;
    WatchedLocal(w, d, Fail);
    FailSettling(x, d);
    SecondWaits(x, d);
    HeadStep(x, d, Rejected);
    HeadReach(d, l);
    CallsUntilDone(d, Fail, l);
    var w1 := SetList(w, d, Fail, DoTurn(l));
    AfterHeadTurn(w, d, Rejected);
    var n, args := |l.log.calls|, NextCall(l).args;
    HeadInvoke(w1, d, Rejected, n, args);
    HeadPushes(w1, d, n, args);
    assert Ok(Get(w1.ds[d], Fail2));
    HeadEffectFails(w1.ds[d], n, args);
  }

  lemma SecondLocal(w: World, d: nat)
    requires WorldInv(w) && d < |w.ds|
    ensures LocalInv(d, Fail2, w.ds[d].fail2)
  {
    assert LocalInv(d, Fail2, Get(w.ds[d], Fail2));
  }

  lemma RejectingHead(w: World, d: nat, a: Args)
    requires WorldInv(w) && Rejecting(w, d, a) && Top(w) == Some(Firing(d, Fail)) && |w.ds[d].fail.log.calls| < 6
    ensures AllOk(w) && Rejecting(FiringStep(w, d, Fail), d, a)
  {
    hide WorldInv, FiringStep, Spent, LocalInv;
    HeadOfReject(w, d);
    FiringKeeps(w, d, Fail);
    var r := FiringStep(w, d, Fail);
    SecondLocal(r, d);
    EmptyPass(d, Fail2, r.ds[d].fail2);
  }

  lemma RejectingHandler(w: World, d: nat, a: Args)
    requires WorldInv(w) && Rejecting(w, d, a) && Top(w) == Some(Firing(d, Fail)) && |w.ds[d].fail.log.calls| >= 6
    ensures AllOk(w) && Won(FiringStep(w, d, Fail), a)
  {
    hide DeferredInv, StackInv, DoTurn, LocalInv;
    InvOk(w);
    WatchedLocal(w, d, Fail);
    assert Ok(Get(w.ds[d], Fail));
    CallsUntilDone(d, Fail, w.ds[d].fail);
    GetSet(w.ds[d], Fail, DoTurn(w.ds[d].fail));
  }

  lemma SpentAdds(l: List)
    requires Ok(l) && !Calls(l)
    ensures DoTurn(l).log.added == l.log.added
  {
  }

  lemma RejectingSecond(w: World, d: nat, a: Args)
    requires WorldInv(w) && Rejecting(w, d, a) && InSecond(w, d)
    ensures AllOk(w) && Rejecting(FiringStep(w, d, Fail2), d, a)
  {
    hide DeferredInv, StackInv, DoTurn, LocalInv, Spent;
    InvOk(w);
    WatchedLocal(w, d, Fail2);
    SpentTurn(d, Fail2, w.ds[d].fail2);
    SpentCalls(w.ds[d].fail2);
    assert Ok(Get(w.ds[d], Fail2));
    GetSet(w.ds[d], Fail2, DoTurn(w.ds[d].fail2));
    SpentAdds(w.ds[d].fail2);
  }

  lemma RejectingStep(w: World, e: Event, d: nat, a: Args)
    requires WorldInv(w) && (Rejecting(w, d, a) || Won(w, a))
    ensures AllOk(w) && var r := WorldStep(w, e); Rejecting(r, d, a) || Won(r, a)
  {
    hide DeferredInv, StackInv, HeadOnTop, FiringStep, HandlerNext, Spent;
    InvOk(w);
    MasterSized(w);
    if Won(w, a) {
      WonStays(w, e, a);
    } else {
      OnlyInternal(w, e);
      if InSecond(w, d) {
        RejectingSecond(w, d, a);
      } else if |w.ds[d].fail.log.calls| < 6 {
        RejectingHead(w, d, a);
      } else {
        RejectingHandler(w, d, a);
      }
    }
  }

  lemma {:induction false} RejectingRun(run: Run, n: nat, i: nat, j: nat, d: nat, a: Args)
    requires IsRun(run, n) && i <= j < |run.states| && Rejecting(run.states[i], d, a)
    ensures Rejecting(run.states[j], d, a) || Won(run.states[j], a)
    decreases j
  {
    hide WorldInv, Rejecting, Won, WorldStep, NewWorld;
    if i < j {
      var k := j - 1;
      RejectingRun(run, n, i, k, d, a);
      RunKeeps(run, n, k);
      assert Steps(run.states[k], run.events[k], run.states[k + 1]);
      RejectingStep(run.states[k], run.events[k], d, a);
    }
  }

  lemma PendingRejects(x: Deferred, d: nat, a: Args)
    requires DeferredInv(x, d) && x.history == [] && !Settling(x, Rejected)
    ensures var r := DoFire(x.fail, a);
      && !x.fail.firing && r.firing && r.log.calls == [] && r.log.added == x.fail.log.added && r.log.started == [a]
  {
    hide Wired;
    assert LocalInv(d, Fail, Get(x, Fail));
    SetShows(x, Fail, x.fail);
    PendingIsOpen(ViewsOf(x), Rejected);
  }

  /** User code rejects a pending deferred in whose fail lists nothing comes before the handler. */
  lemma RejectingBegins(w: World, d: nat, a: Args)
    requires WorldInv(w) && UserRuns(w) && w.when.Some? && w.when.value.rejections == []
    requires MASTER < d < |w.ds| && w.ds[d].history == [] && HandlerFirst(w.ds[d])
    ensures AllOk(w) && Rejecting(WorldStep(w, ApiFire(d, Fail, a)), d, a)
  {
    hide DeferredInv, StackInv, DoFire;
    InvOk(w);
    QuietUnlessFiring(w);
    assert !Settling(w.ds[d], Rejected);
    PendingRejects(w.ds[d], d, a);
    GetSet(w.ds[d], Fail, DoFire(w.ds[d].fail, a));
  }

  /** No input but `d` has been rejected so far. */
  predicate NoneElseRejected(w: World, inputs: seq<Input>, d: nat) {
    && GoodInputs(w, inputs)
    && forall p :: 0 <= p < |inputs| && inputs[p].Promise? && inputs[p].d != d ==>
      w.ds[inputs[p].d].history != [Rejected]
  }

  /** No input has been rejected so far. */
  predicate NoneRejected(w: World, inputs: seq<Input>) {
    GoodInputs(w, inputs) && forall p :: 0 <= p < |inputs| && inputs[p].Promise? ==>
      w.ds[inputs[p].d].history != [Rejected]
  }

  lemma FiredShows(v: Views)
    requires Wired(v) && !SettlingView(v, Rejected) && v.fail.first.Some?
    ensures v.history == [Rejected]
  {
  }

  lemma FiredHistory(x: Deferred, d: nat)
    requires DeferredInv(x, d) && !Settling(x, Rejected) && ViewOf(x.fail).first.Some?
    ensures x.history == [Rejected]
  {
    hide LocalInv, Wired;
    SetShows(x, Fail, x.fail);
    FiredShows(ViewsOf(x));
  }

  lemma NoneRejectedYet(w: World, v: When)
    requires WorldInv(w) && WhenInv(w) && w.when == Some(v) && UserRuns(w) && NoneRejected(w, v.inputs)
    ensures v.rejections == []
  {
    hide DeferredInv, StackInv, CountInv, MasterInv;
    QuietUnlessFiring(w);
    if v.rejections != [] {
      assert RejectedBy(w, v, v.rejections[0]);
      var p :| 0 <= p < |v.inputs| && v.inputs[p].Promise?
        && Seen(w, v.inputs[p].d, Fail).first == Some(v.rejections[0]);
      var d := v.inputs[p].d;
      assert !Settling(w.ds[d], Rejected) && DeferredInv(w.ds[d], d);
      FiredHistory(w.ds[d], d);
    }
  }

  lemma RejectingNotAtRest(w: World, d: nat, a: Args)
    requires w.stack == []
    ensures !Rejecting(w, d, a)
  {
  }

  lemma FirstHandlerDecides(run: Run, n: nat, i: nat, d: nat, a: Args, j: nat)
    requires IsRun(run, n) && i < j < |run.states| && run.states[j].stack == []
    requires UserRuns(run.states[i]) && run.states[i].when.Some? && run.events[i] == ApiFire(d, Fail, a)
    requires run.states[i].when.value.rejections == []
    requires MASTER < d < |run.states[i].ds| && run.states[i].ds[d].history == [] && HandlerFirst(run.states[i].ds[d])
    ensures MASTER < |run.states[j].ds| && SettledThrough(run.states[j].ds[MASTER], Rejected, a)
  {
    hide SettledThrough, NewWorld, WorldStep, HandlerFirst, Rejecting, WorldInv;
    assert Steps(run.states[i], run.events[i], run.states[i + 1]);
    RunKeeps(run, n, i);
    RejectingBegins(run.states[i], d, a);
    RejectingRun(run, n, i + 1, j, d, a);
    assert !Rejecting(run.states[j], d, a) by { RejectingNotAtRest(run.states[j], d, a); }
    WonSettles(run, n, j, a);
  }

  /**
   The first input to be rejected decides, provided that nothing was put into its fail lists before the handler
   of `k.when`: user code rejects `d` while no input has been rejected, also from inside a callback.
   */
  lemma FirstRejectionDecides(run: Run, n: nat, i: nat, d: nat, a: Args, j: nat)
    requires IsRun(run, n) && i < j < |run.states| && run.states[j].stack == []
    requires UserRuns(run.states[i]) && run.states[i].when.Some? && run.events[i] == ApiFire(d, Fail, a)
    requires NoneRejected(run.states[i], run.states[i].when.value.inputs)
    requires MASTER < d < |run.states[i].ds| && run.states[i].ds[d].history == [] && HandlerFirst(run.states[i].ds[d])
    ensures MASTER < |run.states[j].ds| && SettledThrough(run.states[j].ds[MASTER], Rejected, a)
  {
    hide SettledThrough, NewWorld, WorldStep, HandlerFirst, NoneRejected, WorldInv;
    RunKeepsWhen(run, n, i);
    NoneRejectedYet(run.states[i], run.states[i].when.value);
    FirstHandlerDecides(run, n, i, d, a, j);
  }

  // ----- the only rejection -----

  lemma {:induction false} WonRun(run: Run, n: nat, i: nat, j: nat, a: Args)
    requires IsRun(run, n) && i <= j < |run.states| && Won(run.states[i], a)
    ensures Won(run.states[j], a)
    decreases j
  {
    hide Won, WorldStep, NewWorld;
    if i < j {
      var k := j - 1;
      WonRun(run, n, i, k, a);
      assert Steps(run.states[k], run.events[k], run.states[k + 1]);
      WonStays(run.states[k], run.events[k], a);
    }
  }

  /** If at rest exactly one input deferred is rejected, it decides, whatever is rejected later. */
  lemma OnlyRejectionDecides(run: Run, n: nat, i: nat, d: nat, j: nat)
    requires IsRun(run, n) && i <= j < |run.states| && run.states[i].stack == [] && run.states[j].stack == []
    requires run.states[i].when.Some? && d < |run.states[i].ds|
    requires var w, inputs := run.states[i], run.states[i].when.value.inputs;
      && GoodInputs(w, inputs) && w.ds[d].history == [Rejected] && Promise(d) in inputs
      && forall p :: 0 <= p < |inputs| && inputs[p].Promise? && w.ds[inputs[p].d].history == [Rejected] ==>
        inputs[p].d == d
    ensures Seen(run.states[i], d, Fail).first.Some? && MASTER < |run.states[j].ds|
    ensures SettledThrough(run.states[i].ds[d], Rejected, Seen(run.states[i], d, Fail).first.value)
    ensures SettledThrough(run.states[j].ds[MASTER], Rejected, Seen(run.states[i], d, Fail).first.value)
  {
    hide SettledThrough, NewWorld, AllDeferreds, StackInv, HeadOnTop, CountInv;
    RestParts(run, n, i);
    var w, v := run.states[i], run.states[i].when.value;
    FiredIsSettled(w, d, Rejected);
    var p: nat :| p < |v.inputs| && v.inputs[p] == Promise(d);
    assert v.t == 0;
    RejectedIsSeen(w, v, p);
    assert RejectedBy(w, v, v.rejections[0]);
    var q :| 0 <= q < |v.inputs| && v.inputs[q].Promise? && Seen(w, v.inputs[q].d, Fail).first == Some(v.rejections[0]);
    Exclusive(w, v.inputs[q].d);
    FiredIsSettled(w, v.inputs[q].d, Rejected);
    WonRun(run, n, i, j, v.rejections[0]);
    WonSettles(run, n, j, v.rejections[0]);
  }
}
