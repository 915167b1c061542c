/** `k.when` called by a fail callback of one of its own inputs (Mypintool/doc/html/jquery.js, line 2). */
module WhenInside {
  import opened Optional
  import opened Values
  import opened CallbackList
  import opened CallbackRuns
  import opened Deferreds
  import opened DeferredRuns
  import opened DeferredWorld
  import opened DeferredLaws
  import opened WhenRuns
  import opened WhenSteps
  import opened WhenLaws
  import opened WhenOrder

  /** A fail callback of `x` is running, and nothing that was added to `x` is left to call after it. */
  predicate LastCallback(w: World, x: nat) {
    var n := |w.stack|;
    && x < |w.ds| && n > 0
    && if w.stack[n - 1] == Calling(x, Fail) then |w.ds[x].fail.log.calls| == |w.ds[x].fail.log.added|
       else
         && w.stack[n - 1] == Calling(x, Fail2) && n > 2 && w.stack[n - 3] == Firing(x, Fail)
         && |w.ds[x].fail.log.calls| == 6 == |w.ds[x].fail.log.added|
         && |w.ds[x].fail2.log.calls| == |w.ds[x].fail2.log.added|
  }

  // ----- the loop -----

  predicate NoFrames(base: seq<Frame>) { forall f :: f in base ==> !GatherFrame(f) }

  /** To the fail list of `y` only handlers have been added, and nothing has been called. */
  predicate Gathered(y: Deferred, z: Deferred) {
    && z.fail2 == y.fail2 && z.fail.firing && y.fail.log.added <= z.fail.log.added
    && z.fail.log.calls == y.fail.log.calls && z.fail.log.started == y.fail.log.started
    && forall j :: |y.fail.log.added| <= j < |z.fail.log.added| ==> z.fail.log.added[j] == FireList(MASTER, Fail)
  }

  predicate Input(w: World, o: nat, x: nat) {
    w.when.Some? && o < |w.when.value.inputs| && w.when.value.inputs[o] == Promise(x)
  }

  /** The loop is running, and the fail lists of `x` go on from those of `y`. */
  ghost predicate Inside(w: World, base: seq<Frame>, o: nat, x: nat, y: Deferred) {
    Passing(w, base, -1, o) && Input(w, o, x) && x < |w.ds| && Gathered(y, w.ds[x])
  }

  /** `k.when` has just returned. */
  predicate Returned(w: World, base: seq<Frame>, o: nat, x: nat, y: Deferred) {
    && w.stack == base && Input(w, o, x) && x < |w.ds| && Gathered(y, w.ds[x])
    && w.when.value.t == 0 && w.when.value.rejections == []
  }

  lemma InsideKept(w: World, r: World, base: seq<Frame>, o: nat, x: nat, y: Deferred)
    requires Inside(w, base, o, x, y) && Passing(r, base, -1, o) && SameFailLists(w, r) && SameInputs(w, r)
    ensures Inside(r, base, o, x, y)
  {
    hide Passing;
  }

  lemma NotRefired(l: List)
    requires l.firing
    ensures !Refires(l)
  {
  }

  /** Adding the handler to a list that is firing. */
  lemma AddsHandler(w: World, x: nat, y: Deferred)
    requires AllDeferreds(w) && x < |w.ds| && Gathered(y, w.ds[x])
    ensures Ok(w.ds[x].fail) && Gathered(y, w.ds[x].(fail := DoAdd(w.ds[x].fail, [FireList(MASTER, Fail)])))
  {
    hide DeferredInv, LocalInv, DoAdd, Ok;
    WatchedLocal(w, x, Fail);
    ListOk(x, Fail, w.ds[x].fail);
    AddFrame(w.ds[x].fail, [FireList(MASTER, Fail)]);
    AddPasses(w.ds[x].fail, [FireList(MASTER, Fail)]);
    WatchedAdd(w, x, Fail, [FireList(MASTER, Fail)]);
    NotRefired(w.ds[x].fail);
  }

  lemma SecondPosition(w: World, base: seq<Frame>, o: nat)
    requires Passing(w, base, -1, o) && Top(w) == Some(GatheringFail)
    ensures w.when.Some? && w.when.value.t < |w.when.value.inputs| && w.when.value.inputs[w.when.value.t].Promise?
  {
  }

  lemma InsideSecond(w: World, base: seq<Frame>, o: nat, x: nat, y: Deferred)
    requires WorldInv(w) && WhenInv(w) && Inside(w, base, o, x, y) && Top(w) == Some(GatheringFail)
    ensures AllOk(w) && MASTER < |w.ds| && Inside(GatherFailStep(w), base, o, x, y)
  {
    hide DeferredInv, StackInv, HeadOnTop, WhenInv, Passing, Gathered, GatherFailStep, DoAdd;
    InvOk(w);
    MasterSized(w);
    SecondPosition(w, base, o);
    PassSecond(w, base, -1, o);
    StepInputs(w, Internal);
    assert WorldStep(w, Internal) == GatherFailStep(w);
    if w.when.value.inputs[w.when.value.t].d == x { AddsHandler(w, x, y); }
  }

  lemma InsideLeaves(w: World, base: seq<Frame>, o: nat, x: nat, y: Deferred)
    requires AllOk(w) && MASTER < |w.ds| && Inside(w, base, o, x, y) && Top(w) == Some(Gathering) && w.when.value.t == 0
    ensures Returned(GatherStep(w), base, o, x, y)
  {
    hide Ok, Gathered;
  }

  lemma InsideStep(w: World, e: Event, base: seq<Frame>, o: nat, x: nat, y: Deferred)
    requires WorldInv(w) && WhenInv(w) && Inside(w, base, o, x, y)
    ensures AllOk(w) && MASTER < |w.ds|
    ensures var r := WorldStep(w, e); Inside(r, base, o, x, y) || Returned(r, base, o, x, y)
  {
    hide DeferredInv, StackInv, HeadOnTop, WhenInv, FiringStep, GatherStep, GatherFailStep, Gathered, SoloPass, Spent;
    hide Blocked, NoneIdle;
    InvOk(w);
    MasterSized(w);
    OnlyInternal(w, e);
    StepInputs(w, Internal);
    var r := WorldStep(w, Internal);
    match w.stack[|w.stack| - 1]
    case Gathering =>
      if w.when.value.t == 0 {
        InsideLeaves(w, base, o, x, y);
      } else {
        PassFirst(w, base, -1, o);
        InsideKept(w, r, base, o, x, y);
      }
    case GatheringFail => InsideSecond(w, base, o, x, y);
    case Firing(d, _) =>
      PassFiring(w, base, -1, o, d);
      InsideKept(w, r, base, o, x, y);
  }

  lemma InsideIsBusy(w: World, base: seq<Frame>, o: nat, x: nat, y: Deferred)
    requires Inside(w, base, o, x, y)
    ensures !UserRuns(w)
  {
  }

  /** Up to the first state in which user code runs again. */
  lemma {:induction false} InsideRun(run: Run, n: nat, i: nat, k: nat, base: seq<Frame>, o: nat, x: nat, y: Deferred)
    requires IsRun(run, n) && i < k < |run.states| && Inside(run.states[i + 1], base, o, x, y)
    requires base != [] && base[|base| - 1].Calling? && forall l :: i < l < k ==> !UserRuns(run.states[l])
    ensures Inside(run.states[k], base, o, x, y) || Returned(run.states[k], base, o, x, y)
    decreases k
  {
    hide WorldInv, WhenInv, Inside, Gathered, Input, WorldStep, NewWorld;
    if i + 1 < k {
      var l := k - 1;
      InsideRun(run, n, i, l, base, o, x, y);
      RunKeepsWhen(run, n, l);
      assert Steps(run.states[l], run.events[l], run.states[l + 1]);
      assert !UserRuns(run.states[l]);
      InsideStep(run.states[l], run.events[l], base, o, x, y);
    }
  }

  // ----- before and after -----

  lemma FiredShown(d: nat, l: List)
    requires LocalInv(d, Fail, l) && l.fired
    ensures ViewOf(l).first.Some?
  {
  }

  lemma InsideBegins(w: World, inputs: seq<Input>, o: nat, x: nat, a: Args)
    requires WorldInv(w) && UserRuns(w) && w.when.None? && NoneElseRejected(w, inputs, x)
    requires o < |inputs| && inputs[o] == Promise(x) && w.ds[x].fail.firing && Seen(w, x, Fail).first == Some(a)
    ensures AllOk(w) && MASTER < |w.ds| && Inside(WorldStep(w, ApiWhen(inputs)), w.stack, o, x, w.ds[x])
  {
    hide DeferredInv, StackInv, LocalInv;
    InvOk(w);
    QuietUnlessFiring(w);
    forall q | 0 <= q < |inputs| && inputs[q].Promise? ensures !Idle(Get(w.ds[inputs[q].d], Fail)) {
      var d := inputs[q].d;
      WatchedLocal(w, d, Fail);
      if d != x && w.ds[d].fail.fired {
        FiredShown(d, w.ds[d].fail);
        assert !Settling(w.ds[d], Rejected);
        FiredHistory(w.ds[d], d);
      }
    }
  }

  lemma StackBelow(w: World, x: nat, role: Role)
    requires StackInv(w) && Top(w) == Some(Calling(x, role)) && x < |w.ds|
    ensures |w.stack| > 1 && w.stack[|w.stack| - 2] == Firing(x, role) && Get(w.ds[x], role).firing
  {
    assert FrameOk(w.stack, |w.stack| - 1, |w.ds|);
    assert w.stack[|w.stack| - 2] in w.stack;
  }

  lemma FiringShown(d: nat, l: List)
    requires LocalInv(d, Fail, l) && l.firing
    ensures l.enabled && ViewOf(l).first.Some?
  {
  }

  /** The fail list of the callback's deferred is firing. */
  lemma CallbackFires(w: World, x: nat)
    requires WorldInv(w) && LastCallback(w, x)
    ensures w.ds[x].fail.firing && Seen(w, x, Fail).first.Some? && w.ds[x].fail.enabled
  {
    hide DeferredInv, HeadOnTop;
    if w.stack[|w.stack| - 1] == Calling(x, Fail) {
      StackBelow(w, x, Fail);
    } else {
      assert w.stack[|w.stack| - 3] in w.stack;
      assert Get(w.ds[x], Fail).firing;
    }
    WatchedLocal(w, x, Fail);
    FiringShown(x, w.ds[x].fail);
  }

  /** The handler has been added to every input that can be rejected. */
  lemma HandlerFound(w: World, base: seq<Frame>, o: nat, x: nat, y: Deferred)
    requires WhenInv(w) && Returned(w, base, o, x, y) && NoFrames(base) && w.ds[x].fail.enabled
    ensures FireList(MASTER, Fail) in w.ds[x].fail.log.added
  {
    hide CountInv, MasterInv, LoopInv, Gathered;
    assert FailFrom(w, w.when.value) == 0;
    assert w.when.value.inputs[o].d == x;
    assert !Seen(w, x, Fail).enabled || FireList(MASTER, Fail) in Added(w, x, Fail);
  }

  lemma NotYetWhen(u: World)
    requires WhenInv(u) && u.when.None?
    ensures NoWhen(u)
  {
  }

  lemma NoHandlerYet(u: World, x: nat)
    requires NoWhen(u) && x < |u.ds|
    ensures FireList(MASTER, Fail) !in u.ds[x].fail.log.added && NoFrames(u.stack)
  {
    forall j | 0 <= j < |u.ds[x].fail.log.added| ensures u.ds[x].fail.log.added[j] != FireList(MASTER, Fail) {
      assert !Handler(Added(u, x, Fail)[j]);
    }
  }

  lemma ThenHandlerNext(y: Deferred, z: Deferred)
    requires Gathered(y, z) && |y.fail.log.calls| == |y.fail.log.added| >= 6
    requires FireList(MASTER, Fail) in z.fail.log.added && FireList(MASTER, Fail) !in y.fail.log.added
    ensures HandlerNext(z)
  {
    var j :| 0 <= j < |z.fail.log.added| && z.fail.log.added[j] == FireList(MASTER, Fail);
    assert j < |y.fail.log.added| ==> y.fail.log.added[j] == z.fail.log.added[j];
  }

  lemma AtLeastHead(d: nat, l: List)
    requires LocalInv(d, Fail, l)
    ensures |l.log.added| >= 6
  {
  }

  /** No head is being run while user code is, so the head of `x` has been. */
  lemma HeadIsRun(w: World, x: nat)
    requires WorldInv(w) && LastCallback(w, x)
    ensures |w.ds[x].fail.log.calls| == |w.ds[x].fail.log.added| >= 6
  {
    hide DeferredInv, StackInv, HeadOnTop;
    WatchedLocal(w, x, Fail);
    AtLeastHead(x, w.ds[x].fail);
  }

  lemma SpentSecond(d: nat, l: List)
    requires LocalInv(d, Fail2, l) && l.firing && |l.log.calls| == |l.log.added|
    ensures Spent(l)
  {
    assert OnceMemoryInv(l);
  }

  /** Having returned, the callback leaves the handler to be called next. */
  lemma ReturnRejects(u: World, w: World, o: nat, x: nat, a: Args)
    requires WorldInv(u) && LastCallback(u, x) && NoWhen(u) && Seen(u, x, Fail).first == Some(a)
    requires WorldInv(w) && WhenInv(w) && Returned(w, u.stack, o, x, u.ds[x])
    ensures AllOk(w) && MASTER < |w.ds| && Rejecting(WorldStep(w, ApiReturn), x, a)
  {
    hide DeferredInv, StackInv, HeadOnTop, LoopInv, CountInv, RejectInv, MasterInv, LocalInv, Spent;
    InvOk(w);
    MasterSized(w);
    CallbackFires(u, x);
    HeadIsRun(u, x);
    WatchedLocal(w, x, Fail);
    FiringShown(x, w.ds[x].fail);
    HandlerFound(w, u.stack, o, x, u.ds[x]);
    NoHandlerYet(u, x);
    ThenHandlerNext(u.ds[x], w.ds[x]);
    var n := |w.stack|;
    if w.stack[n - 1] == Calling(x, Fail) {
      StackBelow(w, x, Fail);
    } else {
      StackBelow(w, x, Fail2);
      SecondLocal(w, x);
      SpentSecond(x, w.ds[x].fail2);
    }
  }

  /**
   A fail callback of `x` calls `k.when` with `x` among its arguments, none of which is rejected otherwise. When
   nothing that was added to `x` is left to call after this callback, and it returns as soon as `k.when` has, the
   promise is rejected with the arguments of `x`.
   */
  lemma RunningRejectionDecides(
      run: Run, n: nat, i: nat, inputs: seq<Input>, o: nat, x: nat, a: Args, m: nat, j: nat)
    requires IsRun(run, n) && i < m < j < |run.states| && run.states[j].stack == []
    requires run.events[i] == ApiWhen(inputs) && run.states[i].when.None? && NoneElseRejected(run.states[i], inputs, x)
    requires o < |inputs| && inputs[o] == Promise(x) && LastCallback(run.states[i], x)
    requires Seen(run.states[i], x, Fail).first == Some(a)
    requires UserRuns(run.states[m]) && run.events[m] == ApiReturn && forall l :: i < l < m ==> !UserRuns(run.states[l])
    ensures MASTER < |run.states[j].ds| && SettledThrough(run.states[j].ds[MASTER], Rejected, a)
  {
    hide SettledThrough, NewWorld, WorldStep, WorldInv, Inside, Rejecting, Won, WhenInv, NoWhen, NoneElseRejected;
    var u, w := run.states[i], run.states[m];
    var y := u.ds[x];
    RunKeepsWhen(run, n, i);
    RunKeepsWhen(run, n, m);
    NotYetWhen(u);
    CallbackFires(u, x);
    InsideBegins(u, inputs, o, x, a);
    assert Steps(run.states[i], run.events[i], run.states[i + 1]);
    InsideRun(run, n, i, m, u.stack, o, x, y);
    assert !Inside(w, u.stack, o, x, y) by { if Inside(w, u.stack, o, x, y) { InsideIsBusy(w, u.stack, o, x, y); } }
    ReturnRejects(u, w, o, x, a);
    assert Steps(run.states[m], run.events[m], run.states[m + 1]);
    RejectingRun(run, n, m + 1, j, x, a);
    assert !Rejecting(run.states[j], x, a) by { RejectingNotAtRest(run.states[j], x, a); }
    WonSettles(run, n, j, a);
  }
}
