/** Runs that show the limits of the laws in `WhenOrder`, built step by step (Mypintool/doc/html/jquery.js, line 2). */
module WhenFirst {
  import opened Optional
  import opened Values
  import opened CallbackList
  import opened CallbackRuns
  import opened Deferreds
  import opened DeferredRuns
  import opened DeferredWorld
  import opened DeferredLaws
  import opened WhenRuns
  import opened WhenSteps
  import opened WhenLaws
  import opened WhenOrder
  import opened WhenLoop
  import opened WorldRest

  function Last(run: Run): World
    requires run.states != []
  {
    run.states[|run.states| - 1]
  }

  ghost predicate Extends(run: Run, longer: Run, n: nat) {
    IsRun(longer, n) && run.states <= longer.states && run.events <= longer.events
  }

  lemma ExtendsOn(a: Run, b: Run, c: Run, n: nat)
    requires Extends(a, b, n) && Extends(b, c, n)
    ensures Extends(a, c, n)
  {
  }

  /** One event more. */
  lemma OneStep(run: Run, n: nat, e: Event) returns (longer: Run)
    requires IsRun(run, n)
    ensures Extends(run, longer, n) && |longer.events| == |run.events| + 1 && longer.events[|run.events|] == e
    ensures Steps(Last(run), e, Last(longer)) && WorldInv(Last(run))
  {
    hide WorldInv, WorldStep, NewWorld;
    RunKeeps(run, n, |run.events|);
    longer := RunGoesOn(run, n, e);
    assert longer.states[|run.events|] == Last(run);
    assert Steps(longer.states[|run.events|], longer.events[|run.events|], longer.states[|run.events| + 1]);
  }

  // ----- rejecting, and letting the code come to rest -----

  lemma RejectTouches(w: World, d: nat, a: Args)
    requires AllOk(w) && MASTER < d < |w.ds| && UserRuns(w)
    ensures var r := WorldStep(w, ApiFire(d, Fail, a));
      && |r.ds| == |w.ds| && r.when == w.when && forall e: nat :: e < |w.ds| && e != d ==> r.ds[e] == w.ds[e]
  {
    hide DoFire, Ok;
  }

  /** Rejecting a pending deferred at rest and going on to rest: it is rejected, and no other deferred is settled. */
  lemma RejectAndRest(run: Run, n: nat, d: nat, a: Args) returns (longer: Run)
    requires IsRun(run, n) && Last(run).stack == [] && MASTER < d < |Last(run).ds| && Last(run).ds[d].history == []
    ensures Extends(run, longer, n) && |longer.events| > |run.events|
    ensures longer.events[|run.events|] == ApiFire(d, Fail, a)
    ensures var w, r := Last(run), Last(longer);
      && r.stack == [] && |r.ds| == |w.ds| && SettledThrough(r.ds[d], Rejected, a) && (r.when.Some? == w.when.Some?)
      && forall e: nat :: MASTER < e < |w.ds| && e != d ==>
        r.ds[e].done.fired == w.ds[e].done.fired && r.ds[e].fail.fired == w.ds[e].fail.fired
  {
    hide WorldStep, NewWorld, SettledThrough, AllDeferreds, StackInv, HeadOnTop;
    var next := OneStep(run, n, ApiFire(d, Fail, a));
    RejectTouches(Last(run), d, a);
    assert next.states[|next.events|] == Last(next);
    longer := ComesToRest(next, n);
    ExtendsOn(run, next, longer, n);
    assert longer.states[|run.events|] == Last(run) && longer.events[|run.events|] == next.events[|run.events|];
    FirstSettlementDecides(longer, n, |run.events|, Rejected, a, |longer.states| - 1, d);
  }

  lemma PendingAtRest(run: Run, n: nat, d: nat)
    requires IsRun(run, n) && Last(run).stack == [] && d < |Last(run).ds| && !Last(run).ds[d].done.fired
    requires !Last(run).ds[d].fail.fired
    ensures Last(run).ds[d].history == []
  {
    hide NewWorld, SettledThrough;
    AtRestPendingOrSettled(run, n, |run.states| - 1, d);
  }

  lemma NewUnfired(n: nat)
    requires n > MASTER
    ensures WorldInv(NewWorld(n))
    ensures forall d: nat :: d < n ==> !NewWorld(n).ds[d].done.fired && !NewWorld(n).ds[d].fail.fired
  {
    hide WorldInv, NewDeferred;
    NewWorldInv(n);
    forall d: nat | d < n ensures !NewWorld(n).ds[d].done.fired && !NewWorld(n).ds[d].fail.fired { NewAdded(d); }
  }

  // ----- a later rejection that wins -----

  lemma NewSize(n: nat)
    ensures |NewWorld(n).ds| == n && NewWorld(n).stack == [] && NewWorld(n).when == None
  {
  }

  lemma WhenAtRest(run: Run, n: nat, inputs: seq<Input>) returns (longer: Run)
    requires IsRun(run, n) && Last(run).stack == [] && Last(run).when.None? && GoodInputs(Last(run), inputs)
    ensures Extends(run, longer, n) && |longer.events| > |run.events| && longer.events[|run.events|] == ApiWhen(inputs)
    ensures Last(longer).stack == [] && |Last(longer).ds| == |Last(run).ds| && Unsettled(Last(run), Last(longer))
    ensures Last(longer).when.Some? && Last(longer).when.value.inputs == inputs
  {
    hide NewWorld, AllDeferreds, StackInv, HeadOnTop;
    var next := OneStep(run, n, ApiWhen(inputs));
    assert next.states[|next.events|] == Last(next);
    longer := ComesToRest(next, n);
    ExtendsOn(run, next, longer, n);
    assert longer.states[|next.events|] == Last(next);
    InputsStay(longer, n, |next.events|, |longer.states| - 1);
    assert longer.events[|run.events|] == next.events[|run.events|];
  }

  /**
   Two deferreds are rejected one after the other and then passed to `k.when` in that order, with no user callback
   anywhere: the promise is rejected with the arguments of the second, which was rejected later.
   */
  lemma LaterRejectionWins(first: Args, second: Args) returns (run: Run, i: nat, j: nat)
    ensures IsRun(run, 3) && i < j < |run.states| - 1
    ensures run.states[i].stack == [] && |run.states[i].ds| == 3
    ensures SettledThrough(run.states[i].ds[1], Rejected, first) && run.states[i].ds[2].history == []
    ensures run.states[j].stack == [] && |run.states[j].ds| == 3 && SettledThrough(run.states[j].ds[1], Rejected, first)
    ensures SettledThrough(run.states[j].ds[2], Rejected, second)
    ensures run.states[j].when.None? && run.events[j] == ApiWhen([Promise(1), Promise(2)])
    ensures Last(run).stack == [] && |Last(run).ds| == 3 && SettledThrough(Last(run).ds[MASTER], Rejected, second)
  {
    hide WorldStep, NewWorld, SettledThrough, AllDeferreds, StackInv, HeadOnTop, LastRejected;
    var start := Run([NewWorld(3)], []);
    NewUnfired(3);
    NewSize(3);
    PendingAtRest(start, 3, 1);
    var one := RejectAndRest(start, 3, 1, first);
    PendingAtRest(one, 3, 2);
    i := |one.states| - 1;
    var two := RejectAndRest(one, 3, 2, second);
    j := |two.states| - 1;
    assert two.states[0] == start.states[0] && two.states[i] == Last(one);
    assert two.events[0] == one.events[0] == ApiFire(1, Fail, first);
    FirstSettlementDecides(two, 3, 0, Rejected, first, j, 1);
    var inputs := [Promise(1), Promise(2)];
    run := WhenAtRest(two, 3, inputs);
    ThroughHistory(Last(two).ds[2], Rejected, second);
    RejectedAtRest(two, 3, j, inputs, 1, second);
    LastRejectedArgumentDecides(run, 3, j, inputs, 1, second, |run.states| - 1);
  }

  // ----- a rival that gets ahead -----

  predicate HandlerAdded(x: Deferred) { FireList(MASTER, Fail) in x.fail.log.added }

  /** Deferred `d` is being rejected, and `e` is still to be. */
  ghost predicate Racing(w: World, d: nat, e: nat) {
    && w.when.Some? && w.when.value.rejections == []
    && MASTER < d < |w.ds| && MASTER < e < |w.ds| && d != e
    && w.ds[d].fail.firing && |w.ds[d].fail.log.calls| <= 6
    && w.ds[e].history == [] && HandlerAdded(w.ds[e])
  }

  /** The head of `d` has been run, and its second fail list is about to be passed through. */
  predicate AtSecond(w: World, d: nat) {
    && d < |w.ds| && |w.ds[d].fail.log.calls| == 6 && w.ds[d].fail2.firing && w.ds[d].fail2.log.calls == []
    && Top(w) == Some(Firing(d, Fail2)) && |w.stack| >= 2 && w.stack[|w.stack| - 2] == Firing(d, Fail)
  }

  predicate SameFails(x: Deferred, y: Deferred) {
    x.fail.log.added == y.fail.log.added && x.fail2.log.added == y.fail2.log.added
  }

  lemma RaceHead(w: World, d: nat, e: nat)
    requires WorldInv(w) && Racing(w, d, e) && Top(w) == Some(Firing(d, Fail)) && |w.ds[d].fail.log.calls| < 6
    ensures AllOk(w) && MASTER < |w.ds|
    ensures var r := WorldStep(w, Internal);
      && Racing(r, d, e) && SameFails(w.ds[d], r.ds[d]) && |r.ds[d].fail.log.calls| == |w.ds[d].fail.log.calls| + 1
      && (if |w.ds[d].fail.log.calls| < 5 then Top(r) == Some(Firing(d, Fail)) else AtSecond(r, d))
  {
    hide WorldInv, FiringStep, HandlerAdded;
    HeadOfReject(w, d);
  }

  /** The head is run to its end; the second fail list is then about to be passed through. */
  lemma {:induction false} RaceToSecond(run: Run, n: nat, d: nat, e: nat) returns (longer: Run)
    requires IsRun(run, n) && Racing(Last(run), d, e) && Top(Last(run)) == Some(Firing(d, Fail))
    requires |Last(run).ds[d].fail.log.calls| < 6
    ensures Extends(run, longer, n)
    ensures var w, r := Last(run), Last(longer);
      Racing(r, d, e) && SameFails(w.ds[d], r.ds[d]) && AtSecond(r, d)
    decreases 6 - |Last(run).ds[d].fail.log.calls|
  {
    hide WorldInv, WorldStep, NewWorld, HandlerAdded;
    longer := OneStep(run, n, Internal);
    RaceHead(Last(run), d, e);
    if |Last(run).ds[d].fail.log.calls| < 5 {
      var next := longer;
      longer := RaceToSecond(next, n, d, e);
      ExtendsOn(run, next, longer, n);
    }
  }

  /** A user callback of `d` is reached before the handler, and no input has been passed on. */
  ghost predicate Ahead(w: World, e: nat) {
    && Top(w).Some? && Top(w).value.Calling? && w.when.Some? && w.when.value.rejections == []
    && MASTER < e < |w.ds| && w.ds[e].history == [] && HandlerAdded(w.ds[e])
  }

  lemma SecondUsers(d: nat, l: List)
    requires LocalInv(d, Fail2, l) && l.log.added != []
    ensures l.log.added[0].User?
  {
    hide Inv, SettlingList;
    assert Permitted(d, Fail2, 0, l.log.added[0]);
  }

  lemma InvOkSized(w: World)
    requires WorldInv(w)
    ensures AllOk(w) && MASTER < |w.ds|
  {
    hide DeferredInv;
    InvOk(w);
  }

  lemma RaceSecondCalls(w: World, d: nat, e: nat)
    requires WorldInv(w) && Racing(w, d, e) && AtSecond(w, d) && w.ds[d].fail2.log.added != []
    ensures AllOk(w) && MASTER < |w.ds|
    ensures Ahead(WorldStep(w, Internal), e)
  {
    hide DeferredInv, StackInv, HeadOnTop, LocalInv, DoTurn, HandlerAdded;
    InvOkSized(w);
    SecondLocal(w, d);
    var l := w.ds[d].fail2;
    assert Ok(Get(w.ds[d], Fail2));
    GetSet(w.ds[d], Fail2, DoTurn(l));
    CallsUntilDone(d, Fail2, l);
    SecondUsers(d, l);
  }

  lemma RaceSecondEmpty(w: World, d: nat, e: nat)
    requires WorldInv(w) && Racing(w, d, e) && AtSecond(w, d) && w.ds[d].fail2.log.added == []
    ensures AllOk(w) && MASTER < |w.ds|
    ensures var r := WorldStep(w, Internal);
      Racing(r, d, e) && SameFails(w.ds[d], r.ds[d]) && |r.ds[d].fail.log.calls| == 6 && Top(r) == Some(Firing(d, Fail))
  {
    hide DeferredInv, StackInv, HeadOnTop, LocalInv, DoTurn, HandlerAdded;
    InvOkSized(w);
    SecondLocal(w, d);
    var l := w.ds[d].fail2;
    assert Ok(Get(w.ds[d], Fail2));
    GetSet(w.ds[d], Fail2, DoTurn(l));
    EmptyPass(d, Fail2, l);
    SpentTurn(d, Fail2, l);
    SpentCalls(l);
    SpentAdds(l);
  }

  /** What a fail list holds behind its head. */
  lemma UserOrHandler(d: nat, l: List, j: nat)
    requires LocalInv(d, Fail, l) && 6 <= j < |l.log.added|
    ensures l.log.added[j].User? || l.log.added[j] == FireList(MASTER, Fail)
  {
    hide Inv, SettlingList;
    assert Permitted(d, Fail, j, l.log.added[j]);
  }

  lemma HandlerPlace(d: nat, l: List, j: nat)
    requires LocalInv(d, Fail, l) && j < |l.log.added| && l.log.added[j] == FireList(MASTER, Fail)
    ensures j >= 6
  {
    hide Inv, SettlingList;
    assert Permitted(d, Fail, j, l.log.added[j]);
  }

  lemma RaceUser(w: World, d: nat, e: nat)
    requires WorldInv(w) && Racing(w, d, e) && |w.ds[d].fail.log.calls| == 6 && Top(w) == Some(Firing(d, Fail))
    requires |w.ds[d].fail.log.added| > 6 && w.ds[d].fail.log.added[6] != FireList(MASTER, Fail)
    ensures AllOk(w) && MASTER < |w.ds|
    ensures var r := WorldStep(w, Internal);
      && Top(r).Some? && Top(r).value.Calling? && r.when == w.when && |r.ds| == |w.ds| && r.ds[e] == w.ds[e]
  {
    hide DeferredInv, StackInv, HeadOnTop, LocalInv, DoTurn, HandlerAdded;
    InvOk(w);
    MasterSized(w);
    WatchedLocal(w, d, Fail);
    var l := w.ds[d].fail;
    assert Ok(Get(w.ds[d], Fail));
    GetSet(w.ds[d], Fail, DoTurn(l));
    CallsUntilDone(d, Fail, l);
    UserOrHandler(d, l, 6);
  }

  lemma GetAhead(run: Run, n: nat, d: nat, e: nat) returns (longer: Run)
    requires IsRun(run, n) && Racing(Last(run), d, e) && Top(Last(run)) == Some(Firing(d, Fail))
    requires Last(run).ds[d].fail.log.calls == [] && |Last(run).ds[d].fail.log.added| > 6
    requires !HandlerFirst(Last(run).ds[d])
    ensures Extends(run, longer, n) && Ahead(Last(longer), e)
  {
    hide WorldInv, WorldStep, NewWorld;
    var second := RaceToSecond(run, n, d, e);
    var after := OneStep(second, n, Internal);
    ExtendsOn(run, second, after, n);
    longer := after;
    if Last(second).ds[d].fail2.log.added != [] {
      RaceSecondCalls(Last(second), d, e);
    } else {
      RaceSecondEmpty(Last(second), d, e);
      longer := OneStep(after, n, Internal);
      RaceUser(Last(after), d, e);
      ExtendsOn(run, after, longer, n);
    }
  }

  lemma RaceBegins(w: World, d: nat, e: nat, a: Args)
    requires WorldInv(w) && WhenInv(w) && UserRuns(w) && w.when.Some? && NoneRejected(w, w.when.value.inputs)
    requires Promise(d) in w.when.value.inputs && Promise(e) in w.when.value.inputs && d != e
    requires w.ds[d].history == [] && w.ds[e].history == [] && HandlerAdded(w.ds[e])
    ensures AllOk(w) && MASTER < |w.ds|
    ensures var r := WorldStep(w, ApiFire(d, Fail, a));
      && Racing(r, d, e) && Top(r) == Some(Firing(d, Fail)) && SameFails(w.ds[d], r.ds[d])
        && r.ds[d].fail.log.calls == []
  {
    hide DeferredInv, StackInv, HeadOnTop, WhenInv, HandlerAdded, DoFire;
    InvOk(w);
    MasterSized(w);
    QuietUnlessFiring(w);
    NoneRejectedYet(w, w.when.value);
    RejectTouches(w, d, a);
    assert !Settling(w.ds[d], Rejected);
    PendingRejects(w.ds[d], d, a);
    GetSet(w.ds[d], Fail, DoFire(w.ds[d].fail, a));
  }

  lemma PendingViews(x: Deferred, d: nat)
    requires DeferredInv(x, d) && x.history == [] && !Settling(x, Rejected)
    ensures x.fail.enabled
  {
    hide LocalInv;
    SetShows(x, Fail, x.fail);
    PendingIsOpen(ViewsOf(x), Rejected);
  }

  lemma BehindHead(d: nat, l: List)
    requires LocalInv(d, Fail, l) && FireList(MASTER, Fail) in l.log.added
    ensures |l.log.added| > 6
  {
    hide LocalInv;
    var j :| 0 <= j < |l.log.added| && l.log.added[j] == FireList(MASTER, Fail);
    HandlerPlace(d, l, j);
  }

  /** Once `k.when` has returned, a pending input has its handler, somewhere behind the head. */
  lemma HandlerThere(w: World, v: When, d: nat)
    requires WorldInv(w) && WhenInv(w) && UserRuns(w) && w.when == Some(v) && Promise(d) in v.inputs
    requires v.t == 0 && GatheringFail !in w.stack
    ensures d < |w.ds| && (w.ds[d].history == [] ==> |w.ds[d].fail.log.added| > 6 && HandlerAdded(w.ds[d]))
  {
    hide DeferredInv, CountInv, MasterInv, HeadOnTop, StackInv;
    var p: nat :| p < |v.inputs| && v.inputs[p] == Promise(d);
    assert v.t == 0 && FailFrom(w, v) == 0;
    if w.ds[d].history == [] {
      QuietUnlessFiring(w);
      assert !Settling(w.ds[d], Rejected);
      WatchedLocal(w, d, Fail);
      PendingViews(w.ds[d], d);
      assert FireList(MASTER, Fail) in Added(w, d, Fail);
      BehindHead(d, w.ds[d].fail);
    }
  }

  // ----- the rival's rejection goes through -----

  predicate InFail(stack: seq<Frame>, e: nat) { stack != [] && stack[|stack| - 1] == Firing(e, Fail) }

  predicate InFails(stack: seq<Frame>, e: nat) {
    InFail(stack, e) || (stack != [] && stack[|stack| - 1] == Firing(e, Fail2) && InFail(stack[..|stack| - 1], e))
  }

  /** On top of the stack `e` is being rejected; at most one of its callbacks is running. */
  predicate OnTop(stack: seq<Frame>, e: nat) {
    InFails(stack, e) || (stack != [] && stack[|stack| - 1].Calling? && InFails(stack[..|stack| - 1], e))
  }

  predicate HandlerAhead(l: List) {
    exists k :: |l.log.calls| <= k < |l.log.added| && l.log.added[k] == FireList(MASTER, Fail)
  }

  /** Deferred `e` is being rejected with `b`, ahead of everything else, and the handler is still to be reached. */
  ghost predicate Overtaking(w: World, e: nat, b: Args) {
    && w.when.Some? && w.when.value.rejections == [] && MASTER < e < |w.ds|
    && w.ds[e].fail.firing && Seen(w, e, Fail).first == Some(b) && HandlerAhead(w.ds[e].fail) && OnTop(w.stack, e)
  }

  lemma OvertakeBegins(w: World, e: nat, b: Args)
    requires WorldInv(w) && Ahead(w, e)
    ensures AllOk(w) && MASTER < |w.ds| && Overtaking(WorldStep(w, ApiFire(e, Fail, b)), e, b)
  {
    hide DeferredInv, StackInv, DoFire;
    InvOkSized(w);
    QuietUnlessFiring(w);
    assert !Settling(w.ds[e], Rejected);
    PendingRejects(w.ds[e], e, b);
    GetSet(w.ds[e], Fail, DoFire(w.ds[e].fail, b));
  }

  lemma HandlerBehind(d: nat, l: List)
    requires LocalInv(d, Fail, l) && |l.log.calls| < 6 && HandlerAhead(l)
    ensures exists k :: |l.log.calls| + 1 <= k < |l.log.added| && l.log.added[k] == FireList(MASTER, Fail)
  {
    hide LocalInv;
    var k :| |l.log.calls| <= k < |l.log.added| && l.log.added[k] == FireList(MASTER, Fail);
    HandlerPlace(d, l, k);
  }

  lemma SecondCalls(d: nat, l: List)
    requires LocalInv(d, Fail2, l) && l.firing && Calls(l)
    ensures NextCall(l).fn.User?
  {
    var j := l.items[l.index + 1].serial;
    assert Permitted(d, Fail2, j, l.log.added[j]);
  }

  lemma PushPops(stack: seq<Frame>, f: Frame)
    ensures (stack + [f])[..|stack + [f]| - 1] == stack
  {
  }

  lemma FailLocal(w: World, d: nat)
    requires WorldInv(w) && d < |w.ds|
    ensures LocalInv(d, Fail, w.ds[d].fail)
  {
    assert LocalInv(d, Fail, Get(w.ds[d], Fail));
  }

  lemma StillAhead(l: List, r: List)
    requires exists k :: |l.log.calls| + 1 <= k < |l.log.added| && l.log.added[k] == FireList(MASTER, Fail)
    requires r.log.added == l.log.added && |r.log.calls| == |l.log.calls| + 1
    ensures HandlerAhead(r)
  {
  }

  lemma OvertakingHead(w: World, e: nat, b: Args)
    requires WorldInv(w) && Overtaking(w, e, b) && InFail(w.stack, e) && |w.ds[e].fail.log.calls| < 6
    ensures AllOk(w) && MASTER < |w.ds| && Overtaking(FiringStep(w, e, Fail), e, b)
  {
    hide WorldInv, FiringStep, LocalInv, HandlerAhead;
    InvOkSized(w);
    HeadOfReject(w, e);
    FailLocal(w, e);
    HandlerBehind(e, w.ds[e].fail);
    var l := FiringStep(w, e, Fail).ds[e].fail;
    assert HandlerAhead(l) by { StillAhead(w.ds[e].fail, l); }
    PushPops(w.stack, Firing(e, Fail2));
  }

  lemma SomeLeft(l: List)
    requires HandlerAhead(l)
    ensures |l.log.calls| < |l.log.added|
    ensures l.log.added[|l.log.calls|].User? ==>
      exists k :: |l.log.calls| + 1 <= k < |l.log.added| && l.log.added[k] == FireList(MASTER, Fail)
  {
  }

  lemma OvertakingTail(w: World, e: nat, b: Args)
    requires WorldInv(w) && Overtaking(w, e, b) && InFail(w.stack, e) && |w.ds[e].fail.log.calls| >= 6
    ensures AllOk(w) && MASTER < |w.ds| && var r := FiringStep(w, e, Fail); Overtaking(r, e, b) || Won(r, b)
  {
    hide DeferredInv, StackInv, HeadOnTop, DoTurn, LocalInv, HandlerAhead;
    InvOkSized(w);
    var l := w.ds[e].fail;
    FailLocal(w, e);
    SomeLeft(l);
    assert Ok(Get(w.ds[e], Fail));
    CallsUntilDone(e, Fail, l);
    UserOrHandler(e, l, |l.log.calls|);
    GetSet(w.ds[e], Fail, DoTurn(l));
    if l.log.added[|l.log.calls|].User? {
      StillAhead(l, DoTurn(l));
      PushPops(w.stack, Calling(e, Fail));
    }
  }

  lemma OnTopOfSecond(stack: seq<Frame>, e: nat)
    requires InFails(stack, e) && stack[|stack| - 1] == Firing(e, Fail2)
    ensures OnTop(stack[..|stack| - 1], e) && OnTop(stack + [Calling(e, Fail2)], e)
  {
    PushPops(stack, Calling(e, Fail2));
  }

  lemma SecondOnTop(stack: seq<Frame>, e: nat)
    requires OnTop(stack, e) && stack != [] && stack[|stack| - 1] == Firing(e, Fail2)
    ensures InFails(stack, e)
  {
  }

  lemma OvertakingSecond(w: World, e: nat, b: Args)
    requires WorldInv(w) && Overtaking(w, e, b) && Top(w) == Some(Firing(e, Fail2))
    ensures AllOk(w) && MASTER < |w.ds| && Overtaking(FiringStep(w, e, Fail2), e, b)
  {
    hide DeferredInv, HeadOnTop, StackInv, DoTurn, LocalInv, HandlerAhead, OnTop, InFails;
    InvOkSized(w);
    var l := w.ds[e].fail2;
    SecondLocal(w, e);
    TopInRange(w);
    SecondOnTop(w.stack, e);
    OnTopOfSecond(w.stack, e);
    assert Ok(Get(w.ds[e], Fail2));
    GetSet(w.ds[e], Fail2, DoTurn(l));
    if Calls(l) { SecondCalls(e, l); } else { SpentTurn(e, Fail2, l); }
  }

  lemma OvertakingStep(w: World, e: nat, b: Args)
    requires WorldInv(w) && Overtaking(w, e, b)
    ensures w.stack != [] && AllOk(w) && MASTER < |w.ds|
    ensures var r := WorldStep(w, NextEvent(w)); Overtaking(r, e, b) || Won(r, b)
  {
    hide WorldInv, FiringStep, HandlerAhead;
    InvOkSized(w);
    if InFail(w.stack, e) {
      if |w.ds[e].fail.log.calls| < 6 { OvertakingHead(w, e, b); } else { OvertakingTail(w, e, b); }
    } else if InFails(w.stack, e) {
      OvertakingSecond(w, e, b);
    }
  }

  /** With callbacks that return at once, the handler of `e` is reached before any other. */
  lemma {:induction false} OvertakeRun(run: Run, n: nat, e: nat, b: Args) returns (longer: Run)
    requires IsRun(run, n) && Overtaking(Last(run), e, b)
    ensures Extends(run, longer, n) && Won(Last(longer), b)
    decreases Debt(Last(run)), Total(Last(run).ds, Queued), Total(Last(run).ds, Ahead1),
              Total(Last(run).ds, Queued2), Total(Last(run).ds, Ahead2), |Last(run).stack|
  {
    hide WorldInv, WorldStep, NewWorld, Overtaking, Won, Debt, Total;
    var w := Last(run);
    RunKeeps(run, n, |run.events|);
    OvertakingStep(w, e, b);
    StepNearer(w);
    var next := OneStep(run, n, NextEvent(w));
    longer := next;
    if !Won(Last(next), b) {
      longer := OvertakeRun(next, n, e, b);
      ExtendsOn(run, next, longer, n);
    }
  }

  /**
   The running callback rejects `e`, and all callbacks return at once: the promise is rejected with the arguments of
   `e`.
   */
  lemma OvertakeToRest(run: Run, n: nat, e: nat, b: Args) returns (longer: Run)
    requires IsRun(run, n) && Ahead(Last(run), e)
    ensures Extends(run, longer, n) && |longer.events| > |run.events|
    ensures longer.events[|run.events|] == ApiFire(e, Fail, b)
    ensures Last(longer).stack == [] && MASTER < |Last(longer).ds|
    ensures SettledThrough(Last(longer).ds[MASTER], Rejected, b)
  {
    hide WorldInv, WhenInv, WorldStep, NewWorld, SettledThrough, HandlerAdded, Overtaking, Won;
    var fired := OneStep(run, n, ApiFire(e, Fail, b));
    OvertakeBegins(Last(run), e, b);
    var won := OvertakeRun(fired, n, e, b);
    ExtendsOn(run, fired, won, n);
    longer := ComesToRest(won, n);
    ExtendsOn(run, won, longer, n);
    assert longer.states[|won.events|] == Last(won) && longer.events[|run.events|] == fired.events[|run.events|];
    WonRun(longer, n, |won.events|, |longer.states| - 1, b);
    WonSettles(longer, n, |longer.states| - 1, b);
  }

  /** `longer` is a run in which `d` is rejected with `a` right after `run`; at `j` it is at rest. */
  ghost predicate GoesOn(run: Run, longer: Run, n: nat, d: nat, a: Args, j: nat) {
    && Extends(run, longer, n) && |run.events| < j < |longer.states| && |run.events| < |longer.events|
    && longer.events[|run.events|] == ApiFire(d, Fail, a) && longer.states[j].stack == []
  }

  /**
   A user callback in a fail list of `d`, before the handler, rejects another pending input `e`: the promise is
   rejected with those arguments, although `d` was rejected first.
   */
  lemma RivalWins(run: Run, n: nat, d: nat, e: nat, a: Args, b: Args) returns (longer: Run, k: nat)
    requires IsRun(run, n) && UserRuns(Last(run)) && Last(run).when.Some?
    requires NoneRejected(Last(run), Last(run).when.value.inputs)
    requires Promise(d) in Last(run).when.value.inputs && Promise(e) in Last(run).when.value.inputs && d != e
    requires Last(run).ds[d].history == [] && Last(run).ds[e].history == [] && !HandlerFirst(Last(run).ds[d])
    ensures longer.states != [] && GoesOn(run, longer, n, d, a, |longer.states| - 1)
    ensures |run.events| < k < |longer.events| && longer.events[k] == ApiFire(e, Fail, b) && UserRuns(longer.states[k])
    ensures MASTER < e < |longer.states[k].ds| && longer.states[k].ds[e].history == []
    ensures MASTER < |Last(longer).ds| && SettledThrough(Last(longer).ds[MASTER], Rejected, b)
  {
    hide WorldInv, WhenInv, WorldStep, NewWorld, NoneRejected, SettledThrough, HandlerAdded, Overtaking, Won;
    RunKeepsWhen(run, n, |run.states| - 1);
    UserRunsAfterLoop(run, n, |run.states| - 1);
    HandlerThere(Last(run), Last(run).when.value, d);
    HandlerThere(Last(run), Last(run).when.value, e);
    var next := OneStep(run, n, ApiFire(d, Fail, a));
    RaceBegins(Last(run), d, e, a);
    var ahead := GetAhead(next, n, d, e);
    ExtendsOn(run, next, ahead, n);
    longer := OvertakeToRest(ahead, n, e, b);
    ExtendsOn(run, ahead, longer, n);
    k := |ahead.events|;
    assert longer.states[k] == Last(ahead) && longer.events[|run.events|] == next.events[|run.events|];
  }

  lemma NewOpen(d: nat)
    ensures NewDeferred(d).fail.enabled && !NewDeferred(d).fail.firing
  {
    PushAllKeepsQueue(New(ONCE_MEMORY), Head(d, Rejected));
  }

  /** `.fail` on a deferred that nothing has been done to. */
  lemma AddToNew(d: nat, id: nat)
    requires MASTER < d < 3
    ensures AllOk(NewWorld(3))
    ensures var r := WorldStep(NewWorld(3), ApiAdd(d, Fail, [id]));
      && r.stack == [] && |r.ds| == 3 && r.when.None? && r.ds[d].fail.log.added == Head(d, Rejected) + [User(id)]
      && forall e: nat :: e < 3 ==> !r.ds[e].done.fired && !r.ds[e].fail.fired
  {
    hide NewDeferred, DeferredInv, StackInv, HeadOnTop, LocalInv, DoAdd;
    NewUnfired(3);
    NewAdded(d);
    NewOpen(d);
    InvOkSized(NewWorld(3));
    var l := NewWorld(3).ds[d].fail;
    assert Ok(Get(NewWorld(3).ds[d], Fail));
    WatchedLocal(NewWorld(3), d, Fail);
    assert UserFns([id]) == [User(id)];
    AddRefires(d, Fail, l, User(id));
    WatchedAdd(NewWorld(3), d, Fail, [User(id)]);
    GetSet(NewWorld(3).ds[d], Fail, DoAdd(l, [User(id)]));
  }

  lemma AddedStays(x: Deferred, y: Deferred, fn: Fn)
    requires DeferredGrows(x, y) && x.fail.log.added == Head(1, Rejected) + [fn] && fn.User?
    ensures !HandlerFirst(y)
  {
    assert Grows(Get(x, Fail), Get(y, Fail));
    assert x.fail.log.added[6] == fn;
  }

  /**
   A concrete run: `.fail` on the first deferred, then `k.when` on both. The first is rejected first, its callback
   rejects the second, and the promise is rejected with the arguments of the second.
   */
  lemma FirstRejectionLoses(first: Args, second: Args) returns (run: Run, i: nat, k: nat)
    ensures IsRun(run, 3) && 1 < i < k < |run.events|
    ensures run.events[0] == ApiAdd(1, Fail, [0]) && run.events[1] == ApiWhen([Promise(1), Promise(2)])
    ensures run.states[i].stack == [] && |run.states[i].ds| == 3
    ensures run.states[i].ds[1].history == run.states[i].ds[2].history == []
    ensures run.events[i] == ApiFire(1, Fail, first) && run.events[k] == ApiFire(2, Fail, second)
    ensures Last(run).stack == [] && |Last(run).ds| == 3
    ensures SettledThrough(Last(run).ds[1], Rejected, first) && SettledThrough(Last(run).ds[2], Rejected, second)
    ensures SettledThrough(Last(run).ds[MASTER], Rejected, second)
  {
    hide WorldStep, NewWorld, SettledThrough, AllDeferreds, StackInv, HeadOnTop, WorldInv;
    var start := Run([NewWorld(3)], []);
    NewUnfired(3);
    NewSize(3);
    AddToNew(1, 0);
    var one := OneStep(start, 3, ApiAdd(1, Fail, [0]));
    var two := WhenAtRest(one, 3, [Promise(1), Promise(2)]);
    i := |two.events|;
    PendingAtRest(two, 3, 1);
    PendingAtRest(two, 3, 2);
    RunGrows(two, 3, 1, i);
    AddedStays(Last(one).ds[1], Last(two).ds[1], User(0));
    run, k := RivalWins(two, 3, 1, 2, first, second);
    var last := |run.states| - 1;
    assert run.states[i] == Last(two) && run.events[0] == two.events[0] && run.events[1] == two.events[1];
    RunGrows(run, 3, i, last);
    FirstSettlementDecides(run, 3, i, Rejected, first, last, 1);
    FirstSettlementDecides(run, 3, k, Rejected, second, last, 2);
  }

  // ----- the exact condition -----

  /** Whatever happens afterwards, rejecting `d` now rejects the promise of `k.when` with the same arguments. */
  ghost predicate Decides(run: Run, n: nat, d: nat) {
    forall longer: Run, a: Args, j: nat {:trigger GoesOn(run, longer, n, d, a, j)} ::
      GoesOn(run, longer, n, d, a, j) ==>
      MASTER < |longer.states[j].ds| && SettledThrough(longer.states[j].ds[MASTER], Rejected, a)
  }

  /** Another input that nothing has settled. */
  predicate RivalOf(w: World, d: nat, e: nat)
    requires w.when.Some?
  {
    e != d && Promise(e) in w.when.value.inputs && e < |w.ds| && w.ds[e].history == []
  }

  lemma StaysResolved(run: Run, n: nat, i: nat, j: nat, e: nat)
    requires IsRun(run, n) && i <= j < |run.states| && e < |run.states[i].ds| && e < |run.states[j].ds|
    requires run.states[i].ds[e].history != [] && run.states[i].ds[e].history != [Rejected]
    ensures run.states[j].ds[e].history != [Rejected]
  {
    hide IsRun;
    SettlesAtMostOnce(run, n, i, j, e);
  }

  /** No other input is pending at `i`, and none rejected: so at rest `d` is the only one rejected. */
  lemma OnlyOneAtRest(run: Run, n: nat, i: nat, d: nat, j: nat)
    requires IsRun(run, n) && i <= j < |run.states| && run.states[j].stack == [] && run.states[i].when.Some?
    requires var w, inputs := run.states[i], run.states[i].when.value.inputs;
      NoneElseRejected(w, inputs, d) && Promise(d) in inputs && forall e: nat :: !RivalOf(w, d, e)
    requires d < |run.states[j].ds| && run.states[j].ds[d].history == [Rejected]
    ensures Seen(run.states[j], d, Fail).first.Some? && MASTER < |run.states[j].ds|
    ensures SettledThrough(run.states[j].ds[d], Rejected, Seen(run.states[j], d, Fail).first.value)
    ensures SettledThrough(run.states[j].ds[MASTER], Rejected, Seen(run.states[j], d, Fail).first.value)
  {
    hide WorldStep, NewWorld, SettledThrough, DeferredGrows;
    var w, r := run.states[i], run.states[j];
    RunGrows(run, n, i, j);
    InputsStay(run, n, i, j);
    var inputs := w.when.value.inputs;
    forall p | 0 <= p < |inputs| && inputs[p].Promise? && r.ds[inputs[p].d].history == [Rejected]
      ensures inputs[p].d == d {
      var e := inputs[p].d;
      assert !RivalOf(w, d, e);
      if e != d { StaysResolved(run, n, i, j, e); }
    }
    OnlyRejectionDecides(run, n, j, d, j);
  }

  lemma DeferredOf(w: World, d: nat)
    requires WorldInv(w) && d < |w.ds|
    ensures DeferredInv(w.ds[d], d)
  {
    hide DeferredInv;
  }

  lemma ExtendsAt(run: Run, longer: Run, n: nat)
    requires IsRun(run, n) && Extends(run, longer, n)
    ensures IsRun(longer, n) && |longer.states| == |longer.events| + 1
    ensures |run.states| == |run.events| + 1 <= |longer.states|
    ensures longer.states[|run.events|] == Last(run)
  {
  }

  /** When every other input has been resolved, `d` is the only input ever rejected. */
  lemma AloneDecides(run: Run, longer: Run, n: nat, d: nat, a: Args, j: nat)
    requires IsRun(run, n) && UserRuns(Last(run)) && Last(run).when.Some?
    requires NoneRejected(Last(run), Last(run).when.value.inputs)
    requires Promise(d) in Last(run).when.value.inputs && Last(run).ds[d].history == []
    requires forall e: nat :: !RivalOf(Last(run), d, e)
    requires GoesOn(run, longer, n, d, a, j)
    ensures MASTER < |longer.states[j].ds| && SettledThrough(longer.states[j].ds[MASTER], Rejected, a)
  {
    hide WorldStep, NewWorld, SettledThrough, HandlerFirst, DeferredGrows;
    ExtendsAt(run, longer, n);
    var i, r := |run.events|, longer.states[j];
    RunGrows(longer, n, i, j);
    FirstSettlementDecides(longer, n, i, Rejected, a, j, d);
    ThroughHistory(r.ds[d], Rejected, a);
    OnlyOneAtRest(longer, n, i, d, j);
    RunKeeps(longer, n, j);
    DeferredOf(r, d);
    SameArgs(r.ds[d], d, Rejected, a, Seen(r, d, Fail).first.value);
  }

  lemma TwoArgs(run: Run, n: nat, a: Args, b: Args)
    requires IsRun(run, n) && Last(run).stack == [] && MASTER < |Last(run).ds|
    requires SettledThrough(Last(run).ds[MASTER], Rejected, a) && SettledThrough(Last(run).ds[MASTER], Rejected, b)
    ensures a == b
  {
    hide WorldStep, NewWorld, SettledThrough, DeferredInv, StackInv, HeadOnTop;
    RestParts(run, n, |run.states| - 1);
    WatchedLocal(Last(run), MASTER, Fail);
    SameArgs(Last(run).ds[MASTER], MASTER, Rejected, a, b);
  }

  /**
   With user code running, also inside a callback, and no input rejected so far: rejecting the pending input `d`
   decides in every continuation if and only if nothing stands in its fail lists before the handler of `k.when`, or
   no other input is pending.
   */
  lemma FirstRejectionExactly(run: Run, n: nat, d: nat)
    requires IsRun(run, n) && UserRuns(Last(run)) && Last(run).when.Some?
    requires NoneRejected(Last(run), Last(run).when.value.inputs)
    requires Promise(d) in Last(run).when.value.inputs && Last(run).ds[d].history == []
    ensures Decides(run, n, d) <==> HandlerFirst(Last(run).ds[d]) || forall e: nat :: !RivalOf(Last(run), d, e)
  {
    hide WorldStep, NewWorld, SettledThrough, HandlerFirst;
    if HandlerFirst(Last(run).ds[d]) {
      forall longer: Run, a: Args, j: nat | GoesOn(run, longer, n, d, a, j)
        ensures MASTER < |longer.states[j].ds| && SettledThrough(longer.states[j].ds[MASTER], Rejected, a)
      {
        ExtendsAt(run, longer, n);
        FirstRejectionDecides(longer, n, |run.events|, d, a, j);
      }
    } else if e: nat :| RivalOf(Last(run), d, e) {
      var a, b := Args(Undefined, []), Args(Undefined, [Undefined]);
      var longer, k := RivalWins(run, n, d, e, a, b);
      if Decides(run, n, d) { TwoArgs(longer, n, a, b); }
    } else {
      forall longer: Run, a: Args, j: nat | GoesOn(run, longer, n, d, a, j)
        ensures MASTER < |longer.states[j].ds| && SettledThrough(longer.states[j].ds[MASTER], Rejected, a)
      {
        AloneDecides(run, longer, n, d, a, j);
      }
    }
  }

  // ----- an input that is being rejected -----

  ghost predicate RestsLater(run: Run, longer: Run, n: nat, j: nat) {
    Extends(run, longer, n) && |run.events| <= j < |longer.states| && longer.states[j].stack == []
  }

  /** Whatever happens from now on, the promise of `k.when` is rejected with `a`. */
  ghost predicate Decided(run: Run, n: nat, a: Args) {
    forall longer: Run, j: nat {:trigger RestsLater(run, longer, n, j)} :: RestsLater(run, longer, n, j) ==>
      MASTER < |longer.states[j].ds| && SettledThrough(longer.states[j].ds[MASTER], Rejected, a)
  }

  /** `d` has been rejected, with `a`, and no other input. */
  predicate OnlyRejected(w: World, d: nat, a: Args) {
    && w.when.Some? && d < |w.ds| && Promise(d) in w.when.value.inputs && Seen(w, d, Fail).first == Some(a)
    && NoneElseRejected(w, w.when.value.inputs, d)
  }

  lemma RivalIsAhead(run: Run, n: nat, d: nat, e: nat, a: Args)
    requires IsRun(run, n) && UserRuns(Last(run)) && Last(run).stack != [] && OnlyRejected(Last(run), d, a)
    requires Last(run).when.value.rejections == [] && RivalOf(Last(run), d, e)
    ensures Ahead(Last(run), e)
  {
    hide WorldStep, NewWorld, WorldInv, WhenInv, HandlerAdded;
    RunKeepsWhen(run, n, |run.states| - 1);
    UserRunsAfterLoop(run, n, |run.states| - 1);
    HandlerThere(Last(run), Last(run).when.value, e);
  }

  lemma SeenStays(w: World, r: World, d: nat, a: Args)
    requires WorldGrows(w, r) && d < |w.ds| && Seen(w, d, Fail).first == Some(a)
    ensures Seen(r, d, Fail).first == Some(a)
  {
    assert DeferredGrows(w.ds[d], r.ds[d]);
    assert Grows(Get(w.ds[d], Fail), Get(r.ds[d], Fail));
  }

  lemma RejectedThen(run: Run, n: nat, j: nat, d: nat)
    requires IsRun(run, n) && j < |run.states| && run.states[j].stack == [] && d < |run.states[j].ds|
    requires Seen(run.states[j], d, Fail).first.Some?
    ensures run.states[j].ds[d].history == [Rejected]
  {
    hide WorldStep, NewWorld, DeferredInv, StackInv;
    RunKeeps(run, n, j);
    var w := run.states[j];
    QuietUnlessFiring(w);
    assert !Settling(w.ds[d], Rejected);
    DeferredOf(w, d);
    FiredHistory(w.ds[d], d);
  }

  lemma OnlyOneDecides(run: Run, longer: Run, n: nat, d: nat, a: Args, j: nat)
    requires IsRun(run, n) && OnlyRejected(Last(run), d, a) && RestsLater(run, longer, n, j)
    requires forall e: nat :: !RivalOf(Last(run), d, e)
    ensures MASTER < |longer.states[j].ds| && SettledThrough(longer.states[j].ds[MASTER], Rejected, a)
  {
    hide WorldStep, NewWorld, SettledThrough, DeferredGrows;
    ExtendsAt(run, longer, n);
    RunGrows(longer, n, |run.events|, j);
    SeenStays(Last(run), longer.states[j], d, a);
    RejectedThen(longer, n, j, d);
    OnlyOneAtRest(longer, n, |run.events|, d, j);
  }

  /**
   A callback is running, perhaps of the input `d` that is being rejected, and the handler of `k.when` has not been
   reached, also when that callback is what called `k.when`: `d` decides in every continuation if and only if no other
   input is pending, since the callback could reject that one.
   */
  lemma RunningRejectionExactly(run: Run, n: nat, d: nat, a: Args)
    requires IsRun(run, n) && UserRuns(Last(run)) && Last(run).stack != [] && OnlyRejected(Last(run), d, a)
    requires Last(run).when.value.rejections == []
    ensures Decided(run, n, a) <==> forall e: nat :: !RivalOf(Last(run), d, e)
  {
    hide WorldStep, NewWorld, SettledThrough;
    if e: nat :| RivalOf(Last(run), d, e) {
      var b := if a.values == [] then Args(Undefined, [Undefined]) else Args(Undefined, []);
      RivalIsAhead(run, n, d, e, a);
      var longer := OvertakeToRest(run, n, e, b);
      assert RestsLater(run, longer, n, |longer.states| - 1);
      if Decided(run, n, a) { TwoArgs(longer, n, a, b); }
    } else {
      forall longer: Run, j: nat | RestsLater(run, longer, n, j)
        ensures MASTER < |longer.states[j].ds| && SettledThrough(longer.states[j].ds[MASTER], Rejected, a)
      {
        OnlyOneDecides(run, longer, n, d, a, j);
      }
    }
  }
}
