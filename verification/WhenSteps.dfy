/** The steps that belong to `k.when` itself: counting, rejecting, and the loop that adds its handlers. */
module WhenSteps {
  import opened Optional
  import opened Values
  import opened CallbackList
  import opened CallbackRuns
  import opened Deferreds
  import opened DeferredRuns
  import opened DeferredWorld
  import opened WhenRuns

  // ----- what one deferred knows of itself -----

  lemma ExclusiveViews(v: Views)
    requires Wired(v)
    ensures v.done.first.Some? ==> v.fail.first.None?
    ensures v.done.fired == v.done.first.Some? && v.fail.fired == v.fail.first.Some?
    ensures !v.fail.fired ==> v.done.enabled
    ensures !v.done.fired ==> v.fail.enabled
  {
  }

  lemma Exclusive(w: World, d: nat)
    requires AllDeferreds(w) && d < |w.ds|
    ensures Seen(w, d, Done).first.Some? ==> Seen(w, d, Fail).first.None?
    ensures Seen(w, d, Done).fired == Seen(w, d, Done).first.Some?
    ensures Seen(w, d, Fail).fired == Seen(w, d, Fail).first.Some?
    ensures !Seen(w, d, Fail).fired ==> Seen(w, d, Done).enabled
    ensures !Seen(w, d, Done).fired ==> Seen(w, d, Fail).enabled
  {
    hide LocalInv;
    assert DeferredInv(w.ds[d], d);
    ExclusiveViews(ViewsOf(w.ds[d]));
  }

  lemma MasterLocal(w: World, role: Role)
    requires AllDeferreds(w)
    ensures LocalInv(MASTER, role, Get(w.ds[MASTER], role)) && DeferredInv(w.ds[MASTER], MASTER)
  {
  }

  /** Firing a watched list of the master: what it looks like after. */
  lemma MasterFire(w: World, role: Role, args: Args)
    requires AllDeferreds(w) && Watched(role)
    ensures AllOk(w)
    ensures var r := Apply(w, MASTER, role, Fire(args));
      && |r.ds| == |w.ds| && r.when == w.when && BoringDeferreds(w, r) && SameGathering(w.stack, r.stack)
      && Seen(r, MASTER, role) == Fired(Seen(w, MASTER, role), args)
      && (forall other :: other != role ==> Seen(r, MASTER, other) == Seen(w, MASTER, other))
    ensures Seen(w, MASTER, role).fired ==> Seen(w, MASTER, role).locked
    ensures Seen(w, MASTER, role).enabled ==> Seen(w, MASTER, role).fired == Seen(w, MASTER, role).locked
  {
    hide DeferredInv, DoFire, BoringList, BoringDeferreds, SameGathering, Ok, Inv, StackInv;
    InvOk(w);
    var l := Get(w.ds[MASTER], role);
    MasterLocal(w, role);
    FireSeen(MASTER, role, l, args);
    FireBoring(w.ds[MASTER], MASTER, role, args);
    PutBoring(w, MASTER, role, DoFire(l, args));
    ApplyStackSame(w, MASTER, role, Fire(args));
    var r := Apply(w, MASTER, role, Fire(args));
    BoringDs(w, SetList(w, MASTER, role, DoFire(l, args)), r);
    SizedBoring(w, r);
    GetSet(w.ds[MASTER], role, DoFire(l, args));
  }

  // ----- counting -----

  /** The handler of position `p` has just been called with `args`; the rest of `k.when` is as it was. */
  ghost predicate CountDue(w: World, v: When, p: nat, args: Args) {
    && LoopInv(w, v) && CountInv(w, v, p) && RejectInv(w, v, -1) && MasterInv(w, v)
    && v.t <= p < |v.inputs| && p in v.open
    && match v.inputs[p]
       case Plain(x) => args == Args(Undefined, [x])
       case Promise(d) => Seen(w, d, Done).first == Some(args)
  }

  function Counted(v: When, p: nat, args: Args): When
    requires p < |v.contexts| && p < |v.values|
  {
    v.(contexts := v.contexts[p := args.context], values := v.values[p := Collected(args)],
       remaining := v.remaining - 1, open := v.open - {p})
  }

  lemma SameHandlers(w: World, v: When, r: World, v': When, d: nat, due: int, due': int)
    requires w.ds == r.ds && d < |w.ds| && v'.inputs == v.inputs && RejectHandlers(w, v, d, due)
    requires v.rejections != [] ==> v'.rejections != []
    requires due == due' || v'.rejections != []
    ensures RejectHandlers(r, v', d, due')
  {
    forall j | 0 <= j < |Added(r, d, Fail)| && Added(r, d, Fail)[j] == FireList(MASTER, Fail)
      ensures Promise(d) in v'.inputs && (d != due' && j < Seen(r, d, Fail).calls ==> v'.rejections != [])
    {
      assert Added(w, d, Fail)[j] == FireList(MASTER, Fail);
    }
  }

  lemma CountedInv(w: World, v: When, p: nat, args: Args)
    requires w.when == Some(v) && CountDue(w, v, p, args)
    ensures var r := w.(when := Some(Counted(v, p, args)));
      && LoopInv(r, Counted(v, p, args)) && CountInv(r, Counted(v, p, args), -1)
        && RejectInv(r, Counted(v, p, args), -1)
  {
    var v' := Counted(v, p, args);
    var r := w.(when := Some(v'));
    forall d: nat, j | d < |r.ds| && 0 <= j < |Added(r, d, Done)| && Added(r, d, Done)[j].CountDown?
      ensures CountHandler(r, v', d, j, -1)
    {
      assert CountHandler(w, v, d, j, p);
    }
    forall d: nat | d < |r.ds| ensures CountsOnce(Added(r, d, Done)) && RejectHandlers(r, v', d, -1) {
      assert CountsOnce(Added(w, d, Done)) && RejectHandlers(w, v, d, -1);
      SameHandlers(w, v, r, v', d, -1, -1);
    }
    forall q: nat | q < |v'.inputs| ensures Position(r, v', q, -1) {
      assert Position(w, v, q, p);
    }
    forall k | 0 <= k < |v'.rejections| ensures RejectedBy(r, v', v'.rejections[k]) {
      assert RejectedBy(w, v, v.rejections[k]);
    }
  }

  /** When every position is counted, every input has resolved, so none has rejected. */
  lemma AllCountedNoneRejected(w: World, v: When)
    requires AllDeferreds(w) && LoopInv(w, v) && CountInv(w, v, -1) && RejectInv(w, v, -1) && v.open == {}
    ensures v.rejections == []
  {
    if v.rejections != [] {
      assert RejectedBy(w, v, v.rejections[0]);
      var p :| 0 <= p < |v.inputs| && v.inputs[p].Promise?
        && Seen(w, v.inputs[p].d, Fail).first == Some(v.rejections[0]);
      assert Position(w, v, p, -1);
      Exclusive(w, v.inputs[p].d);
    }
  }

  lemma CountDueSizes(w: World, v: When, p: nat, args: Args)
    requires CountDue(w, v, p, args)
    ensures p < |v.contexts| && p < |v.values| && p in v.open && v.remaining == |v.open| && MasterInv(w, v)
    ensures |v.open - {p}| == |v.open| - 1
  {
  }

  lemma MasterWaits(w: World, v: When, w': World, v': When)
    requires MasterInv(w, v) && w'.ds == w.ds && v.open != {} && v'.open != {} && v'.rejections == v.rejections
    ensures MasterInv(w', v')
  {
  }

  lemma MasterResolves(w: World, v: When)
    requires AllDeferreds(w) && w.when == Some(v) && v.open == {} && v.rejections == []
    requires LoopInv(w, v) && CountInv(w, v, -1) && RejectInv(w, v, -1)
    requires !Seen(w, MASTER, Done).fired && !Seen(w, MASTER, Fail).fired
    ensures AllOk(w) && WhenInv(Apply(w, MASTER, Done, Fire(Args(Arr(v.contexts), v.values))))
  {
    hide DeferredInv, LoopInv, CountInv, RejectInv, BoringDeferreds, BoringList, SameGathering, Apply;
    InvOk(w);
    var args := Args(Arr(v.contexts), v.values);
    MasterFire(w, Done, args);
    Exclusive(w, MASTER);
    var r := Apply(w, MASTER, Done, Fire(args));
    CallsWithinAdded(w);
    BoringLoop(w, r, v);
    BoringCount(w, r, v, -1);
    BoringReject(w, r, v, -1);
  }

  lemma CountFinishes(w: World, v: When, p: nat, args: Args)
    requires AllDeferreds(w) && w.when == Some(v) && CountDue(w, v, p, args)
    ensures AllOk(w) && WhenInv(Count(w, p, args))
  {
    hide DeferredInv, LoopInv, CountInv, RejectInv, BoringList, Apply, Position;
    InvOk(w);
    CountedInv(w, v, p, args);
    CountDueSizes(w, v, p, args);
    var v' := Counted(v, p, args);
    var w' := w.(when := Some(v'));
    var r := Count(w, p, args);
    if v'.remaining == 0 {
      assert v'.open == {} by { assert |v'.open| == 0; }
      AllCountedNoneRejected(w', v');
      MasterResolves(w', v');
    } else {
      assert v'.open != {};
      assert r == w';
      MasterWaits(w, v, w', v');
    }
  }

  // ----- rejecting -----

  ghost predicate RejectDue(w: World, v: When, d: nat, args: Args) {
    && d < |w.ds|
    && LoopInv(w, v) && CountInv(w, v, -1) && RejectInv(w, v, d) && MasterInv(w, v)
    && Promise(d) in v.inputs && Seen(w, d, Fail).first == Some(args)
  }

  lemma RejectedInv(w: World, v: When, d: nat, args: Args)
    requires w.when == Some(v) && RejectDue(w, v, d, args)
    ensures var v' := v.(rejections := v.rejections + [args]);
      var r := w.(when := Some(v'));
      LoopInv(r, v') && CountInv(r, v', -1) && RejectInv(r, v', -1)
  {
    var v' := v.(rejections := v.rejections + [args]);
    var r := w.(when := Some(v'));
    forall e: nat, j | e < |r.ds| && 0 <= j < |Added(r, e, Done)| && Added(r, e, Done)[j].CountDown?
      ensures CountHandler(r, v', e, j, -1)
    {
      assert CountHandler(w, v, e, j, -1);
    }
    forall e: nat | e < |r.ds| ensures CountsOnce(Added(r, e, Done)) && RejectHandlers(r, v', e, -1) {
      assert CountsOnce(Added(w, e, Done)) && RejectHandlers(w, v, e, d);
      SameHandlers(w, v, r, v', e, d, -1);
    }
    forall q: nat | q < |v'.inputs| ensures Position(r, v', q, -1) {
      assert Position(w, v, q, -1);
    }
    var p :| 0 <= p < |v.inputs| && v.inputs[p] == Promise(d);
    forall k | 0 <= k < |v'.rejections| ensures RejectedBy(r, v', v'.rejections[k]) {
      if k < |v.rejections| { assert RejectedBy(w, v, v.rejections[k]); }
    }
  }

  /** An input that has rejected keeps its position open. */
  lemma RejectedStaysOpen(w: World, v: When, d: nat)
    requires AllDeferreds(w) && LoopInv(w, v) && CountInv(w, v, -1) && d < |w.ds|
    requires Promise(d) in v.inputs && Seen(w, d, Fail).first.Some?
    ensures v.open != {}
  {
    var p: nat :| p < |v.inputs| && v.inputs[p] == Promise(d);
    assert Position(w, v, p, -1);
    Exclusive(w, d);
  }

  lemma RejectFinishes(w: World, v: When, d: nat, args: Args)
    requires AllDeferreds(w) && w.when == Some(v) && RejectDue(w, v, d, args)
    ensures AllOk(w) && WhenInv(RejectMaster(w, args))
  {
    hide DeferredInv, LoopInv, CountInv, RejectInv, BoringDeferreds, BoringList, SameGathering, Apply;
    InvOk(w);
    RejectedInv(w, v, d, args);
    RejectedStaysOpen(w, v, d);
    var v' := v.(rejections := v.rejections + [args]);
    var w' := w.(when := Some(v'));
    MasterFire(w', Fail, args);
    Exclusive(w', MASTER);
    var r := RejectMaster(w, args);
    CallsWithinAdded(w');
    BoringLoop(w', r, v');
    BoringCount(w', r, v', -1);
    BoringReject(w', r, v', -1);
    assert MasterInv(r, v');
  }

  // ----- a pass calls a handler -----

  lemma QuietAtHandler(w: World, d: nat, role: Role)
    requires HeadOnTop(w) && Top(w) == Some(Firing(d, role)) && d < |w.ds|
    requires Watched(role) && |Get(w.ds[d], role).log.calls| >= 6
    ensures Quiet(w)
  {
    SetShows(w.ds[d], role, Get(w.ds[d], role));
    forall e: nat, s | e < |w.ds| ensures !Settling(w.ds[e], s) {
      assert Settling(w.ds[e], s) ==> Top(w) == Some(Firing(e, First(s)));
    }
  }

  lemma WatchedTurn(w: World, d: nat, role: Role)
    requires AllDeferreds(w) && d < |w.ds| && Watched(role) && Get(w.ds[d], role).firing && Calls(Get(w.ds[d], role))
    ensures var l := Get(w.ds[d], role);
      && Ok(l) && |l.log.calls| < |l.log.added| && NextCall(l).fn == l.log.added[|l.log.calls|]
      && DoTurn(l).log.added == l.log.added
      && ViewOf(DoTurn(l)) == ViewOf(l).(calls := |l.log.calls| + 1)
      && ViewOf(l).first == Some(NextCall(l).args)
  {
    hide Wired, SettlingList;
    assert LocalInv(d, role, Get(w.ds[d], role));
    TurnSeen(d, role, Get(w.ds[d], role));
  }

  /** `w1` is `w` after one more call on one watched list. */
  ghost predicate OneMoreCall(w: World, w1: World, d: nat, role: Role) {
    && |w1.ds| == |w.ds| && d < |w.ds| && w1.when == w.when && w1.stack == w.stack
    && (forall e: nat, o :: e < |w.ds| && Watched(o) ==>
          && Added(w1, e, o) == Added(w, e, o)
          && Seen(w1, e, o) == if e == d && o == role then Seen(w, e, o).(calls := Seen(w, e, o).calls + 1)
            else Seen(w, e, o))
  }

  lemma TurnIsOneMore(w: World, d: nat, role: Role)
    requires AllDeferreds(w) && d < |w.ds| && Watched(role) && Get(w.ds[d], role).firing && Calls(Get(w.ds[d], role))
    ensures Ok(Get(w.ds[d], role)) && OneMoreCall(w, SetList(w, d, role, DoTurn(Get(w.ds[d], role))), d, role)
  {
    hide DeferredInv, DoTurn;
    WatchedTurn(w, d, role);
    GetSet(w.ds[d], role, DoTurn(Get(w.ds[d], role)));
  }

  lemma SameMasterViews(w: World, w1: World, v: When, d: nat, role: Role)
    requires MasterInv(w, v) && OneMoreCall(w, w1, d, role)
    ensures MasterInv(w1, v)
  {
  }

  lemma SameRejecting(w: World, w1: World, v: When, due: int, role: Role, d: nat)
    requires LoopInv(w, v) && LoopInv(w1, v) && RejectInv(w, v, -1) && OneMoreCall(w, w1, d, role)
    requires role == Fail ==> due == d
    ensures RejectInv(w1, v, due)
  {
    forall e: nat | e < |w1.ds| ensures RejectHandlers(w1, v, e, due) {
      assert RejectHandlers(w, v, e, -1);
      forall j | 0 <= j < |Added(w1, e, Fail)| && Added(w1, e, Fail)[j] == FireList(MASTER, Fail)
        ensures Promise(e) in v.inputs && (e != due && j < Seen(w1, e, Fail).calls ==> v.rejections != [])
      {
        assert Added(w, e, Fail)[j] == FireList(MASTER, Fail);
      }
    }
    forall k | 0 <= k < |v.rejections| ensures RejectedBy(w1, v, v.rejections[k]) {
      assert RejectedBy(w, v, v.rejections[k]);
      var q :| 0 <= q < |v.inputs| && v.inputs[q].Promise?
        && Seen(w, v.inputs[q].d, Fail).first == Some(v.rejections[k]);
      assert Seen(w1, v.inputs[q].d, Fail).first == Some(v.rejections[k]);
    }
  }

  lemma CountTurn(w: World, w1: World, v: When, d: nat, p: nat, args: Args)
    requires WhenInv(w) && w.when == Some(v) && OneMoreCall(w, w1, d, Done)
    requires Seen(w, d, Done).calls < |Added(w, d, Done)| && Added(w, d, Done)[Seen(w, d, Done).calls] == CountDown(p)
    requires Seen(w, d, Done).first == Some(args)
    ensures CountDue(w1, v, p, args)
  {
    hide RejectInv, MasterInv;
    var c := Seen(w, d, Done).calls;
    assert Added(w, d, Done)[c].CountDown?;
    assert CountHandler(w, v, d, c, -1);
    forall e: nat, j | e < |w1.ds| && 0 <= j < |Added(w1, e, Done)| && Added(w1, e, Done)[j].CountDown?
      ensures CountHandler(w1, v, e, j, p)
    {
      assert Added(w, e, Done)[j].CountDown?;
      assert CountHandler(w, v, e, j, -1);
      assert CountsOnce(Added(w, d, Done));
    }
    forall e: nat | e < |w1.ds| ensures CountsOnce(Added(w1, e, Done)) { assert CountsOnce(Added(w, e, Done)); }
    forall q: nat | q < |v.inputs| ensures Position(w1, v, q, p) { assert Position(w, v, q, -1); }
    SameRejecting(w, w1, v, -1, Done, d);
    SameMasterViews(w, w1, v, d, Done);
  }

  /** A call from a fail list leaves the countdown as it is. */
  lemma FailCallCountsNothing(w: World, w1: World, v: When, d: nat)
    requires LoopInv(w, v) && CountInv(w, v, -1) && OneMoreCall(w, w1, d, Fail)
    ensures CountInv(w1, v, -1)
  {
    forall e: nat, j | e < |w1.ds| && 0 <= j < |Added(w1, e, Done)| && Added(w1, e, Done)[j].CountDown?
      ensures CountHandler(w1, v, e, j, -1)
    {
      assert Added(w, e, Done)[j].CountDown?;
      assert CountHandler(w, v, e, j, -1);
    }
    forall e: nat | e < |w1.ds| ensures CountsOnce(Added(w1, e, Done)) { assert CountsOnce(Added(w, e, Done)); }
    forall q: nat | q < |v.inputs| ensures Position(w1, v, q, -1) { assert Position(w, v, q, -1); }
  }

  lemma RejectTurn(w: World, w1: World, v: When, d: nat, args: Args)
    requires WhenInv(w) && w.when == Some(v) && OneMoreCall(w, w1, d, Fail)
    requires Seen(w, d, Fail).calls < |Added(w, d, Fail)|
    requires Added(w, d, Fail)[Seen(w, d, Fail).calls] == FireList(MASTER, Fail)
    requires Seen(w, d, Fail).first == Some(args)
    ensures RejectDue(w1, v, d, args)
  {
    hide CountInv;
    assert RejectHandlers(w, v, d, -1);
    FailCallCountsNothing(w, w1, v, d);
    SameRejecting(w, w1, v, d, Fail, d);
  }

  lemma HandlerMeansWhen(w: World, d: nat, role: Role, j: nat)
    requires WhenInv(w) && d < |w.ds| && Watched(role) && j < |Added(w, d, role)| && Handler(Added(w, d, role)[j])
    ensures w.when.Some?
  {
  }

  lemma FiringStarted(l: List)
    requires Ok(l) && l.firing
    ensures l.log.started != []
  {
  }

  /** Any turn of any pass keeps the invariant. */
  lemma FiringKeepsWhen(w: World, d: nat, role: Role)
    requires WhenInv(w) && WorldInv(w) && Top(w) == Some(Firing(d, role))
    ensures d < |w.ds| && AllOk(w) && WhenInv(FiringStep(w, d, role))
  {
    hide DeferredInv, WhenInv, DoTurn, Count, RejectMaster, OneMoreCall, CountDue, RejectDue, HeadOnTop, Quiet;
    InvOk(w);
    TopInRange(w);
    TurnFacts(w, d, role);
    var l := Get(w.ds[d], role);
    assert Ok(l) && l.log.started != [] by { FiringStarted(l); }
    if Calls(l) && Handler(NextCall(l).fn) {
      QuietAtHandler(w, d, role);
      QuietTurn(w, d, role);
      WatchedTurn(w, d, role);
      TurnIsOneMore(w, d, role);
      HandlerMeansWhen(w, d, role, |l.log.calls|);
      var w1 := SetList(w, d, role, DoTurn(l));
      var v := w.when.value;
      match NextCall(l).fn
      case CountDown(p) =>
        CountTurn(w, w1, v, d, p, NextCall(l).args);
        CountFinishes(w1, v, p, NextCall(l).args);
      case FireList(_, _) =>
        RejectTurn(w, w1, v, d, NextCall(l).args);
        RejectFinishes(w1, v, d, NextCall(l).args);
    } else {
      PlainTurnKeeps(w, d, role);
    }
  }
}
