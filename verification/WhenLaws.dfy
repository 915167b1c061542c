/** The laws of `k.when` over two or more inputs, in every run (Mypintool/doc/html/jquery.js, line 2). */
module WhenLaws {
  import opened Optional
  import opened Values
  import opened CallbackList
  import opened CallbackRuns
  import opened Deferreds
  import opened DeferredRuns
  import opened DeferredWorld
  import opened DeferredLaws
  import opened WhenRuns
  import opened WhenSteps

  // ----- the loop of `k.when` -----

  lemma LastGather(stack: seq<Frame>, f: Frame)
    requires stack != [] && GatherFrame(stack[|stack| - 1]) && GatherFrame(f)
    requires forall i, j :: 0 <= i < j < |stack| && GatherFrame(stack[i]) ==> !GatherFrame(stack[j])
    ensures var r := stack[..|stack| - 1];
      && (forall i :: 0 <= i < |r| ==> !GatherFrame(r[i]))
      && (forall g :: GatherFrame(g) ==>
        g !in r && (g in stack <==> g == stack[|stack| - 1]) && (g in r + [f] <==> g == f))
  {
    var k := |stack| - 1;
    var r := stack[..k];
    forall i | 0 <= i < |r| ensures !GatherFrame(r[i]) { assert r[i] == stack[i] && i < k; }
    assert stack == r + [stack[k]];
  }

  lemma WhenParts(w: World, v: When)
    requires WhenInv(w) && w.when == Some(v)
    ensures LoopInv(w, v) && CountInv(w, v, -1) && RejectInv(w, v, -1) && MasterInv(w, v)
  {
  }

  lemma PlainCountInv(w: World, v: When, x: Value, w': World, v': When)
    requires LoopInv(w, v) && CountInv(w, v, -1) && LoopInv(w', v')
    requires v.t > 0 && v.inputs[v.t - 1] == Plain(x) && v' == v.(t := v.t - 1) && w'.ds == w.ds
    ensures CountInv(w', v', v.t - 1) && v.t - 1 in v.open
  {
    var t := v.t - 1;
    assert Position(w, v, t, -1);
    forall d: nat, j | d < |w'.ds| && 0 <= j < |Added(w', d, Done)| && Added(w', d, Done)[j].CountDown?
      ensures CountHandler(w', v', d, j, t)
    {
      assert CountHandler(w, v, d, j, -1);
    }
    forall p: nat | p < |v.inputs| ensures Position(w', v', p, t) { assert Position(w, v, p, -1); }
    forall d: nat | d < |w'.ds| ensures CountsOnce(Added(w', d, Done)) { assert CountsOnce(Added(w, d, Done)); }
  }

  lemma PlainRejectInv(w: World, v: When, x: Value, w': World, v': When)
    requires LoopInv(w, v) && RejectInv(w, v, -1) && LoopInv(w', v') && GatheringFail !in w.stack
    requires v.t > 0 && v.inputs[v.t - 1] == Plain(x) && v' == v.(t := v.t - 1) && w' == w.(when := Some(v'))
    ensures RejectInv(w', v', -1)
  {
    forall d: nat | d < |w'.ds| ensures RejectHandlers(w', v', d, -1) {
      assert RejectHandlers(w, v, d, -1);
      SameHandlers(w, v, w', v', d, -1, -1);
    }
    forall k | 0 <= k < |v'.rejections| ensures RejectedBy(w', v', v'.rejections[k]) {
      assert RejectedBy(w, v, v.rejections[k]);
    }
  }

  lemma SameMasterInv(w: World, v: When, w': World, v': When)
    requires MasterInv(w, v) && |w'.ds| == |w.ds|
    requires Seen(w', MASTER, Done) == Seen(w, MASTER, Done) && Seen(w', MASTER, Fail) == Seen(w, MASTER, Fail)
    requires v'.open == v.open && v'.rejections == v.rejections && v'.contexts == v.contexts && v'.values == v.values
    ensures MasterInv(w', v')
  {
  }

  lemma PlainDue(w: World, v: When, x: Value, w': World, v': When)
    requires LoopInv(w, v) && CountInv(w, v, -1) && RejectInv(w, v, -1) && MasterInv(w, v) && Top(w) == Some(Gathering)
    requires v.t > 0 && v.inputs[v.t - 1] == Plain(x) && v' == v.(t := v.t - 1) && w' == w.(when := Some(v'))
    ensures CountDue(w', v', v.t - 1, Args(Undefined, [x]))
  {
    hide CountInv, RejectInv, MasterInv;
    LastGather(w.stack, Gathering);
    PlainCountInv(w, v, x, w', v');
    PlainRejectInv(w, v, x, w', v');
    SameMasterInv(w, v, w', v');
  }

  lemma GatherPlain(w: World, v: When, x: Value)
    requires WhenInv(w) && AllDeferreds(w) && w.when == Some(v) && Top(w) == Some(Gathering)
    requires v.t > 0 && v.inputs[v.t - 1] == Plain(x)
    ensures AllOk(w) && WhenInv(GatherStep(w))
  {
    hide DeferredInv, Count, WhenInv, CountDue, MasterInv, CountInv, RejectInv;
    InvOk(w);
    var v' := v.(t := v.t - 1);
    var w' := w.(when := Some(v'));
    assert LoopInv(w, v) && CountInv(w, v, -1) && RejectInv(w, v, -1) && MasterInv(w, v) by { WhenParts(w, v); }
    PlainDue(w, v, x, w', v');
    CountFinishes(w', v', v.t - 1, Args(Undefined, [x]));
  }

  /** `w1` is `w` after functions `fns` were offered to one watched list that takes them while it is enabled. */
  ghost predicate OneMoreAdd(w: World, w1: World, d: nat, role: Role, fns: seq<Fn>) {
    && |w1.ds| == |w.ds| && d < |w.ds|
    && (forall e: nat, o :: e < |w.ds| && Watched(o) ==>
          && Seen(w1, e, o) == Seen(w, e, o)
          && Added(w1, e, o) == Added(w, e, o) + if e == d && o == role && Seen(w, d, role).enabled then fns else [])
  }

  lemma WatchedAdd(w: World, d: nat, role: Role, fns: seq<Fn>)
    requires AllDeferreds(w) && d < |w.ds| && Watched(role)
    requires forall fn :: fn in fns ==> PermittedAdd(role, fn)
    ensures var l := Get(w.ds[d], role);
      ViewOf(DoAdd(l, fns)) == ViewOf(l) && DoAdd(l, fns).log.added ==
        if l.enabled then l.log.added + fns else l.log.added
  {
    hide Wired;
    assert LocalInv(d, role, Get(w.ds[d], role));
    AddSeen(d, role, Get(w.ds[d], role), fns);
  }

  lemma AddIsOneMore(w: World, d: nat, role: Role, fns: seq<Fn>)
    requires AllDeferreds(w) && d < |w.ds| && Watched(role)
    requires forall fn :: fn in fns ==> PermittedAdd(role, fn)
    ensures AllOk(w)
    ensures var r := Apply(w, d, role, Add(fns)); OneMoreAdd(w, r, d, role, fns) && r.when == w.when
  {
    hide DeferredInv, DoAdd, Ok;
    InvOk(w);
    assert forall s: seq<Fn> {:trigger s + []} :: s + [] == s;
    ApplyStackSame(w, d, role, Add(fns));
    WatchedAdd(w, d, role, fns);
    GetSet(w.ds[d], role, DoAdd(Get(w.ds[d], role), fns));
    var r := Apply(w, d, role, Add(fns));
    forall e: nat, o | e < |w.ds| && Watched(o)
      ensures Seen(r, e, o) == Seen(w, e, o)
      ensures Added(r, e, o) == Added(w, e, o) + if e == d && o == role && Seen(w, d, role).enabled then fns else []
    {
      assert Added(w, e, o) + [] == Added(w, e, o);
    }
  }

  lemma GatherPromiseLoop(w: World, v: When, w': World, r: World, v': When)
    requires LoopInv(w, v) && v.t > 0 && v' == v.(t := v.t - 1) && v.inputs[v.t - 1].Promise? && w.stack != []
    requires w.stack[|w.stack| - 1] == Gathering && w'.stack == w.stack[..|w.stack| - 1] + [GatheringFail]
    requires SameGathering(w'.stack, r.stack) && |r.ds| == |w.ds|
    ensures LoopInv(r, v') && FailFrom(r, v') == FailFrom(w, v)
  {
    LastGather(w.stack, GatheringFail);
    assert GatheringFail in w'.stack;
    var s := w'.stack;
    assert forall i :: 0 <= i < |s| - 1 ==> s[i] == w.stack[..|w.stack| - 1][i];
  }

  lemma GatherPromiseCount(w: World, v: When, r: World, v': When, d: nat)
    requires LoopInv(w, v) && CountInv(w, v, -1) && v.t > 0 && v' == v.(t := v.t - 1) && v.inputs[v.t - 1] == Promise(d)
    requires LoopInv(r, v') && OneMoreAdd(w, r, d, Done, [CountDown(v.t - 1)])
    requires |w.ds[d].done.log.calls| <= |w.ds[d].done.log.added|
    ensures CountInv(r, v', -1)
  {
    var t := v.t - 1;
    assert Position(w, v, t, -1);
    forall e: nat, j | e < |r.ds| && 0 <= j < |Added(r, e, Done)| && Added(r, e, Done)[j].CountDown?
      ensures CountHandler(r, v', e, j, -1)
    {
      if j < |Added(w, e, Done)| { assert CountHandler(w, v, e, j, -1); }
    }
    forall e: nat | e < |r.ds| ensures CountsOnce(Added(r, e, Done)) {
      assert CountsOnce(Added(w, e, Done));
      forall i, j | 0 <= i < j < |Added(r, e, Done)| && Added(r, e, Done)[i].CountDown?
        ensures Added(r, e, Done)[i] != Added(r, e, Done)[j]
      {
        if i < |Added(w, e, Done)| { assert CountHandler(w, v, e, i, -1); }
      }
    }
    forall p: nat | p < |v.inputs| ensures Position(r, v', p, -1) {
      assert Position(w, v, p, -1);
      if p == t && Seen(w, d, Done).enabled { assert Added(r, d, Done)[|Added(w, d, Done)|] == CountDown(t); }
    }
  }

  lemma GatherPromiseReject(w: World, v: When, w': World, r: World, v': When, d: nat)
    requires LoopInv(w, v) && RejectInv(w, v, -1) && LoopInv(r, v') && FailFrom(r, v') == FailFrom(w, v)
    requires v'.inputs == v.inputs && v'.rejections == v.rejections && w'.ds == w.ds
    requires exists fn :: OneMoreAdd(w', r, d, Done, [fn])
    ensures RejectInv(r, v', -1)
  {
    assert forall e: nat :: e < |w.ds| ==>
      Seen(r, e, Fail) == Seen(w, e, Fail) && Added(r, e, Fail) == Added(w, e, Fail) + [];
    forall e: nat | e < |r.ds| ensures RejectHandlers(r, v', e, -1) {
      assert RejectHandlers(w, v, e, -1);
      assert Added(w, e, Fail) + [] == Added(w, e, Fail);
      forall j | 0 <= j < |Added(r, e, Fail)| && Added(r, e, Fail)[j] == FireList(MASTER, Fail)
        ensures Promise(e) in v'.inputs && (j < Seen(r, e, Fail).calls ==> v'.rejections != [])
      {
        assert Added(w, e, Fail)[j] == FireList(MASTER, Fail);
      }
    }
    forall k | 0 <= k < |v'.rejections| ensures RejectedBy(r, v', v'.rejections[k]) {
      assert RejectedBy(w, v, v.rejections[k]);
      var q :| 0 <= q < |v.inputs| && v.inputs[q].Promise?
        && Seen(w, v.inputs[q].d, Fail).first == Some(v.rejections[k]);
      assert Seen(r, v.inputs[q].d, Fail).first == Some(v.rejections[k]);
    }
  }

  lemma GatherPromise(w: World, v: When, d: nat)
    requires WhenInv(w) && AllDeferreds(w) && w.when == Some(v) && Top(w) == Some(Gathering)
    requires v.t > 0 && v.inputs[v.t - 1] == Promise(d)
    ensures AllOk(w) && WhenInv(GatherStep(w))
  {
    hide DeferredInv, Apply, MasterInv;
    InvOk(w);
    var t := v.t - 1;
    var v' := v.(t := t);
    var w' := Replace(w.(when := Some(v')), GatheringFail);
    var r := GatherStep(w);
    CallsWithinAdded(w);
    LastGather(w.stack, GatheringFail);
    assert AllDeferreds(w');
    AddIsOneMore(w', d, Done, [CountDown(t)]);
    ApplyStackSame(w', d, Done, Add([CountDown(t)]));
    GatherPromiseLoop(w, v, w', r, v');
    GatherPromiseCount(w, v, r, v', d);
    GatherPromiseReject(w, v, w', r, v', d);
    SameMasterInv(w, v, r, v');
  }

  lemma PartsWhen(w: World, v: When)
    requires w.when == Some(v) && LoopInv(w, v) && CountInv(w, v, -1) && RejectInv(w, v, -1) && MasterInv(w, v)
    ensures WhenInv(w)
  {
  }

  lemma GatherSecondLoop(w: World, v: When, w': World, r: World)
    requires LoopInv(w, v) && w.stack != [] && |r.ds| == |w.ds|
    requires w.stack[|w.stack| - 1] == GatheringFail && w'.stack == w.stack[..|w.stack| - 1] + [Gathering]
    requires SameGathering(w'.stack, r.stack)
    ensures LoopInv(r, v) && FailFrom(w, v) == v.t + 1 && FailFrom(r, v) == v.t
  {
    LastGather(w.stack, Gathering);
    var s := w'.stack;
    assert Gathering in s && GatheringFail !in s;
    assert forall i :: 0 <= i < |s| - 1 ==> s[i] == w.stack[..|w.stack| - 1][i];
  }

  lemma GatherSecondCount(w: World, v: When, w': World, r: World, d: nat)
    requires LoopInv(w, v) && CountInv(w, v, -1) && LoopInv(r, v) && w'.ds == w.ds
    requires exists fn :: OneMoreAdd(w', r, d, Fail, [fn])
    ensures CountInv(r, v, -1)
  {
    assert forall e: nat :: e < |w.ds| ==>
      Seen(r, e, Done) == Seen(w, e, Done) && Added(r, e, Done) == Added(w, e, Done) + [];
    forall e: nat | e < |w.ds| ensures Added(r, e, Done) == Added(w, e, Done) {
      assert Added(w, e, Done) + [] == Added(w, e, Done);
    }
    forall e: nat, j | e < |r.ds| && 0 <= j < |Added(r, e, Done)| && Added(r, e, Done)[j].CountDown?
      ensures CountHandler(r, v, e, j, -1)
    {
      assert CountHandler(w, v, e, j, -1);
    }
    forall e: nat | e < |r.ds| ensures CountsOnce(Added(r, e, Done)) { assert CountsOnce(Added(w, e, Done)); }
    forall p: nat | p < |v.inputs| ensures Position(r, v, p, -1) { assert Position(w, v, p, -1); }
  }

  lemma GatherSecondReject(w: World, v: When, w': World, r: World, d: nat)
    requires LoopInv(w, v) && RejectInv(w, v, -1) && LoopInv(r, v) && w'.ds == w.ds
    requires FailFrom(w, v) == v.t + 1 && FailFrom(r, v) == v.t < |v.inputs| && v.inputs[v.t] == Promise(d)
    requires OneMoreAdd(w', r, d, Fail, [FireList(MASTER, Fail)])
    requires |w.ds[d].fail.log.calls| <= |w.ds[d].fail.log.added|
    ensures RejectInv(r, v, -1)
  {
    forall e: nat | e < |r.ds| ensures RejectHandlers(r, v, e, -1) {
      assert RejectHandlers(w, v, e, -1);
      forall j | 0 <= j < |Added(r, e, Fail)| && Added(r, e, Fail)[j] == FireList(MASTER, Fail)
        ensures Promise(e) in v.inputs && (j < Seen(r, e, Fail).calls ==> v.rejections != [])
      {
        if j < |Added(w, e, Fail)| { assert Added(w, e, Fail)[j] == FireList(MASTER, Fail); } else { assert e == d; }
      }
    }
    forall p | v.t <= p < |v.inputs| && v.inputs[p].Promise?
      ensures var e := v.inputs[p].d; !Seen(r, e, Fail).enabled || FireList(MASTER, Fail) in Added(r, e, Fail)
    {
      var e := v.inputs[p].d;
      if e == d && Seen(w, d, Fail).enabled {
        assert Added(r, d, Fail)[|Added(w, d, Fail)|] == FireList(MASTER, Fail);
      } else {
        assert p != v.t ==> FailFrom(w, v) <= p;
        assert FireList(MASTER, Fail) in Added(w, e, Fail) ==> FireList(MASTER, Fail) in Added(r, e, Fail);
      }
    }
    forall k | 0 <= k < |v.rejections| ensures RejectedBy(r, v, v.rejections[k]) {
      assert RejectedBy(w, v, v.rejections[k]);
      var q :| 0 <= q < |v.inputs| && v.inputs[q].Promise?
        && Seen(w, v.inputs[q].d, Fail).first == Some(v.rejections[k]);
      assert Seen(r, v.inputs[q].d, Fail).first == Some(v.rejections[k]);
    }
  }

  lemma GatherSecond(w: World, v: When, d: nat)
    requires WhenInv(w) && AllDeferreds(w) && w.when == Some(v) && Top(w) == Some(GatheringFail)
    requires v.t < |v.inputs| && v.inputs[v.t] == Promise(d)
    ensures AllOk(w) && WhenInv(GatherFailStep(w))
  {
    hide DeferredInv, Apply, MasterInv, WhenInv, CountInv, RejectInv;
    InvOk(w);
    WhenParts(w, v);
    var w' := Replace(w, Gathering);
    var r := GatherFailStep(w);
    CallsWithinAdded(w);
    LastGather(w.stack, Gathering);
    assert AllDeferreds(w');
    AddIsOneMore(w', d, Fail, [FireList(MASTER, Fail)]);
    ApplyStackSame(w', d, Fail, Add([FireList(MASTER, Fail)]));
    GatherSecondLoop(w, v, w', r);
    GatherSecondCount(w, v, w', r, d);
    GatherSecondReject(w, v, w', r, d);
    SameMasterInv(w, v, r, v);
    assert WhenInv(r) by { PartsWhen(r, v); }
  }

  /** The loop ends when no position is left. */
  lemma GatherEnds(w: World, v: When)
    requires WhenInv(w) && AllDeferreds(w) && w.when == Some(v) && Top(w) == Some(Gathering) && v.t == 0
    ensures AllOk(w) && WhenInv(GatherStep(w))
  {
    hide DeferredInv, MasterInv, WhenInv, CountInv, RejectInv;
    InvOk(w);
    WhenParts(w, v);
    LastGather(w.stack, Gathering);
    var r := Pop(w);
    assert LoopInv(r, v);
    SameDsBoring(w, r);
    CallsWithinAdded(w);
    BoringCount(w, r, v, -1);
    BoringReject(w, r, v, -1);
    SameMasterInv(w, v, r, v);
    PartsWhen(r, v);
  }

  lemma GatherKeepsWhen(w: World)
    requires WhenInv(w) && AllDeferreds(w)
    ensures AllOk(w) && MASTER < |w.ds|
    ensures Top(w) == Some(Gathering) ==> WhenInv(GatherStep(w))
    ensures Top(w) == Some(GatheringFail) ==> WhenInv(GatherFailStep(w))
  {
    hide DeferredInv, MasterInv, CountInv, RejectInv, Apply, Count;
    InvOk(w);
    if Top(w) == Some(Gathering) || Top(w) == Some(GatheringFail) {
      assert w.stack[|w.stack| - 1] in w.stack;
      assert w.when.Some?;
      var v := w.when.value;
      if Top(w) == Some(GatheringFail) {
        GatherSecond(w, v, v.inputs[v.t].d);
      } else if v.t == 0 {
        GatherEnds(w, v);
      } else {
        match v.inputs[v.t - 1]
        case Plain(x) => GatherPlain(w, v, x);
        case Promise(d) => GatherPromise(w, v, d);
      }
    }
  }

  // ----- every event -----

  lemma ReturnKeepsWhen(w: World)
    requires WhenInv(w) && AllDeferreds(w) && w.stack != [] && UserRuns(w)
    ensures WhenInv(Pop(w))
  {
    hide DeferredInv, WhenInv, BoringDeferreds, SameGathering;
    PopSame(w.stack);
    SameDsBoring(w, Pop(w));
    MasterSized(w);
    BoringKeeps(w, Pop(w));
  }

  lemma NothingCounted(w: World, r: World, v: When)
    requires NoWhen(w) && r.ds == w.ds && LoopInv(r, v) && v.t == |v.inputs| == v.remaining
    requires v.open == UpTo(|v.inputs|)
    ensures CountInv(r, v, -1)
  {
    forall d: nat, j | d < |r.ds| && 0 <= j < |Added(r, d, Done)| ensures !Added(r, d, Done)[j].CountDown? {
      assert !Handler(Added(w, d, Done)[j]);
    }
    forall d: nat | d < |r.ds| ensures CountsOnce(Added(r, d, Done)) {
      assert forall j :: 0 <= j < |Added(r, d, Done)| ==> !Added(r, d, Done)[j].CountDown?;
    }
    assert forall p: nat :: p < |v.inputs| ==> Position(r, v, p, -1);
  }

  lemma NothingRejected(w: World, r: World, v: When)
    requires NoWhen(w) && r.ds == w.ds && LoopInv(r, v) && v.t == |v.inputs| && v.rejections == []
    ensures RejectInv(r, v, -1)
  {
    forall d: nat | d < |r.ds| ensures RejectHandlers(r, v, d, -1) {
      forall j | 0 <= j < |Added(r, d, Fail)| ensures Added(r, d, Fail)[j] != FireList(MASTER, Fail) {
        assert !Handler(Added(w, d, Fail)[j]);
      }
    }
  }

  lemma {:induction false} WhenStarts(w: World, inputs: seq<Input>)
    requires WhenInv(w) && w.when.None? && GoodInputs(w, inputs)
    ensures var unset := seq(|inputs|, _ => Undefined);
      WhenInv(w.(when := Some(When(inputs, |inputs|, |inputs|, unset, unset, UpTo(|inputs|), [])),
                 stack := w.stack + [Gathering]))
  {
    hide CountInv, RejectInv;
    var unset := seq(|inputs|, _ => Undefined);
    var v := When(inputs, |inputs|, |inputs|, unset, unset, UpTo(|inputs|), []);
    var r := w.(when := Some(v), stack := w.stack + [Gathering]);
    assert r.stack[|w.stack|] == Gathering;
    assert forall i :: 0 <= i < |w.stack| ==> r.stack[i] in w.stack && !GatherFrame(r.stack[i]);
    assert 0 in v.open;
    NothingCounted(w, r, v);
    NothingRejected(w, r, v);
  }

  lemma EventKeepsWhen(w: World, e: Event)
    requires WorldInv(w) && WhenInv(w)
    ensures AllOk(w) && WhenInv(WorldStep(w, e))
  {
    hide DeferredInv, StackInv, WhenInv, HeadOnTop, Apply, FiringStep, GatherStep, GatherFailStep;
    InvOk(w);
    match e
    case Internal =>
      if w.stack != [] {
        match w.stack[|w.stack| - 1]
        case Firing(d, role) => FiringKeepsWhen(w, d, role);
        case Calling(_, _) =>
        case Gathering => GatherKeepsWhen(w);
        case GatheringFail => GatherKeepsWhen(w);
      }
    case ApiAdd(d, role, ids) => if d < |w.ds| { ApiAddKeeps(w, d, role, ids); }
    case ApiFire(d, role, args) => if MASTER < d < |w.ds| { ApiFireKeeps(w, d, role, args); }
    case ApiReturn => if UserRuns(w) && w.stack != [] { ReturnKeepsWhen(w); }
    case ApiWhen(inputs) => if w.when.None? && GoodInputs(w, inputs) { WhenStarts(w, inputs); }
  }

  lemma NewAdded(d: nat)
    ensures NewDeferred(d).done.log.added == Head(d, Resolved) && NewDeferred(d).fail.log.added == Head(d, Rejected)
    ensures !NewDeferred(d).done.fired && !NewDeferred(d).fail.fired
  {
    PushAllPlain(New(ONCE_MEMORY), Head(d, Resolved));
    PushAllPlain(New(ONCE_MEMORY), Head(d, Rejected));
  }

  lemma NewWhenInv(n: nat)
    requires n > MASTER
    ensures WhenInv(NewWorld(n))
  {
    hide NewDeferred;
    forall d: nat | d < n
      ensures NewDeferred(d).done.log.added == Head(d, Resolved) && NewDeferred(d).fail.log.added == Head(d, Rejected)
      ensures !NewDeferred(d).done.fired && !NewDeferred(d).fail.fired
    {
      NewAdded(d);
    }
  }

  lemma {:induction false} RunKeepsWhen(run: Run, n: nat, i: nat)
    requires IsRun(run, n) && i < |run.states|
    ensures WorldInv(run.states[i]) && WhenInv(run.states[i])
    decreases i
  {
    hide WorldInv, WhenInv, WorldStep, NewWorld;
    RunKeeps(run, n, i);
    if i == 0 {
      NewWhenInv(n);
    } else {
      var k := i - 1;
      RunKeepsWhen(run, n, k);
      assert Steps(run.states[k], run.events[k], run.states[k + 1]);
      EventKeepsWhen(run.states[k], run.events[k]);
    }
  }

  // ----- the laws -----

  /** An input resolved without a value stands as undefined, with one as that value, with more as all in order. */
  predicate IsResultOf(x: Value, a: Args) {
    && (|a.values| == 0 ==> x == Undefined)
    && (|a.values| == 1 ==> [x] == a.values)
    && (|a.values| > 1 ==> x == Arr(a.values))
  }

  /** Position `p` of the result: what its input resolved with, whatever the order of completion. */
  ghost predicate HoldsResult(w: World, v: When, p: nat)
    requires p < |v.inputs| == |v.contexts| == |v.values| && GoodInputs(w, v.inputs)
  {
    match v.inputs[p]
    case Plain(x) => v.contexts[p] == Undefined && v.values[p] == x
    case Promise(d) =>
      exists a :: SettledThrough(w.ds[d], Resolved, a) && v.contexts[p] == a.context && IsResultOf(v.values[p], a)
  }

  lemma RestParts(run: Run, n: nat, i: nat)
    requires IsRun(run, n) && i < |run.states| && run.states[i].stack == []
    ensures AllDeferreds(run.states[i]) && StackInv(run.states[i]) && HeadOnTop(run.states[i]) && WhenInv(run.states[i])
  {
    hide IsRun, WhenInv, AllDeferreds, StackInv, HeadOnTop;
    RunKeepsWhen(run, n, i);
  }

  lemma ThroughHistory(x: Deferred, s: Settled, a: Args)
    requires SettledThrough(x, s, a)
    ensures x.history == [s]
  {
  }

  lemma UnfiredHistory(v: Views, s: Settled)
    requires Wired(v) && !GetView(v, First(s)).fired
    ensures v.history != [s]
  {
    assert v.history == [] || v.history == [Other(s)];
  }

  lemma FiredIsSettled(w: World, d: nat, s: Settled)
    requires AllDeferreds(w) && StackInv(w) && HeadOnTop(w) && w.stack == [] && d < |w.ds|
    ensures w.ds[d].history == [s] <==> Get(w.ds[d], First(s)).fired
    ensures Get(w.ds[d], First(s)).fired ==>
      (&& Get(w.ds[d], First(s)).log.started != []
       && SettledThrough(w.ds[d], s, Get(w.ds[d], First(s)).log.started[0])
       && Seen(w, d, First(s)).first == Some(Get(w.ds[d], First(s)).log.started[0]))
  {
    hide StackInv, HeadOnTop, SettledThrough, LocalInv;
    assert DeferredInv(w.ds[d], d);
    if Get(w.ds[d], First(s)).fired {
      AtRestSettled(w, d, s);
      assert SettledThrough(w.ds[d], s, Get(w.ds[d], First(s)).log.started[0]);
      ThroughHistory(w.ds[d], s, Get(w.ds[d], First(s)).log.started[0]);
    } else {
      SetShows(w.ds[d], First(s), Get(w.ds[d], First(s)));
      UnfiredHistory(ViewsOf(w.ds[d]), s);
    }
  }

  lemma CalledEverything(w: World, d: nat, role: Role)
    requires AllDeferreds(w) && StackInv(w) && HeadOnTop(w) && w.stack == [] && d < |w.ds| && Watched(role)
    requires Get(w.ds[d], role).fired
    ensures Seen(w, d, role).calls == |Added(w, d, role)| && Get(w.ds[d], role).enabled
  {
    hide HeadOnTop, Wired;
    AtRestNotFiring(w, d, role);
    assert LocalInv(d, role, Get(w.ds[d], role));
  }

  /** At rest, an input that has resolved has been counted. */
  lemma ResolvedIsCounted(w: World, v: When, p: nat)
    requires AllDeferreds(w) && StackInv(w) && HeadOnTop(w) && w.stack == [] && LoopInv(w, v) && CountInv(w, v, -1)
    requires p < |v.inputs| && v.t == 0
    ensures p !in v.open <==> (v.inputs[p].Promise? ==> w.ds[v.inputs[p].d].history == [Resolved])
    ensures p !in v.open ==> HoldsResult(w, v, p)
  {
    hide DeferredInv, StackInv, HeadOnTop, SettledThrough;
    assert Position(w, v, p, -1);
    if v.inputs[p].Promise? {
      var d := v.inputs[p].d;
      FiredIsSettled(w, d, Resolved);
      Exclusive(w, d);
      if w.ds[d].done.fired {
        CalledEverything(w, d, Done);
        var j :| 0 <= j < |Added(w, d, Done)| && Added(w, d, Done)[j] == CountDown(p);
        assert CountHandler(w, v, d, j, -1);
        assert SettledThrough(w.ds[d], Resolved, w.ds[d].done.log.started[0]);
      }
    }
  }

  lemma RejectedIsSeen(w: World, v: When, p: nat)
    requires AllDeferreds(w) && StackInv(w) && HeadOnTop(w) && w.stack == [] && LoopInv(w, v) && RejectInv(w, v, -1)
    requires p < |v.inputs| && v.t == 0 && v.inputs[p].Promise? && w.ds[v.inputs[p].d].history == [Rejected]
    ensures v.rejections != []
  {
    hide DeferredInv, StackInv, HeadOnTop, SettledThrough;
    var d := v.inputs[p].d;
    FiredIsSettled(w, d, Rejected);
    CalledEverything(w, d, Fail);
    assert FailFrom(w, v) == 0;
    var j :| 0 <= j < |Added(w, d, Fail)| && Added(w, d, Fail)[j] == FireList(MASTER, Fail);
    assert RejectHandlers(w, v, d, -1);
  }

  lemma OpenInRange(w: World, v: When)
    requires LoopInv(w, v) && CountInv(w, v, -1)
    ensures forall p :: p in v.open ==> p < |v.inputs|
  {
  }

  /**
   Whenever no code is running: the promise of `k.when` is resolved exactly when every input is, with the
   contexts and values of the inputs in argument position.
   */
  lemma WhenResolves(run: Run, n: nat, i: nat)
    requires IsRun(run, n) && i < |run.states| && run.states[i].stack == [] && run.states[i].when.Some?
    ensures MASTER < |run.states[i].ds| && GoodInputs(run.states[i], run.states[i].when.value.inputs)
    ensures var w, v := run.states[i], run.states[i].when.value;
      && (w.ds[MASTER].history == [Resolved] <==>
            forall p :: 0 <= p < |v.inputs| && v.inputs[p].Promise? ==> w.ds[v.inputs[p].d].history == [Resolved])
      && |v.contexts| == |v.values| == |v.inputs|
      && (w.ds[MASTER].history == [Resolved] ==>
            && SettledThrough(w.ds[MASTER], Resolved, Args(Arr(v.contexts), v.values))
            && forall p: nat :: p < |v.inputs| ==> HoldsResult(w, v, p))
  {
    hide IsRun, AllDeferreds, StackInv, HeadOnTop, CountInv, RejectInv, HoldsResult, SettledThrough;
    RestParts(run, n, i);
    var w, v := run.states[i], run.states[i].when.value;
    assert v.t == 0;
    FiredIsSettled(w, MASTER, Resolved);
    OpenInRange(w, v);
    forall p: nat | p < |v.inputs|
      ensures p !in v.open <==> (v.inputs[p].Promise? ==> w.ds[v.inputs[p].d].history == [Resolved])
      ensures p !in v.open ==> HoldsResult(w, v, p)
    {
      ResolvedIsCounted(w, v, p);
    }
    if v.open != {} {
      var p :| p in v.open;
      assert p < |v.inputs| && v.inputs[p].Promise? && w.ds[v.inputs[p].d].history != [Resolved];
    }
  }

  /**
   Whenever no code is running: the promise of `k.when` is rejected exactly when some input is, with the
   arguments of the rejection whose handler ran first.
   */
  lemma WhenRejects(run: Run, n: nat, i: nat)
    requires IsRun(run, n) && i < |run.states| && run.states[i].stack == [] && run.states[i].when.Some?
    ensures MASTER < |run.states[i].ds| && GoodInputs(run.states[i], run.states[i].when.value.inputs)
    ensures var w, v := run.states[i], run.states[i].when.value;
      && (w.ds[MASTER].history == [Rejected] <==>
            exists p :: 0 <= p < |v.inputs| && v.inputs[p].Promise? && w.ds[v.inputs[p].d].history == [Rejected])
      && (w.ds[MASTER].history == [Rejected] ==>
            && v.rejections != [] && SettledThrough(w.ds[MASTER], Rejected, v.rejections[0])
            && exists p ::
              0 <= p < |v.inputs| && v.inputs[p].Promise?
              && SettledThrough(w.ds[v.inputs[p].d], Rejected, v.rejections[0]))
  {
    hide IsRun, AllDeferreds, StackInv, HeadOnTop, CountInv, SettledThrough;
    RestParts(run, n, i);
    var w, v := run.states[i], run.states[i].when.value;
    assert v.t == 0;
    FiredIsSettled(w, MASTER, Rejected);
    if w.ds[MASTER].fail.fired {
      assert RejectedBy(w, v, v.rejections[0]);
      var p :| 0 <= p < |v.inputs| && v.inputs[p].Promise?
        && Seen(w, v.inputs[p].d, Fail).first == Some(v.rejections[0]);
      Exclusive(w, v.inputs[p].d);
      FiredIsSettled(w, v.inputs[p].d, Rejected);
      assert SettledThrough(w.ds[v.inputs[p].d], Rejected, v.rejections[0]);
    }
    if p :| 0 <= p < |v.inputs| && v.inputs[p].Promise? && w.ds[v.inputs[p].d].history == [Rejected] {
      RejectedIsSeen(w, v, p);
    }
  }
}
