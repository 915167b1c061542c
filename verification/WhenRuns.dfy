/** What every run of `k.when` keeps: its countdown and its first rejection follow the inputs. */
module WhenRuns {
  import opened Optional
  import opened Values
  import opened CallbackList
  import opened CallbackRuns
  import opened Deferreds
  import opened DeferredRuns
  import opened DeferredWorld

  // ----- the invariant -----

  /** The callbacks that `k.when` adds to its inputs. */
  predicate Handler(fn: Fn) { fn.CountDown? || fn == FireList(MASTER, Fail) }

  function Seen(w: World, d: nat, role: Role): View
    requires d < |w.ds|
  {
    ViewOf(Get(w.ds[d], role))
  }

  function Added(w: World, d: nat, role: Role): seq<Fn>
    requires d < |w.ds|
  {
    Get(w.ds[d], role).log.added
  }

  predicate GatherFrame(f: Frame) { f == Gathering || f == GatheringFail }

  ghost predicate NoWhen(w: World) {
    && MASTER < |w.ds|
    && (forall d: nat, j :: d < |w.ds| && 0 <= j < |Added(w, d, Done)| ==> !Handler(Added(w, d, Done)[j]))
    && (forall d: nat, j :: d < |w.ds| && 0 <= j < |Added(w, d, Fail)| ==> !Handler(Added(w, d, Fail)[j]))
    && !Seen(w, MASTER, Done).fired && !Seen(w, MASTER, Fail).fired
    && forall f :: f in w.stack ==> !GatherFrame(f)
  }

  /** The loop is on the stack once, as long as it has positions left. */
  ghost predicate LoopInv(w: World, v: When) {
    && GoodInputs(w, v.inputs) && v.t <= |v.inputs| == |v.contexts| == |v.values|
    && (forall i, j :: 0 <= i < j < |w.stack| && GatherFrame(w.stack[i]) ==> !GatherFrame(w.stack[j]))
    && (v.t > 0 ==> Gathering in w.stack || GatheringFail in w.stack)
    && (GatheringFail in w.stack ==> v.t < |v.inputs| && v.inputs[v.t].Promise?)
  }

  /** A countdown handler stands in the done list of its input, and its position is open until it is called. */
  predicate CountHandler(w: World, v: When, d: nat, j: nat, due: int)
    requires d < |w.ds| && j < |Added(w, d, Done)| && Added(w, d, Done)[j].CountDown?
  {
    var p := Added(w, d, Done)[j].position;
    && v.t <= p < |v.inputs| && v.inputs[p] == Promise(d)
    && (p != due ==> (p in v.open <==> j >= Seen(w, d, Done).calls))
    && (p == due ==> p in v.open && j < Seen(w, d, Done).calls)
  }

  /** An open position waits for its input; a counted one holds what its input resolved with. */
  predicate Position(w: World, v: When, p: nat, due: int)
    requires GoodInputs(w, v.inputs) && p < |v.inputs| == |v.contexts| == |v.values|
  {
    && (p < v.t ==> p in v.open)
    && match v.inputs[p]
       case Plain(x) =>
         && (p >= v.t && p != due ==> p !in v.open)
         && (p !in v.open ==> v.contexts[p] == Undefined && v.values[p] == x)
       case Promise(d) =>
         && (p >= v.t ==> !Seen(w, d, Done).enabled || CountDown(p) in Added(w, d, Done))
         && (p !in v.open ==>
               var first := Seen(w, d, Done).first;
               first.Some? && v.contexts[p] == first.value.context && v.values[p] == Collected(first.value))
  }

  ghost predicate CountsOnce(added: seq<Fn>) {
    forall i, j :: 0 <= i < j < |added| && added[i].CountDown? ==> added[i] != added[j]
  }

  /** `due` is the position whose handler has just been called, or -1. */
  ghost predicate CountInv(w: World, v: When, due: int)
    requires LoopInv(w, v)
  {
    && v.remaining == |v.open|
    && (forall p :: p in v.open ==> p < |v.inputs|)
    && (forall d: nat, j :: d < |w.ds| && 0 <= j < |Added(w, d, Done)| && Added(w, d, Done)[j].CountDown? ==>
      CountHandler(w, v, d, j, due))
    && (forall d: nat :: d < |w.ds| ==> CountsOnce(Added(w, d, Done)))
    && (forall p: nat :: p < |v.inputs| ==> Position(w, v, p, due))
  }

  function FailFrom(w: World, v: When): nat {
    if GatheringFail in w.stack then v.t + 1 else v.t
  }

  ghost predicate RejectedBy(w: World, v: When, args: Args)
    requires GoodInputs(w, v.inputs)
  {
    exists p :: 0 <= p < |v.inputs| && v.inputs[p].Promise? && Seen(w, v.inputs[p].d, Fail).first == Some(args)
  }

  ghost predicate RejectHandlers(w: World, v: When, d: nat, due: int)
    requires d < |w.ds|
  {
    forall j :: 0 <= j < |Added(w, d, Fail)| && Added(w, d, Fail)[j] == FireList(MASTER, Fail) ==>
      && Promise(d) in v.inputs
      && (d != due && j < Seen(w, d, Fail).calls ==> v.rejections != [])
  }

  /** `due` is the deferred whose reject handler has just been called, or -1. */
  ghost predicate RejectInv(w: World, v: When, due: int)
    requires LoopInv(w, v)
  {
    && (forall d: nat :: d < |w.ds| ==> RejectHandlers(w, v, d, due))
    && (forall p :: FailFrom(w, v) <= p < |v.inputs| && v.inputs[p].Promise? ==>
          var d := v.inputs[p].d;
          !Seen(w, d, Fail).enabled || FireList(MASTER, Fail) in Added(w, d, Fail))
    && (forall k :: 0 <= k < |v.rejections| ==> RejectedBy(w, v, v.rejections[k]))
  }

  ghost predicate MasterInv(w: World, v: When) {
    && MASTER < |w.ds|
    && (Seen(w, MASTER, Done).fired <==> v.open == {})
    && (v.open == {} ==> Seen(w, MASTER, Done).first == Some(Args(Arr(v.contexts), v.values)))
    && (Seen(w, MASTER, Fail).fired <==> v.rejections != [])
    && (v.rejections != [] ==> Seen(w, MASTER, Fail).first == Some(v.rejections[0]))
  }

  ghost predicate WhenInv(w: World) {
    match w.when
    case None => NoWhen(w)
    case Some(v) => LoopInv(w, v) && CountInv(w, v, -1) && RejectInv(w, v, -1) && MasterInv(w, v)
  }

  // ----- steps that do not concern it -----

  /** More user callbacks, more calls of other functions, perhaps fired, perhaps disabled. */
  predicate BoringList(l: List, r: List) {
    && |l.log.calls| <= |r.log.calls|
    && l.log.added <= r.log.added
    && (forall j :: |l.log.added| <= j < |r.log.added| ==> !Handler(r.log.added[j]))
    && (forall j :: |l.log.calls| <= j < |r.log.calls| && j < |r.log.added| ==> !Handler(r.log.added[j]))
    && (l.fired ==> r.fired)
    && (ViewOf(l).first.Some? ==> ViewOf(r).first == ViewOf(l).first)
    && (r.enabled ==> l.enabled)
  }

  predicate SameGathering(a: seq<Frame>, b: seq<Frame>) {
    && (Gathering in a <==> Gathering in b)
    && (GatheringFail in a <==> GatheringFail in b)
    && ((forall i, j :: 0 <= i < j < |a| && GatherFrame(a[i]) ==> !GatherFrame(a[j])) ==>
        (forall i, j :: 0 <= i < j < |b| && GatherFrame(b[i]) ==> !GatherFrame(b[j])))
  }

  ghost predicate BoringDeferreds(w: World, r: World) {
    && |w.ds| == |r.ds|
    && (forall d: nat :: d < |w.ds| ==>
      BoringList(w.ds[d].done, r.ds[d].done) && BoringList(w.ds[d].fail, r.ds[d].fail))
  }

  ghost predicate BoringMaster(w: World, r: World)
    requires MASTER < |w.ds| && MASTER < |r.ds|
  {
    && Seen(r, MASTER, Done).fired == Seen(w, MASTER, Done).fired
    && Seen(r, MASTER, Fail).fired == Seen(w, MASTER, Fail).fired
  }

  lemma BoringLoop(w: World, r: World, v: When)
    requires LoopInv(w, v) && BoringDeferreds(w, r) && SameGathering(w.stack, r.stack)
    ensures LoopInv(r, v) && FailFrom(w, v) == FailFrom(r, v)
  {
  }

  lemma BoringCount(w: World, r: World, v: When, due: int)
    requires LoopInv(w, v) && LoopInv(r, v) && BoringDeferreds(w, r) && CountInv(w, v, due)
    requires forall d: nat :: d < |w.ds| ==> |w.ds[d].done.log.calls| <= |w.ds[d].done.log.added|
    ensures CountInv(r, v, due)
  {
    forall d: nat, j | d < |r.ds| && 0 <= j < |Added(r, d, Done)| && Added(r, d, Done)[j].CountDown?
      ensures CountHandler(r, v, d, j, due)
    {
      assert BoringList(w.ds[d].done, r.ds[d].done);
      assert Added(w, d, Done)[j].CountDown? && CountHandler(w, v, d, j, due);
    }
    forall d: nat | d < |r.ds| ensures CountsOnce(Added(r, d, Done)) {
      assert BoringList(w.ds[d].done, r.ds[d].done);
      assert CountsOnce(Added(w, d, Done));
    }
    forall p: nat | p < |v.inputs| ensures Position(r, v, p, due) {
      assert Position(w, v, p, due);
      if v.inputs[p].Promise? { assert BoringList(w.ds[v.inputs[p].d].done, r.ds[v.inputs[p].d].done); }
    }
  }

  lemma BoringReject(w: World, r: World, v: When, due: int)
    requires LoopInv(w, v) && LoopInv(r, v) && BoringDeferreds(w, r) && FailFrom(w, v) == FailFrom(r, v)
    requires RejectInv(w, v, due)
    requires forall d: nat :: d < |w.ds| ==> |w.ds[d].fail.log.calls| <= |w.ds[d].fail.log.added|
    ensures RejectInv(r, v, due)
  {
    forall d: nat | d < |r.ds| ensures RejectHandlers(r, v, d, due) {
      assert BoringList(w.ds[d].fail, r.ds[d].fail);
      assert RejectHandlers(w, v, d, due);
      forall j | 0 <= j < |Added(r, d, Fail)| && Added(r, d, Fail)[j] == FireList(MASTER, Fail)
        ensures Promise(d) in v.inputs && (d != due && j < Seen(r, d, Fail).calls ==> v.rejections != [])
      {
        assert Added(w, d, Fail)[j] == FireList(MASTER, Fail);
      }
    }
    forall p | FailFrom(r, v) <= p < |v.inputs| && v.inputs[p].Promise?
      ensures var d := v.inputs[p].d; !Seen(r, d, Fail).enabled || FireList(MASTER, Fail) in Added(r, d, Fail)
    {
      assert BoringList(w.ds[v.inputs[p].d].fail, r.ds[v.inputs[p].d].fail);
    }
    forall k | 0 <= k < |v.rejections| ensures RejectedBy(r, v, v.rejections[k]) {
      assert RejectedBy(w, v, v.rejections[k]);
      var p :| 0 <= p < |v.inputs| && v.inputs[p].Promise?
        && Seen(w, v.inputs[p].d, Fail).first == Some(v.rejections[k]);
      assert BoringList(w.ds[v.inputs[p].d].fail, r.ds[v.inputs[p].d].fail);
    }
  }

  /** Calls never outrun additions on a settling list. */
  lemma CallsWithinAdded(w: World)
    requires AllDeferreds(w)
    ensures forall d: nat :: d < |w.ds| ==>
      && |w.ds[d].done.log.calls| <= |w.ds[d].done.log.added|
      && |w.ds[d].fail.log.calls| <= |w.ds[d].fail.log.added|
  {
    hide AddedOk, Inv, Wired;
    forall d: nat | d < |w.ds|
      ensures |w.ds[d].done.log.calls| <= |w.ds[d].done.log.added|
      ensures |w.ds[d].fail.log.calls| <= |w.ds[d].fail.log.added|
    {
      assert LocalInv(d, Done, Get(w.ds[d], Done)) && LocalInv(d, Fail, Get(w.ds[d], Fail));
    }
  }

  lemma BoringNone(w: World, r: World)
    requires NoWhen(w) && BoringDeferreds(w, r) && SameGathering(w.stack, r.stack) && BoringMaster(w, r)
    ensures NoWhen(r)
  {
    forall d: nat, j | d < |r.ds| && 0 <= j < |Added(r, d, Done)| ensures !Handler(Added(r, d, Done)[j]) {
      assert BoringList(w.ds[d].done, r.ds[d].done);
      assert j < |Added(w, d, Done)| ==> Added(w, d, Done)[j] == Added(r, d, Done)[j];
    }
    forall d: nat, j | d < |r.ds| && 0 <= j < |Added(r, d, Fail)| ensures !Handler(Added(r, d, Fail)[j]) {
      assert BoringList(w.ds[d].fail, r.ds[d].fail);
      assert j < |Added(w, d, Fail)| ==> Added(w, d, Fail)[j] == Added(r, d, Fail)[j];
    }
    forall f | f in r.stack ensures !GatherFrame(f) {
      assert f == Gathering ==> Gathering in r.stack;
    }
  }

  lemma BoringMasterKeeps(w: World, r: World, v: When)
    requires MasterInv(w, v) && BoringDeferreds(w, r) && BoringMaster(w, r)
    ensures MasterInv(r, v)
  {
    assert BoringList(w.ds[MASTER].done, r.ds[MASTER].done) && BoringList(w.ds[MASTER].fail, r.ds[MASTER].fail);
  }

  lemma BoringKeeps(w: World, r: World)
    requires WhenInv(w) && AllDeferreds(w) && r.when == w.when
    requires BoringDeferreds(w, r) && SameGathering(w.stack, r.stack) && BoringMaster(w, r)
    ensures WhenInv(r)
  {
    hide DeferredInv, LoopInv, CountInv, RejectInv;
    CallsWithinAdded(w);
    match w.when
    case None => BoringNone(w, r);
    case Some(v) =>
      BoringLoop(w, r, v);
      BoringCount(w, r, v, -1);
      BoringReject(w, r, v, -1);
      BoringMasterKeeps(w, r, v);
  }

  // ----- which moves of one list do not concern it -----

  predicate Watched(role: Role) { role == Done || role == Fail }

  lemma AddSeen(d: nat, role: Role, l: List, fns: seq<Fn>)
    requires LocalInv(d, role, l) && Watched(role)
    requires forall fn :: fn in fns ==> PermittedAdd(role, fn)
    ensures ViewOf(DoAdd(l, fns)) == ViewOf(l)
    ensures DoAdd(l, fns).log.added == if l.enabled then l.log.added + fns else l.log.added
    ensures |DoAdd(l, fns).log.calls| == |l.log.calls|
  {
    LocalAdd(d, role, l, fns);
    if l.enabled { OnceMemoryStep(l, Add(fns)); }
  }

  lemma TurnSeen(d: nat, role: Role, l: List)
    requires LocalInv(d, role, l) && Watched(role)
    ensures var r := DoTurn(l);
      && r.log.added == l.log.added
      && ViewOf(r) == (if l.firing && Calls(l) then ViewOf(l).(calls := |l.log.calls| + 1) else ViewOf(l))
    ensures l.firing && Calls(l) ==>
      && |l.log.calls| < |l.log.added| && NextCall(l).fn == l.log.added[|l.log.calls|]
      && ViewOf(l).first == Some(NextCall(l).args)
  {
    LocalTurn(d, role, l);
  }

  lemma FireSeen(d: nat, role: Role, l: List, args: Args)
    requires LocalInv(d, role, l) && Watched(role)
    ensures ViewOf(DoFire(l, args)) == Fired(ViewOf(l), args) && DoFire(l, args).log.added == l.log.added
    ensures l.fired ==> l.locked
    ensures l.enabled ==> l.fired == l.locked && l.fired == ViewOf(l).first.Some?
  {
    LocalFire(d, role, l, args);
  }

  lemma SameBoring(l: List)
    ensures BoringList(l, l)
  {
  }

  lemma PutBoring(w: World, d: nat, role: Role, l: List)
    requires d < |w.ds| && (Watched(role) ==> BoringList(Get(w.ds[d], role), l))
    ensures BoringDeferreds(w, SetList(w, d, role, l))
  {
    hide BoringList;
    forall e: nat | e < |w.ds|
      ensures BoringList(w.ds[e].done, SetList(w, d, role, l).ds[e].done)
      ensures BoringList(w.ds[e].fail, SetList(w, d, role, l).ds[e].fail)
    {
      SameBoring(w.ds[e].done);
      SameBoring(w.ds[e].fail);
    }
  }

  lemma BoringOn(a: World, b: World, c: World)
    requires BoringDeferreds(a, b) && BoringDeferreds(b, c)
    ensures BoringDeferreds(a, c)
  {
    forall d: nat | d < |a.ds| ensures BoringList(a.ds[d].done, c.ds[d].done)
      && BoringList(a.ds[d].fail, c.ds[d].fail) {
      assert BoringList(a.ds[d].done, b.ds[d].done) && BoringList(b.ds[d].done, c.ds[d].done);
      assert BoringList(a.ds[d].fail, b.ds[d].fail) && BoringList(b.ds[d].fail, c.ds[d].fail);
    }
  }

  lemma SameDsBoring(w: World, r: World)
    requires w.ds == r.ds
    ensures BoringDeferreds(w, r)
  {
    hide BoringList;
    forall e: nat | e < |w.ds| ensures BoringList(w.ds[e].done, r.ds[e].done)
      && BoringList(w.ds[e].fail, r.ds[e].fail) {
      SameBoring(w.ds[e].done);
      SameBoring(w.ds[e].fail);
    }
  }

  lemma PushSame(stack: seq<Frame>, f: Frame)
    requires !GatherFrame(f)
    ensures SameGathering(stack, stack + [f])
  {
  }

  lemma PopSame(stack: seq<Frame>)
    requires stack != [] && !GatherFrame(stack[|stack| - 1])
    ensures SameGathering(stack, stack[..|stack| - 1])
  {
    var k := |stack| - 1;
    assert stack == stack[..k] + [stack[k]];
  }

  lemma ApplyStackSame(w: World, d: nat, role: Role, m: Move)
    requires d < |w.ds| && Ok(Get(w.ds[d], role))
    ensures SameGathering(w.stack, Apply(w, d, role, m).stack) && Apply(w, d, role, m).when == w.when
    ensures Apply(w, d, role, m).ds == SetList(w, d, role, Step(Get(w.ds[d], role), m)).ds
  {
    hide Step, Ok;
    PushSame(w.stack, Firing(d, role));
  }

  // ----- events of the API -----

  lemma MasterSized(w: World)
    requires AllDeferreds(w)
    ensures MASTER < |w.ds|
  {
  }

  lemma BoringDs(w: World, a: World, b: World)
    requires BoringDeferreds(w, a) && a.ds == b.ds
    ensures BoringDeferreds(w, b)
    ensures MASTER < |w.ds| && MASTER < |a.ds| && BoringMaster(w, a) ==> BoringMaster(w, b)
  {
  }

  lemma SameMaster(w: World, d: nat, role: Role, l: List)
    requires MASTER < |w.ds| && d < |w.ds| && (l.fired == Get(w.ds[d], role).fired || d != MASTER || !Watched(role))
    ensures BoringMaster(w, SetList(w, d, role, l))
  {
  }

  lemma UsersPermitted(role: Role, ids: seq<nat>)
    ensures forall fn :: fn in UserFns(ids) ==> fn.User? && PermittedAdd(role, fn)
  {
  }

  /** The same list but for more user callbacks. */
  lemma MoreUsers(l: List, r: List, fns: seq<Fn>)
    requires ViewOf(r) == ViewOf(l) && r.log.added == (if l.enabled then l.log.added + fns else l.log.added)
    requires forall fn :: fn in fns ==> fn.User?
    ensures BoringList(l, r)
  {
    forall j | |l.log.added| <= j < |r.log.added| ensures !Handler(r.log.added[j]) {
      var k := j - |l.log.added|;
      assert r.log.added[j] == fns[k] && fns[k] in fns;
    }
    assert |r.log.calls| == ViewOf(r).calls && r.enabled == ViewOf(r).enabled && r.fired == ViewOf(r).fired;
  }

  lemma AddBoring(x: Deferred, d: nat, role: Role, ids: seq<nat>)
    requires DeferredInv(x, d) && Watched(role)
    ensures Ok(Get(x, role)) && BoringList(Get(x, role), DoAdd(Get(x, role), UserFns(ids)))
  {
    assert LocalInv(d, role, Get(x, role));
    hide DeferredInv, LocalInv, DoAdd, BoringList, UserFns, ViewOf, Ok;
    var l := Get(x, role);
    ListOk(d, role, l);
    UsersPermitted(role, ids);
    AddSeen(d, role, l, UserFns(ids));
    MoreUsers(l, DoAdd(l, UserFns(ids)), UserFns(ids));
  }

  lemma AddKeepsFired(l: List, fns: seq<Fn>)
    requires Ok(l)
    ensures Step(l, Add(fns)).fired == l.fired && Step(l, Add(fns)) == DoAdd(l, fns)
  {
    AddFrame(l, fns);
  }

  lemma ApiAddKeeps(w: World, d: nat, role: Role, ids: seq<nat>)
    requires WhenInv(w) && AllDeferreds(w) && d < |w.ds|
    ensures AllOk(w) && WhenInv(Apply(w, d, role, Add(UserFns(ids))))
  {
    hide DeferredInv, DoAdd, BoringList, LoopInv, CountInv, RejectInv, Step, Inv, NoWhen, MasterInv;
    InvOk(w);
    var l := Get(w.ds[d], role);
    var r := Apply(w, d, role, Add(UserFns(ids)));
    ApplyStackSame(w, d, role, Add(UserFns(ids)));
    if Watched(role) { AddBoring(w.ds[d], d, role, ids); }
    AddKeepsFired(l, UserFns(ids));
    PutBoring(w, d, role, Step(l, Add(UserFns(ids))));
    MasterSized(w);
    SameMaster(w, d, role, Step(l, Add(UserFns(ids))));
    BoringDs(w, SetList(w, d, role, Step(l, Add(UserFns(ids)))), r);
    BoringKeeps(w, r);
  }

  lemma FireBoring(x: Deferred, d: nat, role: Role, args: Args)
    requires DeferredInv(x, d) && Watched(role)
    ensures Ok(Get(x, role)) && BoringList(Get(x, role), DoFire(Get(x, role), args))
  {
    assert LocalInv(d, role, Get(x, role));
    FireSeen(d, role, Get(x, role), args);
  }

  lemma ApiFireKeeps(w: World, d: nat, role: Role, args: Args)
    requires WhenInv(w) && AllDeferreds(w) && d < |w.ds| && (d != MASTER || !Watched(role))
    ensures AllOk(w) && WhenInv(Apply(w, d, role, Fire(args)))
  {
    hide DeferredInv, DoFire, BoringList, LoopInv, CountInv, RejectInv, Inv, NoWhen, MasterInv;
    InvOk(w);
    var l := Get(w.ds[d], role);
    var r := Apply(w, d, role, Fire(args));
    ApplyStackSame(w, d, role, Fire(args));
    if Watched(role) { FireBoring(w.ds[d], d, role, args); }
    PutBoring(w, d, role, DoFire(l, args));
    MasterSized(w);
    SameMaster(w, d, role, DoFire(l, args));
    BoringDs(w, SetList(w, d, role, DoFire(l, args)), r);
    BoringKeeps(w, r);
  }

  // ----- turns of a pass -----

  lemma CalledKind(d: nat, role: Role, l: List)
    requires LocalInv(d, role, l) && l.firing && Calls(l)
    ensures var fn := NextCall(l).fn;
      && (fn.FireList? && Watched(fn.role) ==> fn == FireList(MASTER, Fail))
      && (fn.CountDown? ==> role == Done && |l.log.calls| >= 6)
      && (fn == FireList(MASTER, Fail) ==> role == Fail && |l.log.calls| >= 6)
  {
    var j := l.items[l.index + 1].serial;
    assert Permitted(d, role, j, l.log.added[j]);
  }

  /** The same list but for one more call, not of a handler. */
  lemma OneCallOn(l: List, r: List, called: bool)
    requires r.log.added == l.log.added
    requires ViewOf(r) == if called then ViewOf(l).(calls := |l.log.calls| + 1) else ViewOf(l)
    requires called ==> |l.log.calls| < |l.log.added| && !Handler(l.log.added[|l.log.calls|])
    ensures BoringList(l, r) && r.fired == l.fired
  {
    assert |r.log.calls| == ViewOf(r).calls && r.enabled == ViewOf(r).enabled && r.fired == ViewOf(r).fired;
  }

  lemma TurnBoring(x: Deferred, d: nat, role: Role)
    requires DeferredInv(x, d) && Watched(role)
    requires Get(x, role).firing && Calls(Get(x, role)) ==>
        Get(x, role).log.started != [] && !Handler(NextCall(Get(x, role)).fn)
    ensures Ok(Get(x, role)) && BoringList(Get(x, role), DoTurn(Get(x, role)))
    ensures DoTurn(Get(x, role)).fired == Get(x, role).fired
  {
    assert LocalInv(d, role, Get(x, role));
    hide DeferredInv, LocalInv, DoTurn, BoringList, ViewOf, Ok, Calls;
    var l := Get(x, role);
    ListOk(d, role, l);
    TurnSeen(d, role, l);
    OneCallOn(l, DoTurn(l), l.firing && Calls(l));
  }

  lemma ShutBoring(l: List, m: Move)
    requires Ok(l) && (m == Disable || m == Lock)
    ensures BoringList(l, Step(l, m)) && Step(l, m).fired == l.fired
  {
  }

  lemma SizedBoring(w: World, r: World)
    requires BoringDeferreds(w, r)
    ensures |r.ds| == |w.ds|
  {
  }

  lemma Reflexive(stack: seq<Frame>)
    ensures SameGathering(stack, stack)
  {
  }

  lemma Unchanged(w: World, r: World)
    requires MASTER < |w.ds| == |r.ds|
    requires forall d: nat :: d < |w.ds| ==> r.ds[d].done == w.ds[d].done && r.ds[d].fail == w.ds[d].fail
    ensures BoringDeferreds(w, r) && BoringMaster(w, r) && SameGathering(w.stack, w.stack)
  {
    hide BoringList;
    forall e: nat | e < |w.ds| ensures BoringList(w.ds[e].done, r.ds[e].done)
      && BoringList(w.ds[e].fail, r.ds[e].fail) {
      SameBoring(w.ds[e].done);
      SameBoring(w.ds[e].fail);
    }
  }

  lemma ShutInvoke(w: World, d: nat, role: Role, m: Move)
    requires AllOk(w) && MASTER < |w.ds| && d < |w.ds| && (m == Disable || m == Lock)
    ensures var r := Apply(w, d, role, m);
      && r.when == w.when && BoringDeferreds(w, r) && MASTER < |r.ds| && BoringMaster(w, r)
        && SameGathering(w.stack, r.stack)
  {
    hide BoringList, BoringDeferreds, BoringMaster, SameGathering, Ok, Step, Apply;
    ApplyStackSame(w, d, role, m);
    ShutBoring(Get(w.ds[d], role), m);
    PutBoring(w, d, role, Step(Get(w.ds[d], role), m));
    SameMaster(w, d, role, Step(Get(w.ds[d], role), m));
    BoringDs(w, SetList(w, d, role, Step(Get(w.ds[d], role), m)), Apply(w, d, role, m));
    SizedBoring(w, Apply(w, d, role, m));
  }

  /** Functions other than the handlers of `k.when` leave it alone. */
  lemma BoringInvoke(w: World, d: nat, role: Role, fn: Fn, args: Args)
    requires AllOk(w) && MASTER < |w.ds| && !Handler(fn) && !(fn.FireList? && Watched(fn.role))
    ensures var r := Invoke(w, d, role, fn, args);
      && r.when == w.when && BoringDeferreds(w, r) && BoringMaster(w, r) && SameGathering(w.stack, r.stack)
  {
    hide BoringList, BoringDeferreds, BoringMaster, SameGathering, Ok, Step, Apply;
    var r := Invoke(w, d, role, fn, args);
    match fn
    case User(_) => PushSame(w.stack, Calling(d, role)); Unchanged(w, r);
    case SetState(e, to) => PushSame(w.stack, Firing(0, Done)); Reflexive(w.stack); Unchanged(w, r);
    case DisableList(e, o) => if e < |w.ds| { ShutInvoke(w, e, o, Disable); } else { Unchanged(w, r); }
    case LockList(e, o) => if e < |w.ds| { ShutInvoke(w, e, o, Lock); } else { Unchanged(w, r); }
    case FireList(e, o) =>
      if e < |w.ds| {
        ApplyStackSame(w, e, o, Fire(args));
        PutBoring(w, e, o, Step(Get(w.ds[e], o), Fire(args)));
        SameMaster(w, e, o, Step(Get(w.ds[e], o), Fire(args)));
        BoringDs(w, SetList(w, e, o, Step(Get(w.ds[e], o), Fire(args))), r);
        SizedBoring(w, r);
      } else {
        Unchanged(w, r);
      }
  }

  lemma MasterOn(a: World, b: World, c: World)
    requires MASTER < |a.ds| && MASTER < |b.ds| && MASTER < |c.ds| && BoringMaster(a, b) && BoringMaster(b, c)
    ensures BoringMaster(a, c)
  {
  }

  lemma GatheringOn(a: seq<Frame>, b: seq<Frame>, c: seq<Frame>)
    requires SameGathering(a, b) && SameGathering(b, c)
    ensures SameGathering(a, c)
  {
  }

  lemma TurnFacts(w: World, d: nat, role: Role)
    requires AllDeferreds(w) && d < |w.ds|
    ensures Ok(Get(w.ds[d], role)) && MASTER < |w.ds|
    ensures var l := Get(w.ds[d], role); l.firing && Calls(l) ==>
      var fn := NextCall(l).fn;
      && (fn.FireList? && Watched(fn.role) ==> fn == FireList(MASTER, Fail))
      && (fn.CountDown? ==> role == Done && |l.log.calls| >= 6)
      && (fn == FireList(MASTER, Fail) ==> role == Fail && |l.log.calls| >= 6)
  {
    hide Wired, Inv, SettlingList, AddedOk;
    var l := Get(w.ds[d], role);
    assert LocalInv(d, role, l);
    InvIsOk(l);
    if l.firing && Calls(l) { CalledKind(d, role, l); }
  }

  /** A turn that calls no handler of `k.when` leaves it alone. */
  lemma PlainTurnKeeps(w: World, d: nat, role: Role)
    requires WhenInv(w) && AllDeferreds(w) && StackInv(w) && Top(w) == Some(Firing(d, role)) && d < |w.ds|
    requires var l := Get(w.ds[d], role); l.firing && Calls(l) ==> l.log.started != [] && !Handler(NextCall(l).fn)
    ensures AllOk(w) && WhenInv(FiringStep(w, d, role))
  {
    hide DeferredInv, BoringList, LoopInv, CountInv, RejectInv, NoWhen, MasterInv, BoringDeferreds, BoringMaster;
    hide SameGathering, DoTurn, Invoke, StackInv;
    InvOk(w);
    TurnFacts(w, d, role);
    var l := Get(w.ds[d], role);
    var w1 := SetList(w, d, role, DoTurn(l));
    StepOk(l, Turn);
    GetSet(w.ds[d], role, DoTurn(l));
    if Watched(role) { TurnBoring(w.ds[d], d, role); }
    PutBoring(w, d, role, DoTurn(l));
    SameMaster(w, d, role, DoTurn(l));
    Reflexive(w.stack);
    PopSame(w.stack);
    var r := FiringStep(w, d, role);
    TopInRange(w);
    if Calls(l) {
      BoringInvoke(w1, d, role, NextCall(l).fn, NextCall(l).args);
      SizedBoring(w1, r);
      BoringOn(w, w1, r);
      MasterOn(w, w1, r);
      GatheringOn(w.stack, w1.stack, r.stack);
    } else {
      BoringDs(w, w1, r);
    }
    BoringKeeps(w, r);
  }
}
