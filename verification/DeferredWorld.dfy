/** Runs of many deferreds on one call stack: the theorems about `k.Deferred`. */
module DeferredWorld {
  import opened Optional
  import opened Values
  import opened CallbackList
  import opened CallbackRuns
  import opened CallbackLate
  import opened Deferreds
  import opened DeferredRuns

  // ----- the invariant -----

  ghost predicate AllDeferreds(w: World) {
    && MASTER < |w.ds|
    && forall d: nat :: d < |w.ds| ==> DeferredInv(w.ds[d], d)
  }

  predicate FrameOk(stack: seq<Frame>, i: nat, n: nat)
    requires i < |stack|
  {
    match stack[i]
    case Firing(d, _) => d < n
    case Calling(d, role) => i > 0 && stack[i - 1] == Firing(d, role)
    case _ => true
  }

  /** A pass is on the stack exactly while its list is firing, and only once; a callback stands on its own pass. */
  ghost predicate StackInv(w: World) {
    && (forall d: nat, role :: d < |w.ds| ==> (Get(w.ds[d], role).firing <==> Firing(d, role) in w.stack))
    && (forall i, j :: 0 <= i < j < |w.stack| && w.stack[i].Firing? ==> w.stack[i] != w.stack[j])
    && (forall i :: 0 <= i < |w.stack| ==> FrameOk(w.stack, i, |w.ds|))
  }

  /** No head is being run, so every deferred is either pending or settled through and through. */
  predicate Quiet(w: World) {
    forall d: nat, s :: d < |w.ds| ==> !Settling(w.ds[d], s)
  }

  /** While a head is being run its pass stays on top: no user code runs meanwhile. */
  predicate HeadOnTop(w: World) {
    forall d: nat, s :: d < |w.ds| && Settling(w.ds[d], s) ==> Top(w) == Some(Firing(d, First(s)))
  }

  ghost predicate WorldInv(w: World) {
    AllDeferreds(w) && StackInv(w) && HeadOnTop(w)
  }

  lemma InvOk(w: World)
    requires AllDeferreds(w)
    ensures AllOk(w)
  {
    forall d: nat, role | d < |w.ds| ensures Ok(Get(w.ds[d], role)) {
      assert LocalInv(d, role, Get(w.ds[d], role));
    }
  }

  // ----- changing one list -----

  lemma PutKeeps(w: World, d: nat, role: Role, l: List)
    requires AllDeferreds(w) && d < |w.ds| && DeferredInv(Set(w.ds[d], role, l), d)
    ensures AllDeferreds(SetList(w, d, role, l))
  {
  }

  lemma SameStack(w: World, d: nat, role: Role, l: List)
    requires StackInv(w) && d < |w.ds| && l.firing == Get(w.ds[d], role).firing
    ensures StackInv(SetList(w, d, role, l))
  {
    GetSet(w.ds[d], role, l);
  }

  lemma EnterPass(w: World, d: nat, role: Role, l: List)
    requires StackInv(w) && d < |w.ds| && l.firing && !Get(w.ds[d], role).firing
    ensures var r := SetList(w, d, role, l); StackInv(r.(stack := r.stack + [Firing(d, role)]))
  {
    GetSet(w.ds[d], role, l);
    assert Firing(d, role) !in w.stack;
    var stack := w.stack + [Firing(d, role)];
    forall i | 0 <= i < |stack| ensures FrameOk(stack, i, |w.ds|) {
      assert i < |w.stack| ==> FrameOk(w.stack, i, |w.ds|);
    }
  }

  lemma LeavePass(w: World, d: nat, role: Role, l: List)
    requires StackInv(w) && d < |w.ds| && !l.firing && Top(w) == Some(Firing(d, role))
    ensures StackInv(Pop(SetList(w, d, role, l)))
  {
    GetSet(w.ds[d], role, l);
    var r := Pop(SetList(w, d, role, l));
    forall i | 0 <= i < |r.stack| ensures FrameOk(r.stack, i, |w.ds|) { assert FrameOk(w.stack, i, |w.ds|); }
    forall e: nat, o | e < |r.ds| ensures Get(r.ds[e], o).firing <==> Firing(e, o) in r.stack {
      assert Get(w.ds[e], o).firing <==> Firing(e, o) in w.stack;
      assert Firing(e, o) in w.stack ==> Firing(e, o) in r.stack || Firing(e, o) == Firing(d, role);
    }
  }

  lemma PushFrame(w: World, f: Frame)
    requires StackInv(w) && !f.Firing?
    requires f.Calling? ==> Top(w) == Some(Firing(f.d, f.role))
    ensures StackInv(w.(stack := w.stack + [f]))
  {
    var stack := w.stack + [f];
    forall i | 0 <= i < |stack| ensures FrameOk(stack, i, |w.ds|) {
      assert i < |w.stack| ==> FrameOk(w.stack, i, |w.ds|);
    }
  }

  lemma PopFrame(w: World)
    requires StackInv(w) && w.stack != [] && !w.stack[|w.stack| - 1].Firing?
    ensures StackInv(Pop(w))
  {
    var r := Pop(w);
    forall i | 0 <= i < |r.stack| ensures FrameOk(r.stack, i, |w.ds|) { assert FrameOk(w.stack, i, |w.ds|); }
    forall e: nat, o | e < |r.ds| ensures Get(r.ds[e], o).firing <==> Firing(e, o) in r.stack {
      assert Get(w.ds[e], o).firing <==> Firing(e, o) in w.stack;
    }
  }

  lemma ApplyStack(w: World, d: nat, role: Role, m: Move)
    requires StackInv(w) && d < |w.ds| && Ok(Get(w.ds[d], role))
    requires m.Add? || m.Fire? || m.Disable? || m.Lock?
    ensures StackInv(Apply(w, d, role, m))
  {
    var l := Get(w.ds[d], role);
    var r := Step(l, m);
    if m.Add? {
      PushAllKeepsQueue(l, m.fns);
      if Refires(l) { PushAllKeepsQueue(Rewind(l), m.fns); }
    }
    if r.firing && !l.firing { EnterPass(w, d, role, r); } else { SameStack(w, d, role, r); }
  }

  // ----- moves when no head is being run -----

  lemma AddSettles(x: Deferred, d: nat, role: Role, fns: seq<Fn>)
    requires DeferredInv(x, d)
    requires forall fn :: fn in fns ==> PermittedAdd(role, fn)
    ensures Ok(Get(x, role)) && ViewsOf(Set(x, role, DoAdd(Get(x, role), fns))) == ViewsOf(x)
  {
    LocalAdd(d, role, Get(x, role), fns);
    Reshow(x, role, DoAdd(Get(x, role), fns));
    SetShows(x, role, DoAdd(Get(x, role), fns));
  }

  lemma SettlingByViews(x: Deferred, y: Deferred, s: Settled)
    requires ViewsOf(x) == ViewsOf(y)
    ensures Settling(x, s) == Settling(y, s)
  {
  }

  lemma QuietPut(w: World, d: nat, role: Role, l: List)
    requires Quiet(w) && d < |w.ds| && ViewsOf(Set(w.ds[d], role, l)) == ViewsOf(w.ds[d])
    ensures Quiet(SetList(w, d, role, l))
  {
    hide Settling, ViewsOf;
    var r := SetList(w, d, role, l);
    forall e: nat, s | e < |r.ds| ensures !Settling(r.ds[e], s) {
      if e == d { SettlingByViews(w.ds[d], r.ds[d], s); }
    }
  }

  lemma QuietAdd(w: World, d: nat, role: Role, fns: seq<Fn>)
    requires AllDeferreds(w) && StackInv(w) && Quiet(w) && d < |w.ds|
    requires forall fn :: fn in fns ==> PermittedAdd(role, fn)
    ensures AllOk(w)
    ensures var r := Apply(w, d, role, Add(fns)); AllDeferreds(r) && StackInv(r) && Quiet(r)
  {
    hide DeferredInv, DoAdd, Settling, ViewsOf, StackInv;
    InvOk(w);
    AddStep(w.ds[d], d, role, fns);
    AddSettles(w.ds[d], d, role, fns);
    PutKeeps(w, d, role, DoAdd(Get(w.ds[d], role), fns));
    ApplyStack(w, d, role, Add(fns));
    QuietPut(w, d, role, DoAdd(Get(w.ds[d], role), fns));
  }

  lemma ProgressSettles(x: Deferred, d: nat, role: Role, args: Args)
    requires DeferredInv(x, d) && !Settles(role)
    ensures Ok(Get(x, role)) && ViewsOf(Set(x, role, DoFire(Get(x, role), args))) == ViewsOf(x)
  {
    LocalFire(d, role, Get(x, role), args);
    Reshow(x, role, DoFire(Get(x, role), args));
    SetShows(x, role, DoFire(Get(x, role), args));
  }

  lemma QuietProgress(w: World, d: nat, role: Role, args: Args)
    requires AllDeferreds(w) && StackInv(w) && Quiet(w) && d < |w.ds| && !Settles(role)
    ensures AllOk(w)
    ensures var r := Apply(w, d, role, Fire(args)); AllDeferreds(r) && StackInv(r) && Quiet(r)
  {
    hide DeferredInv, DoFire, Settling, ViewsOf, StackInv;
    InvOk(w);
    ProgressStep(w.ds[d], d, role, args);
    ProgressSettles(w.ds[d], d, role, args);
    PutKeeps(w, d, role, DoFire(Get(w.ds[d], role), args));
    ApplyStack(w, d, role, Fire(args));
    QuietPut(w, d, role, DoFire(Get(w.ds[d], role), args));
  }

  /** A fire that takes effect enters the list's pass; one that does not changes nothing. */
  lemma FireSettles(x: Deferred, d: nat, s: Settled, args: Args)
    requires DeferredInv(x, d) && !Settling(x, Resolved) && !Settling(x, Rejected)
    ensures var l := Get(x, First(s));
      var y := Set(x, First(s), DoFire(l, args));
      && Ok(l) && DeferredInv(y, d) && !Settling(y, Other(s))
      && (if l.locked then !Settling(y, s) else !l.firing && DoFire(l, args).firing)
  {
    hide LocalInv, Wired;
    var l := Get(x, First(s));
    assert LocalInv(d, First(s), l);
    ListOk(d, First(s), l);
    assert !SettlingView(ViewsOf(x), s) && !SettlingView(ViewsOf(x), Other(s));
    FireStep(x, d, s, args);
    LocalFire(d, First(s), l, args);
    SetShows(x, First(s), DoFire(l, args));
  }

  lemma QuietFire(w: World, d: nat, s: Settled, args: Args)
    requires AllDeferreds(w) && StackInv(w) && Quiet(w) && d < |w.ds|
    ensures AllOk(w) && WorldInv(Apply(w, d, First(s), Fire(args)))
  {
    hide DeferredInv, DoFire, Settling, ViewsOf, StackInv;
    InvOk(w);
    var l := Get(w.ds[d], First(s));
    assert !Settling(w.ds[d], Resolved) && !Settling(w.ds[d], Rejected);
    FireSettles(w.ds[d], d, s, args);
    PutKeeps(w, d, First(s), DoFire(l, args));
    ApplyStack(w, d, First(s), Fire(args));
    var r := Apply(w, d, First(s), Fire(args));
    assert forall e: nat, o :: e < |r.ds| && e != d ==> r.ds[e] == w.ds[e] && !Settling(r.ds[e], o);
    assert forall o :: Settling(r.ds[d], o) ==> o == s || o == Other(s);
  }

  // ----- turns of a pass -----

  /** What a pass can come to call when it is not running the head. */
  lemma CallPermitted(d: nat, role: Role, l: List)
    requires LocalInv(d, role, l) && l.firing && Calls(l)
    requires role == Done || role == Fail ==> |l.log.calls| >= 6
    ensures var fn := NextCall(l).fn;
      || fn.User?
      || (role == Progress && fn == FireList(d, Progress2))
      || (role == Done && fn.CountDown?)
      || (role == Fail && fn == FireList(MASTER, Fail))
  {
    var j := l.items[l.index + 1].serial;
    assert Permitted(d, role, j, l.log.added[j]);
  }

  lemma QuietTurn(w: World, d: nat, role: Role)
    requires AllDeferreds(w) && StackInv(w) && Quiet(w) && Top(w) == Some(Firing(d, role))
    ensures d < |w.ds| && AllOk(w)
    ensures var r := SetList(w, d, role, DoTurn(Get(w.ds[d], role)));
      && AllDeferreds(r) && Quiet(r)
      && (if DoTurn(Get(w.ds[d], role)).firing then StackInv(r) else StackInv(Pop(r)) && Quiet(Pop(r)))
  {
    hide DeferredInv, DoTurn, Settling, ViewsOf;
    InvOk(w);
    assert FrameOk(w.stack, |w.stack| - 1, |w.ds|);
    assert Firing(d, role) in w.stack;
    assert !Settling(w.ds[d], Resolved) && !Settling(w.ds[d], Rejected);
    TurnStep(w.ds[d], d, role);
    PutKeeps(w, d, role, DoTurn(Get(w.ds[d], role)));
    var r := SetList(w, d, role, DoTurn(Get(w.ds[d], role)));
    assert forall e: nat, o :: e < |r.ds| && e != d ==> r.ds[e] == w.ds[e] && !Settling(r.ds[e], o);
    assert forall o :: Settling(r.ds[d], o) ==> o == Resolved || o == Rejected;
    if DoTurn(Get(w.ds[d], role)).firing {
      SameStack(w, d, role, DoTurn(Get(w.ds[d], role)));
    } else {
      LeavePass(w, d, role, DoTurn(Get(w.ds[d], role)));
    }
  }

  lemma SameLists(w: World, d: nat, s: Settled)
    requires StackInv(w) && d < |w.ds|
    ensures StackInv(w.(ds := w.ds[d := w.ds[d].(history := w.ds[d].history + [s])]))
  {
    var x := w.ds[d];
    assert forall role {:trigger Get(x, role)} :: Get(x.(history := x.history + [s]), role) == Get(x, role);
  }

  /** The world after the effect of function `n` of the head of side `s` of deferred `d`. */
  lemma HeadInvoke(w: World, d: nat, s: Settled, n: nat, args: Args)
    requires AllOk(w) && MASTER < |w.ds| && d < |w.ds| && n < 6 && StackInv(w)
    ensures var r := Invoke(w, d, First(s), Head(d, s)[n], args);
      && r.ds == w.ds[d := HeadEffect(w.ds[d], s, n, args)] && StackInv(r) && r.when == w.when
      && (n < 5 ==> r.stack == w.stack)
  {
    hide DoFire, Ok, StackInv;
    if n == 0 {
      SameLists(w, d, s);
    } else if n == 1 {
      ApplyStack(w, d, First(Other(s)), Disable);
    } else if n == 2 {
      ApplyStack(w, d, Second(Other(s)), Disable);
    } else if n == 3 {
      ApplyStack(w, d, Progress, Lock);
    } else if n == 4 {
      ApplyStack(w, d, Progress2, Lock);
    } else {
      ApplyStack(w, d, Second(s), Fire(args));
    }
  }

  lemma AfterHeadTurn(w: World, d: nat, s: Settled)
    requires WorldInv(w) && AllOk(w) && d < |w.ds|
    requires var l := Get(w.ds[d], First(s));
        l.firing && DoTurn(l).firing && AllLocal(Set(w.ds[d], First(s), DoTurn(l)), d)
    ensures var w1 := SetList(w, d, First(s), DoTurn(Get(w.ds[d], First(s)))); AllOk(w1) && StackInv(w1)
  {
    hide DoTurn, DeferredInv, HeadOnTop;
    SameStack(w, d, First(s), DoTurn(Get(w.ds[d], First(s))));
    GetSet(w.ds[d], First(s), DoTurn(Get(w.ds[d], First(s))));
    forall role ensures Ok(Get(Set(w.ds[d], First(s), DoTurn(Get(w.ds[d], First(s)))), role)) {
      assert LocalInv(d, role, Get(Set(w.ds[d], First(s), DoTurn(Get(w.ds[d], First(s)))), role));
    }
  }

  /** The head goes on: its pass stays on top until it has fired the second list of its side. */
  lemma HeadOnward(w: World, d: nat, s: Settled)
    requires WorldInv(w) && Top(w) == Some(Firing(d, First(s))) && d < |w.ds| && Settling(w.ds[d], s)
    ensures AllOk(w) && WorldInv(FiringStep(w, d, First(s)))
  {
    hide DeferredInv, DoTurn, Settling, ViewsOf, Invoke, StackInv, AllLocal, HeadEffect;
    InvOk(w);
    HeadStep(w.ds[d], d, s);
    var l := Get(w.ds[d], First(s));
    var w1 := SetList(w, d, First(s), DoTurn(l));
    AfterHeadTurn(w, d, s);
    HeadInvoke(w1, d, s, |l.log.calls|, NextCall(l).args);
    var r := FiringStep(w, d, First(s));
    assert forall e: nat, o :: e < |r.ds| && e != d ==>
      r.ds[e] == w.ds[e] && (Settling(w.ds[e], o) ==> Top(w) == Some(Firing(e, First(o))));
    assert forall o :: Settling(r.ds[d], o) ==> o == s || o == Other(s);
  }

  // ----- whole steps -----

  lemma SameWorld(w: World, when: Option<When>)
    requires AllDeferreds(w) && StackInv(w) && Quiet(w)
    ensures var r := w.(when := when); AllDeferreds(r) && StackInv(r) && Quiet(r)
  {
  }

  lemma CountKeeps(w: World, t: nat, args: Args)
    requires AllDeferreds(w) && StackInv(w) && Quiet(w)
    ensures AllOk(w) && WorldInv(Count(w, t, args))
  {
    hide DeferredInv, StackInv, DoFire, Settling;
    InvOk(w);
    if w.when.Some? && t < |w.when.value.contexts| && t < |w.when.value.values| {
      var v := w.when.value;
      var v' := v.(contexts := v.contexts[t := args.context], values := v.values[t := Collected(args)],
                   remaining := v.remaining - 1, open := v.open - {t});
      SameWorld(w, Some(v'));
      if v'.remaining == 0 {
        QuietFire(w.(when := Some(v')), MASTER, Resolved, Args(Arr(v'.contexts), v'.values));
      }
    }
  }

  lemma RejectKeeps(w: World, args: Args)
    requires AllDeferreds(w) && StackInv(w) && Quiet(w)
    ensures AllOk(w) && WorldInv(RejectMaster(w, args))
  {
    hide DeferredInv, StackInv, DoFire, Settling;
    InvOk(w);
    if w.when.Some? {
      SameWorld(w, Some(w.when.value.(rejections := w.when.value.rejections + [args])));
      QuietFire(w.(when := Some(w.when.value.(rejections := w.when.value.rejections + [args]))),
                MASTER, Rejected, args);
    } else {
      QuietFire(w, MASTER, Rejected, args);
    }
  }

  lemma QuietInvoke(w: World, d: nat, role: Role, fn: Fn, args: Args)
    requires AllDeferreds(w) && StackInv(w) && Quiet(w) && d < |w.ds| && Top(w) == Some(Firing(d, role))
    requires fn.User? || (role == Progress && fn == FireList(d, Progress2)) || fn.CountDown?
        || fn == FireList(MASTER, Fail)
    ensures AllOk(w) && WorldInv(Invoke(w, d, role, fn, args))
  {
    hide DeferredInv, StackInv, DoFire, Settling, Count, RejectMaster, Apply;
    InvOk(w);
    match fn
    case User(_) => PushFrame(w, Calling(d, role));
    case CountDown(t) => CountKeeps(w, t, args);
    case FireList(e, r) =>
      if e == MASTER && r == Fail { RejectKeeps(w, args); } else { QuietProgress(w, d, Progress2, args); }
    case _ =>
  }

  lemma TopInRange(w: World)
    requires StackInv(w) && w.stack != []
    ensures FrameOk(w.stack, |w.stack| - 1, |w.ds|)
    ensures w.stack[|w.stack| - 1].Firing? ==> Get(w.ds[w.stack[|w.stack| - 1].d], w.stack[|w.stack| - 1].role).firing
  {
    var f := w.stack[|w.stack| - 1];
    assert FrameOk(w.stack, |w.stack| - 1, |w.ds|);
    if f.Firing? { assert Firing(f.d, f.role) in w.stack; }
  }

  lemma QuietCall(w: World, d: nat, role: Role)
    requires AllDeferreds(w) && Quiet(w) && d < |w.ds| && Calls(Get(w.ds[d], role))
    ensures var l := Get(w.ds[d], role);
      && Ok(l) && DoTurn(l).firing
      && var fn := NextCall(l).fn;
         (fn.User? || (role == Progress && fn == FireList(d, Progress2)) || fn.CountDown?
           || fn == FireList(MASTER, Fail))
  {
    hide Wired, SettlingList, StackInv;
    var l := Get(w.ds[d], role);
    assert LocalInv(d, role, l);
    assert !Settling(w.ds[d], Resolved) && !Settling(w.ds[d], Rejected);
    assert !SettlingView(ViewsOf(w.ds[d]), Resolved) && !SettlingView(ViewsOf(w.ds[d]), Rejected);
    CallPermitted(d, role, l);
  }

  lemma FiringKeeps(w: World, d: nat, role: Role)
    requires WorldInv(w) && Top(w) == Some(Firing(d, role))
    ensures d < |w.ds| && AllOk(w) && WorldInv(FiringStep(w, d, role))
  {
    hide DeferredInv, StackInv, DoTurn, Settling, Invoke, First;
    InvOk(w);
    TopInRange(w);
    if exists s :: First(s) == role && Settling(w.ds[d], s) {
      var s :| First(s) == role && Settling(w.ds[d], s);
      HeadOnward(w, d, s);
    } else {
      forall e: nat, o | e < |w.ds| ensures !Settling(w.ds[e], o) {
        assert Settling(w.ds[e], o) ==> Top(w) == Some(Firing(e, First(o)));
      }
      QuietTurn(w, d, role);
      if Calls(Get(w.ds[d], role)) {
        QuietCall(w, d, role);
        var l := Get(w.ds[d], role);
        QuietInvoke(SetList(w, d, role, DoTurn(l)), d, role, NextCall(l).fn, NextCall(l).args);
      }
    }
  }

  lemma ReplaceFrame(w: World, f: Frame)
    requires AllDeferreds(w) && StackInv(w) && Quiet(w)
    requires w.stack != [] && !w.stack[|w.stack| - 1].Firing? && (f.Gathering? || f.GatheringFail?)
    ensures var r := Replace(w, f); AllDeferreds(r) && StackInv(r) && Quiet(r)
    ensures var r := Pop(w); AllDeferreds(r) && StackInv(r) && Quiet(r)
  {
    hide DeferredInv, Settling;
    PopFrame(w);
    PushFrame(Pop(w), f);
  }

  lemma GatherKeeps(w: World)
    requires AllDeferreds(w) && StackInv(w) && Quiet(w) && Top(w) == Some(Gathering)
    ensures AllOk(w) && WorldInv(GatherStep(w))
  {
    hide DeferredInv, StackInv, Settling, Count, Apply;
    InvOk(w);
    ReplaceFrame(w, Gathering);
    if w.when.Some? && 0 < w.when.value.t <= |w.when.value.inputs| {
      var t := w.when.value.t - 1;
      var when := Some(w.when.value.(t := t));
      SameWorld(w, when);
      match w.when.value.inputs[t]
      case Plain(v) => CountKeeps(w.(when := when), t, Args(Undefined, [v]));
      case Promise(d) =>
        ReplaceFrame(w.(when := when), GatheringFail);
        if d < |w.ds| { QuietAdd(Replace(w.(when := when), GatheringFail), d, Done, [CountDown(t)]); }
    }
  }

  lemma GatherFailKeeps(w: World)
    requires AllDeferreds(w) && StackInv(w) && Quiet(w) && Top(w) == Some(GatheringFail)
    ensures AllOk(w) && WorldInv(GatherFailStep(w))
  {
    hide DeferredInv, StackInv, Settling, Apply;
    InvOk(w);
    ReplaceFrame(w, Gathering);
    if w.when.Some? {
      var v := w.when.value;
      if v.t < |v.inputs| && v.inputs[v.t].Promise? && v.inputs[v.t].d < |w.ds| {
        QuietAdd(Replace(w, Gathering), v.inputs[v.t].d, Fail, [FireList(MASTER, Fail)]);
      }
    }
  }

  lemma QuietUnlessFiring(w: World)
    requires HeadOnTop(w) && (Top(w).Some? ==> !Top(w).value.Firing?)
    ensures Quiet(w)
  {
    hide Settling;
    forall e: nat, o | e < |w.ds| ensures !Settling(w.ds[e], o) {
      assert Settling(w.ds[e], o) ==> Top(w) == Some(Firing(e, First(o)));
    }
  }

  /** Every event keeps the invariant. */
  lemma EventKeeps(w: World, e: Event)
    requires WorldInv(w)
    ensures AllOk(w) && WorldInv(WorldStep(w, e))
  {
    hide DeferredInv, StackInv, Settling, Apply, FiringStep, GatherStep, GatherFailStep;
    InvOk(w);
    if Top(w).None? || !Top(w).value.Firing? { QuietUnlessFiring(w); }
    match e
    case Internal =>
      if w.stack != [] {
        match w.stack[|w.stack| - 1]
        case Firing(d, role) => FiringKeeps(w, d, role);
        case Calling(_, _) =>
        case Gathering => GatherKeeps(w);
        case GatheringFail => GatherFailKeeps(w);
      }
    case ApiAdd(d, role, ids) =>
      if UserRuns(w) && d < |w.ds| { QuietAdd(w, d, role, UserFns(ids)); }
    case ApiFire(d, role, args) =>
      if UserRuns(w) && d < |w.ds| && FirstRole(role) {
        match role
        case Progress => QuietProgress(w, d, Progress, args);
        case Done => QuietFire(w, d, Resolved, args);
        case Fail => QuietFire(w, d, Rejected, args);
        case _ =>
      }
    case ApiReturn =>
      if UserRuns(w) && w.stack != [] { ReplaceFrame(w, Gathering); }
    case ApiWhen(inputs) =>
      if UserRuns(w) && w.when.None? && GoodInputs(w, inputs) {
        var unset := seq(|inputs|, _ => Undefined);
        var when := Some(When(inputs, |inputs|, |inputs|, unset, unset, UpTo(|inputs|), []));
        SameWorld(w, when);
        PushFrame(w.(when := when), Gathering);
      }
  }

  // ----- the start -----

  lemma NewRepeatMemory()
    ensures Inv(New(REPEAT_MEMORY))
  {
  }

  lemma NewOnceMemory()
    ensures Inv(New(ONCE_MEMORY)) && OnceMemoryInv(New(ONCE_MEMORY))
  {
  }

  lemma NewLocal(d: nat, role: Role, opts: Options)
    requires role == Done2 || role == Fail2 || role == Progress2
    requires opts == if role == Progress2 then REPEAT_MEMORY else ONCE_MEMORY
    ensures LocalInv(d, role, New(opts))
  {
    hide Inv, OnceMemoryInv;
    NewOnceMemory();
    NewRepeatMemory();
  }

  lemma NewListInv(d: nat, role: Role)
    requires role == Done2 || role == Fail2 || role == Progress2
    ensures LocalInv(d, role, Get(NewDeferred(d), role))
    ensures ViewOf(Get(NewDeferred(d), role)) == View(true, false, false, 0, None)
  {
    NewLocal(d, role, if role == Progress2 then REPEAT_MEMORY else ONCE_MEMORY);
    hide PushAll, DoAdd, Head, LocalInv;
  }

  /** A new "once memory" list with its first functions. */
  lemma FilledList(fns: seq<Fn>)
    ensures var r := DoAdd(New(ONCE_MEMORY), fns);
      && Inv(r) && OnceMemoryInv(r) && r.log.added == fns && r.enabled && !r.locked && !r.fired && !r.firing
      && r.log.calls == [] && r.log.started == []
  {
    hide Inv, OnceMemoryInv;
    var l := New(ONCE_MEMORY);
    NewOnceMemory();
    PushAllPlain(l, fns);
    StepKeeps(l, Add(fns));
    OnceMemoryStep(l, Add(fns));
    assert [] + fns == fns;
  }

  lemma HeadPermitted(d: nat, s: Settled)
    ensures AddedOk(d, First(s), Head(d, s))
  {
  }

  lemma NewFilledInv(d: nat, s: Settled)
    ensures LocalInv(d, First(s), Get(NewDeferred(d), First(s)))
    ensures ViewOf(Get(NewDeferred(d), First(s))) == View(true, false, false, 0, None)
    ensures !Get(NewDeferred(d), First(s)).firing
  {
    FilledList(Head(d, s));
    HeadPermitted(d, s);
    hide Inv, OnceMemoryInv, DoAdd, Head, Permitted;
  }

  lemma NewProgressInv(d: nat)
    ensures LocalInv(d, Progress, NewDeferred(d).progress)
    ensures ViewOf(NewDeferred(d).progress) == View(true, false, false, 0, None) && !NewDeferred(d).progress.firing
  {
    var l := New(REPEAT_MEMORY);
    PushAllPlain(l, [FireList(d, Progress2)]);
    StepKeeps(l, Add([FireList(d, Progress2)]));
    AddFrame(l, [FireList(d, Progress2)]);
  }

  lemma NewDeferredInv(d: nat)
    ensures DeferredInv(NewDeferred(d), d)
    ensures forall role :: !Get(NewDeferred(d), role).firing
    ensures forall s :: !Settling(NewDeferred(d), s)
  {
    hide LocalInv, DoAdd;
    NewFilledInv(d, Resolved);
    NewFilledInv(d, Rejected);
    NewProgressInv(d);
    NewListInv(d, Progress2);
    NewListInv(d, Done2);
    NewListInv(d, Fail2);
  }

  lemma NewWorldInv(n: nat)
    requires n > MASTER
    ensures WorldInv(NewWorld(n))
  {
    hide DeferredInv, Settling, NewDeferred;
    forall d: nat | d < n
      ensures DeferredInv(NewWorld(n).ds[d], d) && forall role :: !Get(NewWorld(n).ds[d], role).firing
      ensures forall s :: !Settling(NewWorld(n).ds[d], s)
    {
      NewDeferredInv(d);
    }
  }

  // ----- runs -----

  ghost predicate Steps(w: World, e: Event, r: World) {
    AllOk(w) && MASTER < |w.ds| && r == WorldStep(w, e)
  }

  /** The states of a run of `n` deferreds, and the events between them. */
  datatype Run = Run(states: seq<World>, events: seq<Event>)

  ghost predicate IsRun(run: Run, n: nat) {
    && n > MASTER && |run.states| == |run.events| + 1 && run.states[0] == NewWorld(n)
    && forall i {:trigger Steps(run.states[i], run.events[i], run.states[i + 1])} :: 0 <= i < |run.events| ==>
         Steps(run.states[i], run.events[i], run.states[i + 1])
  }

  /** Every state of every run satisfies the invariant. */
  lemma {:induction false} RunKeeps(run: Run, n: nat, i: nat)
    requires IsRun(run, n) && i < |run.states|
    ensures WorldInv(run.states[i])
    decreases i
  {
    hide WorldInv, WorldStep, NewWorld;
    if i == 0 {
      NewWorldInv(n);
    } else {
      RunKeeps(run, n, i - 1);
      var k := i - 1;
      assert Steps(run.states[k], run.events[k], run.states[k + 1]);
      EventKeeps(run.states[i - 1], run.events[i - 1]);
    }
  }

  lemma Sized(w: World)
    requires WorldInv(w)
    ensures MASTER < |w.ds|
  {
  }

  /** Any event can follow any run. */
  lemma RunGoesOn(run: Run, n: nat, e: Event) returns (longer: Run)
    requires IsRun(run, n)
    ensures IsRun(longer, n) && longer.events == run.events + [e] && run.states <= longer.states
  {
    hide WorldInv, WorldStep, NewWorld;
    var last := run.states[|run.events|];
    RunKeeps(run, n, |run.events|);
    EventKeeps(last, e);
    Sized(last);
    longer := Run(run.states + [WorldStep(last, e)], run.events + [e]);
    forall i | 0 <= i < |longer.events| ensures Steps(longer.states[i], longer.events[i], longer.states[i + 1]) {
      if i < |run.events| { assert Steps(run.states[i], run.events[i], run.states[i + 1]); }
    }
  }

  // ----- nothing that has happened is undone -----

  ghost predicate DeferredGrows(x: Deferred, y: Deferred) {
    && x.history <= y.history
    && forall role :: Grows(Get(x, role), Get(y, role)) && Evolves(Get(x, role), Get(y, role), Settles(role))
  }

  ghost predicate WorldGrows(w: World, r: World) {
    && |w.ds| == |r.ds|
    && forall d: nat :: d < |w.ds| ==> DeferredGrows(w.ds[d], r.ds[d])
  }

  lemma SameDeferreds(w: World, r: World)
    requires w.ds == r.ds && AllOk(w)
    ensures WorldGrows(w, r)
  {
    hide Ok, Evolves;
    forall d: nat, role | d < |w.ds| ensures Evolves(Get(w.ds[d], role), Get(r.ds[d], role), Settles(role)) {
      EvolvesNot(Get(w.ds[d], role), Settles(role));
    }
  }

  lemma GrowsOnList(a: List, b: List, c: List)
    requires Grows(a, b) && Grows(b, c)
    ensures Grows(a, c)
  {
  }

  lemma GrowsOn(a: World, b: World, c: World)
    requires WorldGrows(a, b) && WorldGrows(b, c)
    ensures WorldGrows(a, c)
  {
    hide Grows, Evolves;
    forall d: nat, role | d < |a.ds|
      ensures Grows(Get(a.ds[d], role), Get(c.ds[d], role))
      ensures Evolves(Get(a.ds[d], role), Get(c.ds[d], role), Settles(role))
    {
      assert DeferredGrows(a.ds[d], b.ds[d]) && DeferredGrows(b.ds[d], c.ds[d]);
      GrowsOnList(Get(a.ds[d], role), Get(b.ds[d], role), Get(c.ds[d], role));
      EvolvesOn(Get(a.ds[d], role), Get(b.ds[d], role), Get(c.ds[d], role), Settles(role));
    }
  }

  lemma SameGrows(l: List)
    ensures Grows(l, l)
  {
  }

  lemma UnchangedGrows(x: Deferred, y: Deferred)
    requires x.history <= y.history && forall role :: Get(y, role) == Get(x, role) && Ok(Get(x, role))
    ensures DeferredGrows(x, y)
  {
    hide Ok, Grows, Evolves;
    forall role ensures Grows(Get(x, role), Get(y, role)) && Evolves(Get(x, role), Get(y, role), Settles(role)) {
      assert Get(y, role) == Get(x, role);
      SameGrows(Get(x, role));
      EvolvesNot(Get(x, role), Settles(role));
    }
  }

  lemma ListMoves(x: Deferred, role: Role, m: Move)
    requires (forall o :: Ok(Get(x, o))) && (Keeps(m) || (Settles(role) && m.Disable?))
    ensures Ok(Get(x, role)) && DeferredGrows(x, Set(x, role, Step(Get(x, role), m)))
  {
    hide Ok, Step, Grows, Evolves;
    assert Ok(Get(x, role));
    var y := Set(x, role, Step(Get(x, role), m));
    GetSet(x, role, Step(Get(x, role), m));
    forall o ensures Grows(Get(x, o), Get(y, o)) && Evolves(Get(x, o), Get(y, o), Settles(o)) {
      assert Ok(Get(x, o)) && Get(y, o) == if o == role then Step(Get(x, role), m) else Get(x, o);
      SameGrows(Get(x, o));
      EvolvesNot(Get(x, o), Settles(o));
      StepGrows(Get(x, role), m);
      EvolvesBy(Get(x, role), m, Settles(role));
    }
  }

  /** Putting the outcome of one move into one list. */
  lemma MoveGrows(w: World, d: nat, role: Role, m: Move)
    requires AllOk(w) && d < |w.ds| && (Keeps(m) || (Settles(role) && m.Disable?))
    ensures Ok(Get(w.ds[d], role)) && WorldGrows(w, SetList(w, d, role, Step(Get(w.ds[d], role), m)))
  {
    hide Ok, Step, DeferredGrows;
    forall o ensures Ok(Get(w.ds[d], o)) {}
    ListMoves(w.ds[d], role, m);
    forall e: nat | e < |w.ds| ensures DeferredGrows(w.ds[e], w.ds[e]) { UnchangedGrows(w.ds[e], w.ds[e]); }
  }

  lemma ApplyGrows(w: World, d: nat, role: Role, m: Move)
    requires AllOk(w) && d < |w.ds| && (Keeps(m) || (Settles(role) && m.Disable?))
    ensures Ok(Get(w.ds[d], role)) && WorldGrows(w, Apply(w, d, role, m))
  {
    hide Ok, Step, DeferredGrows;
    MoveGrows(w, d, role, m);
  }

  lemma CountGrows(w: World, t: nat, args: Args)
    requires AllOk(w) && MASTER < |w.ds|
    ensures WorldGrows(w, Count(w, t, args))
  {
    hide Apply, DeferredGrows;
    if w.when.Some? && t < |w.when.value.contexts| && t < |w.when.value.values| {
      var v := w.when.value;
      var v' := v.(contexts := v.contexts[t := args.context], values := v.values[t := Collected(args)],
                   remaining := v.remaining - 1, open := v.open - {t});
      SameDeferreds(w, w.(when := Some(v')));
      if v'.remaining == 0 { ApplyGrows(w.(when := Some(v')), MASTER, Done, Fire(Args(Arr(v'.contexts), v'.values))); }
    } else {
      SameDeferreds(w, w);
    }
  }

  lemma SetStateGrows(w: World, d: nat, to: Settled)
    requires d < |w.ds| && AllOk(w)
    ensures WorldGrows(w, w.(ds := w.ds[d := w.ds[d].(history := w.ds[d].history + [to])]))
  {
    hide Ok, DeferredGrows;
    var r := w.(ds := w.ds[d := w.ds[d].(history := w.ds[d].history + [to])]);
    forall e: nat | e < |w.ds| ensures DeferredGrows(w.ds[e], r.ds[e]) {
      forall o ensures Get(r.ds[e], o) == Get(w.ds[e], o) && Ok(Get(w.ds[e], o)) {}
      UnchangedGrows(w.ds[e], r.ds[e]);
    }
  }

  lemma RejectGrows(w: World, args: Args)
    requires AllOk(w) && MASTER < |w.ds|
    ensures WorldGrows(w, RejectMaster(w, args))
  {
    hide Apply;
    var w' := if w.when.None? then w
              else w.(when := Some(w.when.value.(rejections := w.when.value.rejections + [args])));
    ApplyGrows(w', MASTER, Fail, Fire(args));
    SameDeferreds(w, w');
    GrowsOn(w, w', RejectMaster(w, args));
  }

  lemma InvokeGrows(w: World, d: nat, role: Role, fn: Fn, args: Args)
    requires AllOk(w) && MASTER < |w.ds| && (fn.DisableList? ==> Settles(fn.role))
    ensures WorldGrows(w, Invoke(w, d, role, fn, args))
  {
    hide Apply, Count, WorldGrows;
    SameDeferreds(w, w);
    match fn
    case User(_) => SameDeferreds(w, Invoke(w, d, role, fn, args));
    case SetState(e, to) => if e < |w.ds| { SetStateGrows(w, e, to); }
    case DisableList(e, r) => if e < |w.ds| { ApplyGrows(w, e, r, Disable); }
    case LockList(e, r) => if e < |w.ds| { ApplyGrows(w, e, r, Lock); }
    case FireList(e, r) =>
      if e == MASTER && r == Fail { RejectGrows(w, args); }
      else if e < |w.ds| { ApplyGrows(w, e, r, Fire(args)); }
    case CountDown(t) => CountGrows(w, t, args);
  }

  lemma TurnGrows(w: World, d: nat, role: Role)
    requires AllOk(w) && d < |w.ds|
    ensures WorldGrows(w, SetList(w, d, role, Step(Get(w.ds[d], role), Turn)))
  {
    hide Step, Ok, DeferredGrows;
    MoveGrows(w, d, role, Turn);
  }

  /** The lists that a deferred disables are those of settling. */
  lemma NextShuts(d: nat, role: Role, l: List)
    requires LocalInv(d, role, l) && l.firing && Calls(l)
    ensures l.log.started != [] && (NextCall(l).fn.DisableList? ==> Settles(NextCall(l).fn.role))
  {
    var j := l.items[l.index + 1].serial;
    assert Permitted(d, role, j, l.log.added[j]);
  }

  lemma FiringGrows(w: World, d: nat, role: Role)
    requires AllOk(w) && MASTER < |w.ds| && d < |w.ds| && w.stack != [] && LocalInv(d, role, Get(w.ds[d], role))
    ensures WorldGrows(w, FiringStep(w, d, role))
  {
    hide Invoke, Step, WorldGrows;
    var l := Get(w.ds[d], role);
    StepGrows(l, Turn);
    StepOk(l, Turn);
    var w' := SetList(w, d, role, Step(l, Turn));
    TurnGrows(w, d, role);
    GetSet(w.ds[d], role, Step(l, Turn));
    if Calls(l) {
      NextShuts(d, role, l);
      InvokeGrows(w', d, role, NextCall(l).fn, NextCall(l).args);
      GrowsOn(w, w', FiringStep(w, d, role));
    } else {
      SameDeferreds(w', FiringStep(w, d, role));
      GrowsOn(w, w', FiringStep(w, d, role));
    }
  }

  lemma ReplacedAddGrows(w: World, f: Frame, d: nat, role: Role, fns: seq<Fn>)
    requires AllOk(w) && d < |w.ds| && w.stack != []
    ensures WorldGrows(w, Apply(Replace(w, f), d, role, Add(fns)))
  {
    hide Apply;
    SameDeferreds(w, Replace(w, f));
    ApplyGrows(Replace(w, f), d, role, Add(fns));
    GrowsOn(w, Replace(w, f), Apply(Replace(w, f), d, role, Add(fns)));
  }

  lemma GatherGrows(w: World)
    requires AllOk(w) && MASTER < |w.ds| && w.stack != []
    ensures WorldGrows(w, GatherStep(w)) && WorldGrows(w, GatherFailStep(w))
  {
    hide Apply, Count, WorldGrows;
    SameDeferreds(w, Pop(w));
    if w.when.Some? {
      var v := w.when.value;
      if 0 < v.t <= |v.inputs| {
        var w' := w.(when := Some(v.(t := v.t - 1)));
        SameDeferreds(w, w');
        match v.inputs[v.t - 1]
        case Plain(x) =>
          CountGrows(w', v.t - 1, Args(Undefined, [x]));
          GrowsOn(w, w', GatherStep(w));
        case Promise(d) =>
          if d < |w.ds| {
            ReplacedAddGrows(w', GatheringFail, d, Done, [CountDown(v.t - 1)]);
            GrowsOn(w, w', GatherStep(w));
          }
      }
      if v.t < |v.inputs| && v.inputs[v.t].Promise? && v.inputs[v.t].d < |w.ds| {
        ReplacedAddGrows(w, Gathering, v.inputs[v.t].d, Fail, [FireList(MASTER, Fail)]);
      }
    }
  }

  lemma ListLocal(w: World, d: nat, role: Role)
    requires AllDeferreds(w) && d < |w.ds|
    ensures LocalInv(d, role, Get(w.ds[d], role))
  {
    assert DeferredInv(w.ds[d], d);
  }

  lemma EventGrows(w: World, e: Event)
    requires AllDeferreds(w)
    ensures AllOk(w) && WorldGrows(w, WorldStep(w, e))
  {
    hide Apply, FiringStep, GatherStep, GatherFailStep, WorldGrows, DeferredInv, LocalInv;
    InvOk(w);
    SameDeferreds(w, w);
    match e
    case Internal =>
      if w.stack != [] {
        match w.stack[|w.stack| - 1]
        case Firing(d, role) =>
          if d < |w.ds| {
            ListLocal(w, d, role);
            FiringGrows(w, d, role);
          }
        case Calling(_, _) =>
        case Gathering => GatherGrows(w);
        case GatheringFail => GatherGrows(w);
      }
    case ApiAdd(d, role, ids) => if d < |w.ds| { ApplyGrows(w, d, role, Add(UserFns(ids))); }
    case ApiFire(d, role, args) => if d < |w.ds| { ApplyGrows(w, d, role, Fire(args)); }
    case ApiReturn => SameDeferreds(w, WorldStep(w, e));
    case ApiWhen(_) => SameDeferreds(w, WorldStep(w, e));
  }

  /** A run only adds to what its beginning has done. */
  lemma {:induction false} RunGrows(run: Run, n: nat, i: nat, j: nat)
    requires IsRun(run, n) && i <= j < |run.states|
    ensures WorldGrows(run.states[i], run.states[j])
    decreases j
  {
    hide WorldGrows, WorldStep, NewWorld, AllOk, DeferredInv, StackInv, HeadOnTop;
    if i == j {
      RunKeeps(run, n, i);
      InvOk(run.states[i]);
      SameDeferreds(run.states[i], run.states[i]);
    } else {
      RunGrows(run, n, i, j - 1);
      var k := j - 1;
      RunKeeps(run, n, k);
      assert Steps(run.states[k], run.events[k], run.states[k + 1]);
      EventGrows(run.states[j - 1], run.events[j - 1]);
      GrowsOn(run.states[i], run.states[j - 1], run.states[j]);
    }
  }
}
