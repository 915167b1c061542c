/** The laws of `k.Deferred`, over all runs of any number of deferreds (section 2.1 of Promises/A+). */
module DeferredLaws {
  import opened Values
  import opened CallbackList
  import opened CallbackRuns
  import opened Deferreds
  import opened DeferredRuns
  import opened DeferredWorld

  lemma RunDeferred(run: Run, n: nat, i: nat, d: nat)
    requires IsRun(run, n) && i < |run.states| && d < |run.states[i].ds|
    ensures DeferredInv(run.states[i].ds[d], d) && StackInv(run.states[i]) && HeadOnTop(run.states[i])
  {
    hide DeferredInv, StackInv, HeadOnTop, IsRun;
    RunKeeps(run, n, i);
  }

  /** The state leaves "pending" at most once and never changes again. */
  lemma SettlesAtMostOnce(run: Run, n: nat, i: nat, j: nat, d: nat)
    requires IsRun(run, n) && i <= j < |run.states| && d < |run.states[i].ds| && d < |run.states[j].ds|
    ensures |run.states[j].ds[d].history| <= 1
    ensures run.states[i].ds[d].history <= run.states[j].ds[d].history
  {
    hide IsRun, LocalInv, StackInv;
    RunDeferred(run, n, j, d);
    RunGrows(run, n, i, j);
    assert DeferredGrows(run.states[i].ds[d], run.states[j].ds[d]);
  }

  lemma CalledOneSide(v: Views, s: Settled)
    requires Wired(v) && (GetView(v, First(s)).calls > 0 || GetView(v, Second(s)).calls > 0)
    ensures GetView(v, First(Other(s))).calls == 0 && GetView(v, Second(Other(s))).calls == 0
  {
  }

  lemma OneSideCalled(x: Deferred, d: nat, s: Settled)
    requires DeferredInv(x, d)
    ensures Get(x, First(s)).log.calls != [] || Get(x, Second(s)).log.calls != [] ==>
      Get(x, First(Other(s))).log.calls == [] && Get(x, Second(Other(s))).log.calls == []
  {
    hide LocalInv, Wired;
    Shows(x, First(s));
    Shows(x, Second(s));
    Shows(x, First(Other(s)));
    Shows(x, Second(Other(s)));
    if Get(x, First(s)).log.calls != [] || Get(x, Second(s)).log.calls != [] { CalledOneSide(ViewsOf(x), s); }
  }

  /** If any done-callback has ever been called, no fail-callback has, and the other way round. */
  lemma NeverBoth(run: Run, n: nat, i: nat, d: nat, s: Settled)
    requires IsRun(run, n) && i < |run.states| && d < |run.states[i].ds|
    ensures var x := run.states[i].ds[d];
      Get(x, First(s)).log.calls != [] || Get(x, Second(s)).log.calls != [] ==>
        Get(x, First(Other(s))).log.calls == [] && Get(x, Second(Other(s))).log.calls == []
  {
    hide DeferredInv, IsRun, StackInv;
    RunDeferred(run, n, i, d);
    OneSideCalled(run.states[i].ds[d], d, s);
  }

  lemma AtRestNotFiring(w: World, d: nat, role: Role)
    requires StackInv(w) && w.stack == [] && d < |w.ds|
    ensures !Get(w.ds[d], role).firing
  {
    assert Firing(d, role) !in w.stack;
  }

  /** Every function ever added has been called exactly once, in order of addition, with `args`. */
  ghost predicate CalledAll(l: List, args: Args) {
    && |l.log.calls| == |l.log.added|
    && forall j :: 0 <= j < |l.log.calls| ==> l.log.calls[j].fn == l.log.added[j] && l.log.calls[j].args == args
  }

  /** What "settled as `s` with `args`" means once no code is running. */
  ghost predicate SettledThrough(x: Deferred, s: Settled, args: Args) {
    && x.history == [s]
    && (forall role :: role == First(s) || role == Second(s) ==> CalledAll(Get(x, role), args))
    && (forall role :: role == First(Other(s)) || role == Second(Other(s)) ==>
      !Get(x, role).enabled && Get(x, role).log.calls == [])
    && x.progress.locked && x.progress2.locked
  }

  predicate ShutUncalled(l: List) { !l.enabled && l.log.calls == [] }

  /** Resolving is for the callbacks of `.done` and the first of `.then`, rejecting for the others. */
  lemma SettledSpelledOut(x: Deferred, args: Args)
    ensures SettledThrough(x, Resolved, args) <==>
      && x.history == [Resolved] && CalledAll(x.done, args) && CalledAll(x.done2, args)
      && ShutUncalled(x.fail) && ShutUncalled(x.fail2) && x.progress.locked && x.progress2.locked
    ensures SettledThrough(x, Rejected, args) <==>
      && x.history == [Rejected] && CalledAll(x.fail, args) && CalledAll(x.fail2, args)
      && ShutUncalled(x.done) && ShutUncalled(x.done2) && x.progress.locked && x.progress2.locked
  {
    hide CalledAll;
    assert Get(x, Done) == x.done && Get(x, Done2) == x.done2 && Get(x, Fail) == x.fail && Get(x, Fail2) == x.fail2;
  }

  lemma FiredCallsAll(l: List)
    requires Inv(l) && SettlingList(l) && l.fired && !l.firing
    ensures l.log.started != [] && CalledAll(l, l.log.started[0])
  {
  }

  lemma SettledViews(v: Views, s: Settled)
    requires Wired(v) && GetView(v, First(s)).fired && !SettlingView(v, s)
    ensures v.history == [s] && v.locked && v.locked2
    ensures GetView(v, Second(s)).fired && GetView(v, Second(s)).first == GetView(v, First(s)).first
    ensures !GetView(v, First(Other(s))).enabled && GetView(v, First(Other(s))).calls == 0
    ensures !GetView(v, Second(Other(s))).enabled && GetView(v, Second(Other(s))).calls == 0
  {
  }

  lemma ShutNeverCalled(x: Deferred, s: Settled)
    requires !GetView(ViewsOf(x), First(Other(s))).enabled && GetView(ViewsOf(x), First(Other(s))).calls == 0
    requires !GetView(ViewsOf(x), Second(Other(s))).enabled && GetView(ViewsOf(x), Second(Other(s))).calls == 0
    ensures forall role :: role == First(Other(s)) || role == Second(Other(s)) ==>
      !Get(x, role).enabled && Get(x, role).log.calls == []
  {
    SetShows(x, First(Other(s)), Get(x, First(Other(s))));
    SetShows(x, Second(Other(s)), Get(x, Second(Other(s))));
  }

  lemma AtRestSettled(w: World, d: nat, s: Settled)
    requires StackInv(w) && HeadOnTop(w) && w.stack == [] && d < |w.ds| && DeferredInv(w.ds[d], d)
    requires Get(w.ds[d], First(s)).fired
    ensures var l := Get(w.ds[d], First(s)); l.log.started != [] && SettledThrough(w.ds[d], s, l.log.started[0])
  {
    hide StackInv, Inv, SettlingList;
    var x := w.ds[d];
    assert !Settling(x, s);
    AtRestNotFiring(w, d, First(s));
    AtRestNotFiring(w, d, Second(s));
    assert LocalInv(d, First(s), Get(x, First(s))) && LocalInv(d, Second(s), Get(x, Second(s)));
    SetShows(x, First(s), Get(x, First(s)));
    SetShows(x, Second(s), Get(x, Second(s)));
    SettledViews(ViewsOf(x), s);
    FiredCallsAll(Get(x, First(s)));
    FiredCallsAll(Get(x, Second(s)));
    ShutNeverCalled(x, s);
  }

  /**
   Once no code is running, a deferred is pending with both settling lists unfired and open, or is settled
   through and through: every callback of its side called once with the settling arguments, the other side
   shut and never called, progress locked.
   */
  lemma AtRestPendingOrSettled(run: Run, n: nat, i: nat, d: nat)
    requires IsRun(run, n) && i < |run.states| && d < |run.states[i].ds| && run.states[i].stack == []
    ensures var x := run.states[i].ds[d];
      || (x.history == [] && !x.done.fired && !x.fail.fired && x.done.enabled && x.fail.enabled)
      || (exists s ::
        Get(x, First(s)).fired && Get(x, First(s)).log.started != []
        && SettledThrough(x, s, Get(x, First(s)).log.started[0]))
  {
    hide IsRun, LocalInv, StackInv, HeadOnTop, SettledThrough;
    RunDeferred(run, n, i, d);
    var x := run.states[i].ds[d];
    if x.done.fired { AtRestSettled(run.states[i], d, Resolved); }
    else if x.fail.fired { AtRestSettled(run.states[i], d, Rejected); }
  }

  lemma PendingIsOpen(v: Views, s: Settled)
    requires Wired(v) && v.history == [] && !SettlingView(v, s)
    ensures GetView(v, First(s)).enabled && !GetView(v, First(s)).fired
  {
  }

  lemma OpenFires(l: List, args: Args)
    requires Inv(l) && SettlingList(l) && l.enabled && !l.fired
    ensures DoFire(l, args).fired && DoFire(l, args).log.started == [args]
  {
  }

  lemma PendingFires(x: Deferred, d: nat, s: Settled, args: Args)
    requires DeferredInv(x, d) && x.history == [] && !Settling(x, s)
    ensures var l := DoFire(Get(x, First(s)), args); l.fired && l.log.started == [args]
  {
    hide Inv, SettlingList, Wired, DoFire;
    assert LocalInv(d, First(s), Get(x, First(s)));
    SetShows(x, First(s), Get(x, First(s)));
    PendingIsOpen(ViewsOf(x), s);
    OpenFires(Get(x, First(s)), args);
  }

  lemma FireTakesEffect(w: World, d: nat, s: Settled, args: Args)
    requires WorldInv(w) && MASTER < d < |w.ds| && UserRuns(w) && w.ds[d].history == []
    ensures AllOk(w)
    ensures d < |WorldStep(w, ApiFire(d, First(s), args)).ds|
    ensures var l := Get(WorldStep(w, ApiFire(d, First(s), args)).ds[d], First(s));
      l.fired && l.log.started == [args]
  {
    hide StackInv, Inv, SettlingList, Wired, DoFire, DeferredInv;
    InvOk(w);
    QuietUnlessFiring(w);
    assert !Settling(w.ds[d], s);
    PendingFires(w.ds[d], d, s, args);
    GetSet(w.ds[d], First(s), DoFire(Get(w.ds[d], First(s)), args));
  }

  /**
   The first `resolve` or `reject` that user code calls on a pending deferred decides: at any later time when
   no code is running, the deferred is settled that way with those arguments.
   */
  lemma FirstSettlementDecides(run: Run, n: nat, i: nat, s: Settled, args: Args, j: nat, d: nat)
    requires IsRun(run, n) && i < j < |run.states| && run.states[j].stack == []
    requires MASTER < d < |run.states[i].ds| && d < |run.states[j].ds|
    requires UserRuns(run.states[i]) && run.states[i].ds[d].history == [] && run.events[i] == ApiFire(d, First(s), args)
    ensures SettledThrough(run.states[j].ds[d], s, args)
  {
    hide DeferredInv, StackInv, HeadOnTop, SettledThrough, WorldStep, NewWorld;
    RunDeferred(run, n, i, d);
    RunDeferred(run, n, j, d);
    RunKeeps(run, n, i);
    assert Steps(run.states[i], run.events[i], run.states[i + 1]);
    FireTakesEffect(run.states[i], d, s, args);
    RunGrows(run, n, i + 1, j);
    assert DeferredGrows(run.states[i + 1].ds[d], run.states[j].ds[d]);
    assert Grows(Get(run.states[i + 1].ds[d], First(s)), Get(run.states[j].ds[d], First(s)));
    AtRestSettled(run.states[j], d, s);
  }

  /** No list is ever in two passes at once, however deep callbacks nest. */
  lemma PassesNeverNest(run: Run, n: nat, k: nat, i: nat, j: nat)
    requires IsRun(run, n) && k < |run.states|
    requires i < j < |run.states[k].stack| && run.states[k].stack[i].Firing?
    ensures run.states[k].stack[i] != run.states[k].stack[j]
  {
    hide IsRun, AllDeferreds;
    RunKeeps(run, n, k);
  }
}
