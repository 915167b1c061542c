/**
 What user code gets from a deferred: its callbacks are called, whenever it adds them (Mypintool/doc/html/jquery.js,
 line 2).
 */
module DeferredCalls {
  import opened Optional
  import opened Values
  import opened CallbackList
  import opened CallbackRuns
  import opened CallbackLate
  import opened Deferreds
  import opened DeferredRuns
  import opened DeferredWorld
  import opened DeferredLaws

  // ----- every list is a callback list -----

  function OptionsOf(role: Role): Options { if Settles(role) then ONCE_MEMORY else REPEAT_MEMORY }

  lemma NewListEvolves(d: nat, role: Role)
    ensures Evolves(New(OptionsOf(role)), Get(NewDeferred(d), role), true)
  {
    hide DoAdd, New, Ok;
    var l := New(OptionsOf(role));
    NewListOk(OptionsOf(role));
    EvolvesNot(l, true);
    match role
    case Progress => EvolvesBy(l, Add([FireList(d, Progress2)]), true);
    case Done => EvolvesBy(l, Add(Head(d, Resolved)), true);
    case Fail => EvolvesBy(l, Add(Head(d, Rejected)), true);
    case _ =>
  }

  lemma ShutsMore(l: List, r: List, shuts: bool)
    requires Evolves(l, r, shuts)
    ensures Evolves(l, r, true)
  {
    var moves :| r == CallbackRuns.Run(l, moves) && forall m :: m in moves ==> Keeps(m) || (shuts && m.Disable?);
  }

  /** The history of every list in every run of deferreds is a run of one callback list: all its laws hold of it. */
  lemma ListsAreRuns(run: Run, n: nat, i: nat, d: nat, role: Role)
    requires IsRun(run, n) && i < |run.states| && d < |run.states[i].ds|
    ensures Evolves(New(OptionsOf(role)), Get(run.states[i].ds[d], role), true)
  {
    hide WorldStep, NewDeferred, Evolves, Grows;
    RunGrows(run, n, 0, i);
    NewListEvolves(d, role);
    var first := NewWorld(n).ds[d];
    assert DeferredGrows(first, run.states[i].ds[d]);
    ShutsMore(Get(first, role), Get(run.states[i].ds[d], role), Settles(role));
    EvolvesOn(New(OptionsOf(role)), Get(first, role), Get(run.states[i].ds[d], role), true);
  }

  // ----- callbacks of settling -----

  lemma NotUnique(d: nat, role: Role, l: List)
    requires LocalInv(d, role, l)
    ensures Ok(l) && !l.opts.unique && l.opts.memory && !l.opts.stopOnFalse
  {
  }

  /** `.done`, `.fail` and `.then` on an open list take everything. */
  lemma AddTakes(w: World, d: nat, role: Role, ids: seq<nat>)
    requires WorldInv(w) && UserRuns(w) && d < |w.ds| && (d != MASTER || w.when.Some?) && Get(w.ds[d], role).enabled
    ensures AllOk(w) && d < |WorldStep(w, ApiAdd(d, role, ids)).ds|
    ensures Get(WorldStep(w, ApiAdd(d, role, ids)).ds[d], role).log.added == Get(w.ds[d], role).log.added + UserFns(ids)
  {
    hide DeferredInv, StackInv, HeadOnTop, LocalInv, DoAdd;
    InvOk(w);
    var l := Get(w.ds[d], role);
    ListLocal(w, d, role);
    NotUnique(d, role, l);
    AddAppends(l, UserFns(ids));
    assert Ok(Get(w.ds[d], role));
    GetSet(w.ds[d], role, DoAdd(l, UserFns(ids)));
    var r := DoAdd(l, UserFns(ids));
    assert r.log.added == l.log.added + r.log.added[|l.log.added|..];
  }

  /** What `.done`, `.fail`, `.progress` and `.then` add to an open list stays added, in order. */
  lemma AddedStays(run: Run, n: nat, h: nat, i: nat, d: nat, role: Role, ids: seq<nat>)
    requires IsRun(run, n) && h < i < |run.states| && UserRuns(run.states[h]) && d < |run.states[h].ds|
    requires (d != MASTER || run.states[h].when.Some?) && Get(run.states[h].ds[d], role).enabled
    requires run.events[h] == ApiAdd(d, role, ids) && d < |run.states[i].ds|
    ensures var base, added := |Get(run.states[h].ds[d], role).log.added|, Get(run.states[i].ds[d], role).log.added;
      base + |ids| <= |added| && forall m :: 0 <= m < |ids| ==> added[base + m] == User(ids[m])
  {
    hide WorldStep, NewWorld, DeferredInv, StackInv, HeadOnTop, Evolves;
    RunKeeps(run, n, h);
    assert Steps(run.states[h], run.events[h], run.states[h + 1]);
    AddTakes(run.states[h], d, role, ids);
    RunGrows(run, n, h + 1, i);
    assert DeferredGrows(run.states[h + 1].ds[d], run.states[i].ds[d]);
    var base := Get(run.states[h].ds[d], role).log.added;
    var added := Get(run.states[i].ds[d], role).log.added;
    assert base + UserFns(ids) <= added;
    forall m | 0 <= m < |ids| ensures added[|base| + m] == User(ids[m]) {
      assert (base + UserFns(ids))[|base| + m] == UserFns(ids)[m];
    }
  }

  lemma SettledIsOpen(x: Deferred, d: nat, s: Settled, role: Role)
    requires DeferredInv(x, d) && (role == First(s) || role == Second(s)) && Get(x, role).fired
    ensures Get(x, role).enabled
  {
    assert LocalInv(d, role, Get(x, role));
  }

  lemma HistoryFired(v: Views, s: Settled)
    requires Wired(v) && v.history == [s]
    ensures GetView(v, First(s)).fired
  {
    assert HistoryOf(v)[0] == s;
  }

  lemma DeferredAt(w: World, d: nat)
    requires WorldInv(w) && d < |w.ds|
    ensures DeferredInv(w.ds[d], d)
  {
    hide DeferredInv;
  }

  lemma HistoryIsFired(x: Deferred, d: nat, s: Settled)
    requires DeferredInv(x, d) && x.history == [s]
    ensures Get(x, First(s)).fired
  {
    hide LocalInv, Wired;
    Shows(x, First(s));
    HistoryFired(ViewsOf(x), s);
  }

  lemma CalledThrough(x: Deferred, s: Settled, role: Role, a: Args)
    requires SettledThrough(x, s, a) && (role == First(s) || role == Second(s))
    ensures CalledAll(Get(x, role), a)
  {
  }

  lemma SettledFired(x: Deferred, d: nat, s: Settled, role: Role)
    requires DeferredInv(x, d) && Get(x, First(s)).fired && x.history == [s] && (role == First(s) || role == Second(s))
    requires !Settling(x, s)
    ensures Get(x, role).fired
  {
    hide LocalInv;
    Shows(x, First(s));
    Shows(x, Second(s));
  }

  lemma CallsBehind(w: World, d: nat, role: Role)
    requires WorldInv(w) && d < |w.ds| && Settles(role)
    ensures |Get(w.ds[d], role).log.calls| <= |Get(w.ds[d], role).log.added|
  {
    hide DeferredInv, StackInv, HeadOnTop;
    ListLocal(w, d, role);
  }

  lemma SettledAtRest(w: World, d: nat, s: Settled, role: Role)
    requires WorldInv(w) && w.stack == [] && d < |w.ds| && w.ds[d].history == [s]
    requires role == First(s) || role == Second(s)
    ensures Get(w.ds[d], First(s)).log.started != [] && Get(w.ds[d], role).enabled
    ensures SettledThrough(w.ds[d], s, Get(w.ds[d], First(s)).log.started[0])
    ensures CalledAll(Get(w.ds[d], role), Get(w.ds[d], First(s)).log.started[0])
  {
    hide DeferredInv, StackInv, HeadOnTop, SettledThrough, CalledAll;
    var x := w.ds[d];
    DeferredAt(w, d);
    HistoryIsFired(x, d, s);
    AtRestSettled(w, d, s);
    QuietUnlessFiring(w);
    assert !Settling(x, s);
    CalledThrough(x, s, role, Get(x, First(s)).log.started[0]);
    SettledFired(x, d, s, role);
    SettledIsOpen(x, d, s, role);
  }

  /**
   Whatever user code adds to a deferred is called once the deferred has been settled that way: with the arguments of
   the settlement, in the order given, and not before it was added. This holds for callbacks added before, during and
   after the settlement, to the first list (`.done`, `.fail`) and to the second (`.then`).
   */
  lemma AddedIsCalled(run: Run, n: nat, i: nat, d: nat, s: Settled, role: Role, ids: seq<nat>, j: nat) returns (k: nat)
    requires IsRun(run, n) && i < j < |run.states| && run.states[j].stack == []
    requires UserRuns(run.states[i]) && d < |run.states[i].ds| && (d != MASTER || run.states[i].when.Some?)
    requires if s == Resolved then role == Done || role == Done2 else role == Fail || role == Fail2
    requires run.events[i] == ApiAdd(d, role, ids) && d < |run.states[j].ds| && run.states[j].ds[d].history == [s]
    ensures var before, l := Get(run.states[i].ds[d], role), Get(run.states[j].ds[d], role);
      && Get(run.states[j].ds[d], First(s)).log.started != [] && |before.log.calls| <= k && k + |ids| <= |l.log.calls|
      && SettledThrough(run.states[j].ds[d], s, Get(run.states[j].ds[d], First(s)).log.started[0])
      && forall m :: 0 <= m < |ids| ==>
        && l.log.calls[k + m].fn == User(ids[m])
        && l.log.calls[k + m].args == Get(run.states[j].ds[d], First(s)).log.started[0]
  {
    hide WorldStep, NewWorld, WorldInv, Evolves, SettledThrough, LocalInv, UserRuns;
    RunKeeps(run, n, i);
    RunKeeps(run, n, j);
    var w, x := run.states[i], run.states[j].ds[d];
    SettledAtRest(run.states[j], d, s, role);
    RunGrows(run, n, i, j);
    assert DeferredGrows(w.ds[d], x);
    assert Grows(Get(w.ds[d], role), Get(x, role));
    AddedStays(run, n, i, j, d, role, ids);
    k := |Get(w.ds[d], role).log.added|;
    CallsBehind(w, d, role);
  }

  // ----- progress -----

  /** A list that nothing has shut holds everything ever added to it, in order. */
  predicate HoldsAll(l: List) { !l.locked ==> l.enabled && l.items == EntriesFrom(l.log.added, 0) }

  lemma HoldsAllStep(l: List, m: Move)
    requires Ok(l) && Keeps(m) && !l.opts.once && HoldsAll(l)
    ensures HoldsAll(Step(l, m)) && Step(l, m).opts == l.opts
  {
    match m
    case Add(fns) =>
      AddPasses(l, fns);
      AddFrame(l, fns);
      if l.enabled {
        AddAppends(l, fns);
        var r := DoAdd(l, fns);
        assert EntriesFrom(l.log.added, 0) + EntriesFrom(r.log.added, |l.log.added|) == EntriesFrom(r.log.added, 0);
      }
    case _ =>
  }

  lemma {:induction false} HoldsAllRun(l: List, moves: seq<Move>)
    requires Ok(l) && !l.opts.once && HoldsAll(l) && forall m :: m in moves ==> Keeps(m)
    ensures HoldsAll(CallbackRuns.Run(l, moves)) && CallbackRuns.Run(l, moves).opts == l.opts
    decreases |moves|
  {
    if moves != [] {
      hide HoldsAll, Step, Ok;
      var k := |moves| - 1;
      HoldsAllRun(l, moves[..k]);
      assert moves[k] in moves;
      RunLast(l, moves);
      HoldsAllStep(CallbackRuns.Run(l, moves[..k]), moves[k]);
    }
  }

  lemma NewHoldsAll(d: nat, role: Role)
    requires !Settles(role)
    ensures HoldsAll(Get(NewDeferred(d), role)) && !Get(NewDeferred(d), role).opts.once && Ok(Get(NewDeferred(d), role))
  {
    var l := New(REPEAT_MEMORY);
    assert EntriesFrom(l.log.added, 0) == [];
    HoldsAllStep(l, Add([FireList(d, Progress2)]));
    StepOk(l, Add([FireList(d, Progress2)]));
  }

  /** The progress lists of a deferred, in every run. */
  lemma ProgressHoldsAll(run: Run, n: nat, i: nat, d: nat, role: Role)
    requires IsRun(run, n) && i < |run.states| && d < |run.states[i].ds| && !Settles(role)
    ensures HoldsAll(Get(run.states[i].ds[d], role))
  {
    hide WorldStep, NewDeferred, Grows, HoldsAll, Ok;
    RunGrows(run, n, 0, i);
    var l, r := Get(NewWorld(n).ds[d], role), Get(run.states[i].ds[d], role);
    assert DeferredGrows(NewWorld(n).ds[d], run.states[i].ds[d]);
    NewHoldsAll(d, role);
    assert Evolves(l, r, false);
    var moves :| r == CallbackRuns.Run(l, moves) && forall m :: m in moves ==> Keeps(m) || (false && m.Disable?);
    HoldsAllRun(l, moves);
  }

  lemma PendingUnlocked(v: Views)
    requires Wired(v) && v.history == []
    ensures !v.locked && !v.locked2
  {
  }

  /** While a deferred is pending its progress lists are open. */
  lemma PendingProgress(w: World, d: nat)
    requires WorldInv(w) && d < |w.ds| && w.ds[d].history == []
    ensures !w.ds[d].progress.locked && !w.ds[d].progress2.locked
  {
    hide LocalInv, StackInv, HeadOnTop, Wired;
    DeferredAt(w, d);
    PendingUnlocked(ViewsOf(w.ds[d]));
  }

  /** Each function added before is owed a call with `a` in pass `pass`, which has begun. */
  ghost predicate AllOwed(l: List, n: nat, pass: nat, a: Args) {
    && pass < |l.log.started| && l.log.started[pass] == a
    && forall k: nat :: k < n ==> Owed(l, k, pass)
  }

  lemma FireOwesAll(l: List, a: Args)
    requires Ok(l) && HoldsAll(l) && !l.locked && !l.firing
    ensures AllOwed(DoFire(l, a), |l.log.added|, |l.log.started|, a)
  {
    hide Owed;
    forall k: nat | k < |l.log.added| ensures Owed(DoFire(l, a), k, |l.log.started|) {
      FireOwes(l, a, k);
    }
    assert DoFire(l, a).log.started == l.log.started + [a];
  }

  lemma AllOwedOn(l: List, r: List, n: nat, pass: nat, a: Args)
    requires AllOwed(l, n, pass, a) && Evolves(l, r, false) && Grows(l, r)
    ensures AllOwed(r, n, pass, a)
  {
    hide Owed, Ok;
    var moves :| r == CallbackRuns.Run(l, moves) && forall m :: m in moves ==> Keeps(m) || (false && m.Disable?);
    forall k: nat | k < n ensures Owed(r, k, pass) { OwedRun(l, moves, k, pass); }
  }

  /** `notify` by user code begins a pass over the first progress list. */
  lemma NotifyBegins(w: World, d: nat, a: Args)
    requires WorldInv(w) && UserRuns(w) && MASTER < d < |w.ds| && w.ds[d].history == []
    requires !w.ds[d].progress.firing && HoldsAll(w.ds[d].progress)
    ensures AllOk(w)
    ensures var r, l := WorldStep(w, ApiFire(d, Progress, a)), w.ds[d].progress;
      && d < |r.ds| && Top(r) == Some(Firing(d, Progress)) && r.ds[d].progress2 == w.ds[d].progress2
      && r.ds[d].progress == DoFire(l, a) && AllOwed(r.ds[d].progress, |l.log.added|, |l.log.started|, a)
  {
    hide DeferredInv, StackInv, HeadOnTop, HoldsAll, AllOwed;
    InvOk(w);
    PendingProgress(w, d);
    assert Ok(Get(w.ds[d], Progress));
    FireOwesAll(w.ds[d].progress, a);
    GetSet(w.ds[d], Progress, DoFire(w.ds[d].progress, a));
  }

  lemma FirstOfProgress(d: nat, l: List, a: Args)
    requires LocalInv(d, Progress, l) && HoldsAll(l) && !l.locked && !l.firing
    ensures var r := DoFire(l, a);
      Calls(r) && r.log.started != [] && NextCall(r).fn == FireList(d, Progress2) && NextCall(r).args == a
  {
    assert Permitted(d, Progress, 0, l.log.added[0]);
  }

  /** The first turn of that pass fires the second progress list with the same arguments. */
  lemma NotifyPassesOn(w: World, d: nat, l: List, a: Args)
    requires WorldInv(w) && d < |w.ds| && Top(w) == Some(Firing(d, Progress)) && w.ds[d].progress == DoFire(l, a)
    requires LocalInv(d, Progress, l) && HoldsAll(l) && !l.locked && !l.firing
    requires HoldsAll(w.ds[d].progress2) && !w.ds[d].progress2.locked && !w.ds[d].progress2.firing
    ensures AllOk(w) && MASTER < |w.ds|
    ensures var r, m := WorldStep(w, Internal), w.ds[d].progress2;
      d < |r.ds| && AllOwed(r.ds[d].progress2, |m.log.added|, |m.log.started|, a)
  {
    hide DeferredInv, StackInv, HeadOnTop, HoldsAll, AllOwed, LocalInv, DoFire, DoTurn;
    InvOk(w);
    FirstOfProgress(d, l, a);
    assert Ok(Get(w.ds[d], Progress)) && Ok(Get(w.ds[d], Progress2));
    FireOwesAll(w.ds[d].progress2, a);
    GetSet(w.ds[d], Progress, DoTurn(w.ds[d].progress));
    var x := Set(w.ds[d], Progress, DoTurn(w.ds[d].progress));
    GetSet(x, Progress2, DoFire(w.ds[d].progress2, a));
  }

  /** Nothing has happened yet, or the second list owes what the first does. */
  ghost predicate Notified(w1: World, w: World, d: nat, n: nat, pass: nat, a: Args) {
    d < |w.ds| && (w == w1 || AllOwed(w.ds[d].progress2, n, pass, a))
  }

  lemma PassOnNow(w: World, e: Event, d: nat, l: List, a: Args)
    requires WorldInv(w) && d < |w.ds| && Top(w) == Some(Firing(d, Progress)) && w.ds[d].progress == DoFire(l, a)
    requires HoldsAll(w.ds[d].progress2) && !w.ds[d].progress2.locked && !w.ds[d].progress2.firing
    requires LocalInv(d, Progress, l) && HoldsAll(l) && !l.locked && !l.firing
    ensures AllOk(w) && MASTER < |w.ds|
    ensures var m := w.ds[d].progress2;
      Notified(w, WorldStep(w, e), d, |m.log.added|, |m.log.started|, a)
  {
    hide DeferredInv, StackInv, HeadOnTop, HoldsAll, AllOwed, LocalInv, DoFire, FiringStep;
    NotifyPassesOn(w, d, l, a);
  }

  lemma {:induction false} NotifiedRun(run: Run, n: nat, i: nat, j: nat, d: nat, l: List, a: Args)
    requires IsRun(run, n) && i <= j < |run.states| && d < |run.states[i].ds|
    requires var w := run.states[i];
      && Top(w) == Some(Firing(d, Progress)) && w.ds[d].progress == DoFire(l, a)
      && HoldsAll(w.ds[d].progress2) && !w.ds[d].progress2.locked && !w.ds[d].progress2.firing
    requires LocalInv(d, Progress, l) && HoldsAll(l) && !l.locked && !l.firing
    ensures var m := run.states[i].ds[d].progress2;
      Notified(run.states[i], run.states[j], d, |m.log.added|, |m.log.started|, a)
    decreases j
  {
    hide WorldStep, NewWorld, WorldInv, AllOwed, Evolves, Grows, HoldsAll, LocalInv, DoFire;
    if i < j {
      var k := j - 1;
      NotifiedRun(run, n, i, k, d, l, a);
      RunKeeps(run, n, k);
      var w1, w, m := run.states[i], run.states[k], run.states[i].ds[d].progress2;
      assert Steps(run.states[k], run.events[k], run.states[k + 1]);
      RunGrows(run, n, k, j);
      if w == w1 {
        PassOnNow(w, run.events[k], d, l, a);
      } else {
        assert DeferredGrows(w.ds[d], run.states[j].ds[d]);
        AllOwedOn(w.ds[d].progress2, run.states[j].ds[d].progress2, |m.log.added|, |m.log.started|, a) by {
          assert Evolves(Get(w.ds[d], Progress2), Get(run.states[j].ds[d], Progress2), false);
          assert Grows(Get(w.ds[d], Progress2), Get(run.states[j].ds[d], Progress2));
        }
      }
    }
  }

  lemma OwedAreCalled(d: nat, role: Role, l: List, n: nat, pass: nat, a: Args)
    requires LocalInv(d, role, l) && !l.firing && AllOwed(l, n, pass, a)
    ensures forall k: nat :: k < n ==> CalledWith(l.log, k, pass, a)
  {
    hide Owed, CalledWith;
    forall k: nat | k < n ensures CalledWith(l.log, k, pass, a) { OwedIsPaid(l, k, pass); }
  }

  /**
   `notify` on a pending deferred calls every progress callback that was added before, those of `.progress` and those
   of `.then`, in one pass and with the arguments of the notification, whatever callbacks do meanwhile.
   */
  lemma NotifyIsCalled(run: Run, n: nat, i: nat, d: nat, a: Args, role: Role, k: nat, j: nat)
    requires IsRun(run, n) && i < j < |run.states| && run.states[j].stack == [] && UserRuns(run.states[i])
    requires MASTER < d < |run.states[i].ds| && d < |run.states[j].ds| && run.states[i].ds[d].history == []
    requires !run.states[i].ds[d].progress.firing && !run.states[i].ds[d].progress2.firing
    requires run.events[i] == ApiFire(d, Progress, a) && !Settles(role)
    requires k < |Get(run.states[i].ds[d], role).log.added|
    ensures CalledWith(Get(run.states[j].ds[d], role).log, k, |Get(run.states[i].ds[d], role).log.started|, a)
  {
    hide WorldStep, NewWorld, StackInv, HeadOnTop, Evolves, Grows, AllOwed, HoldsAll, CalledWith, LocalInv, DoFire;
    hide Wired;
    RunKeeps(run, n, i);
    RunKeeps(run, n, j);
    var w, w1, r := run.states[i], run.states[i + 1], run.states[j];
    ProgressHoldsAll(run, n, i, d, Progress);
    ProgressHoldsAll(run, n, i, d, Progress2);
    PendingProgress(w, d);
    assert Steps(w, run.events[i], w1);
    NotifyBegins(w, d, a);
    AtRestNotFiring(r, d, role);
    ListLocal(w, d, Progress);
    ListLocal(r, d, role);
    RunGrows(run, n, i + 1, j);
    assert DeferredGrows(w1.ds[d], r.ds[d]);
    var l := Get(w.ds[d], role);
    if role == Progress {
      assert Evolves(Get(w1.ds[d], Progress), Get(r.ds[d], Progress), false);
      assert Grows(Get(w1.ds[d], Progress), Get(r.ds[d], Progress));
      AllOwedOn(w1.ds[d].progress, r.ds[d].progress, |l.log.added|, |l.log.started|, a);
    } else {
      NotifiedRun(run, n, i + 1, j, d, w.ds[d].progress, a);
      assert w1.stack != [];
    }
    OwedAreCalled(d, role, Get(r.ds[d], role), |l.log.added|, |l.log.started|, a);
  }

  lemma PendingIsOpen(run: Run, n: nat, i: nat, d: nat, role: Role)
    requires IsRun(run, n) && i < |run.states| && d < |run.states[i].ds| && run.states[i].ds[d].history == []
    requires !Settles(role)
    ensures Get(run.states[i].ds[d], role).enabled && !Get(run.states[i].ds[d], role).locked
  {
    hide WorldStep, NewWorld, WorldInv;
    RunKeeps(run, n, i);
    PendingProgress(run.states[i], d);
    ProgressHoldsAll(run, n, i, d, role);
  }

  /** Addition `k`, of the function `fn`, has been called with `a` in pass `pass`. */
  ghost predicate CalledFn(g: Log, fn: Fn, k: nat, pass: nat, a: Args) {
    exists j :: 0 <= j < |g.calls| && g.calls[j] == Call(fn, k, a, pass)
  }

  lemma CalledAs(g: Log, fn: Fn, k: nat, pass: nat, a: Args)
    requires CalledWith(g, k, pass, a) && k < |g.added| && g.added[k] == fn
    ensures CalledFn(g, fn, k, pass, a)
  {
  }

  /**
   So the functions that user code adds to a pending deferred for its progress are called by any later `notify` on the
   deferred while it is pending.
   */
  lemma ProgressIsCalled(run: Run, n: nat, h: nat, i: nat, d: nat, role: Role, ids: seq<nat>, a: Args, j: nat)
    requires IsRun(run, n) && h < i < j < |run.states| && run.states[j].stack == []
    requires UserRuns(run.states[h]) && UserRuns(run.states[i]) && MASTER < d < |run.states[h].ds| && !Settles(role)
    requires d < |run.states[i].ds| && d < |run.states[j].ds| && run.states[i].ds[d].history == []
    requires !run.states[i].ds[d].progress.firing && !run.states[i].ds[d].progress2.firing
    requires run.events[h] == ApiAdd(d, role, ids) && run.events[i] == ApiFire(d, Progress, a)
    ensures var base, pass := |Get(run.states[h].ds[d], role).log.added|, |Get(run.states[i].ds[d], role).log.started|;
      forall m :: 0 <= m < |ids| ==> CalledFn(Get(run.states[j].ds[d], role).log, User(ids[m]), base + m, pass, a)
  {
    hide WorldStep, NewWorld, Evolves, CalledWith, UserRuns;
    RunGrows(run, n, h, i);
    assert DeferredGrows(run.states[h].ds[d], run.states[i].ds[d]);
    PendingIsOpen(run, n, h, d, role);
    AddedStays(run, n, h, i, d, role, ids);
    AddedStays(run, n, h, j, d, role, ids);
    var base, pass := |Get(run.states[h].ds[d], role).log.added|, |Get(run.states[i].ds[d], role).log.started|;
    forall m | 0 <= m < |ids|
      ensures CalledFn(Get(run.states[j].ds[d], role).log, User(ids[m]), base + m, pass, a)
    {
      NotifyIsCalled(run, n, i, d, a, role, base + m, j);
      CalledAs(Get(run.states[j].ds[d], role).log, User(ids[m]), base + m, pass, a);
    }
  }

  lemma AddedOnList(w: World, d: nat, role: Role, ids: seq<nat>)
    requires WorldInv(w) && UserRuns(w) && d < |w.ds| && (d != MASTER || w.when.Some?) && Ok(Get(w.ds[d], role))
    ensures AllOk(w) && d < |WorldStep(w, ApiAdd(d, role, ids)).ds|
    ensures Get(WorldStep(w, ApiAdd(d, role, ids)).ds[d], role) == DoAdd(Get(w.ds[d], role), UserFns(ids))
  {
    hide DeferredInv, StackInv, HeadOnTop, DoAdd;
    InvOk(w);
    GetSet(w.ds[d], role, DoAdd(Get(w.ds[d], role), UserFns(ids)));
  }

  lemma ProgressRecalls(run: Run, n: nat, i: nat, d: nat, role: Role)
    requires IsRun(run, n) && i < |run.states| && d < |run.states[i].ds| && !Settles(role)
    ensures Recalls(Get(run.states[i].ds[d], role))
  {
    hide WorldStep, NewWorld, Recalls, Ok;
    ListsAreRuns(run, n, i, d, role);
    var l := New(OptionsOf(role));
    var moves :| Get(run.states[i].ds[d], role) == CallbackRuns.Run(l, moves)
      && forall m :: m in moves ==> Keeps(m) || (true && m.Disable?);
    MemoryIsLastStarted(OptionsOf(role), moves);
  }

  lemma OwedStays(l: List, r: List, k: nat, pass: nat)
    requires Evolves(l, r, false) && Owed(l, k, pass)
    ensures Owed(r, k, pass)
  {
    hide Owed, Ok;
    var moves :| r == CallbackRuns.Run(l, moves) && forall m :: m in moves ==> Keeps(m) || (false && m.Disable?);
    OwedRun(l, moves, k, pass);
  }

  lemma PaidAs(d: nat, role: Role, l: List, r: List, k: nat, pass: nat)
    requires LocalInv(d, role, r) && !r.firing && Owed(r, k, pass) && Grows(l, r) && pass < |l.log.started|
    ensures CalledWith(r.log, k, pass, l.log.started[pass])
  {
    hide Owed, CalledWith;
    OwedIsPaid(r, k, pass);
  }

  /** And what is added to an open progress list after a notification is called with the arguments of the last one. */
  lemma LateProgressIsCalled(run: Run, n: nat, i: nat, d: nat, role: Role, ids: seq<nat>, m: nat, j: nat)
    requires IsRun(run, n) && i < j < |run.states| && run.states[j].stack == [] && UserRuns(run.states[i])
    requires d < |run.states[i].ds| && d < |run.states[j].ds| && (d != MASTER || run.states[i].when.Some?)
    requires var l := Get(run.states[i].ds[d], role);
      !Settles(role) && l.enabled && !l.firing && l.log.started != []
    requires run.events[i] == ApiAdd(d, role, ids) && m < |ids|
    ensures var l := Get(run.states[i].ds[d], role);
      CalledFn(Get(run.states[j].ds[d], role).log, User(ids[m]), |l.log.added| + m, |l.log.started|,
        l.log.started[|l.log.started| - 1])
  {
    hide WorldStep, NewWorld, DeferredInv, StackInv, HeadOnTop, Evolves, DoAdd, Recalls, Owed, LocalInv;
    hide CalledFn, CalledWith, Grows, Ok;
    RunKeeps(run, n, i);
    RunKeeps(run, n, j);
    var w, w1, l, r := run.states[i], run.states[i + 1], Get(run.states[i].ds[d], role), Get(run.states[j].ds[d], role);
    var k, pass := |l.log.added| + m, |l.log.started|;
    ListLocal(w, d, role);
    NotUnique(d, role, l);
    AddedOnList(w, d, role, ids);
    assert Steps(w, run.events[i], w1);
    AddTakes(w, d, role, ids);
    ProgressRecalls(run, n, i, d, role);
    LateAddOwes(l, UserFns(ids), k);
    RunGrows(run, n, i + 1, j);
    assert DeferredGrows(w1.ds[d], run.states[j].ds[d]);
    OwedStays(Get(w1.ds[d], role), r, k, pass);
    AtRestNotFiring(run.states[j], d, role);
    ListLocal(run.states[j], d, role);
    PaidAs(d, role, Get(w1.ds[d], role), r, k, pass);
    AddedStays(run, n, i, j, d, role, ids);
    CalledAs(r.log, User(ids[m]), k, pass, l.log.started[pass - 1]);
  }
}
