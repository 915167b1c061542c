/** What every run of deferreds keeps: each settles at most once, and one settlement shuts the other out. */
module DeferredRuns {
  import opened Optional
  import opened Values
  import opened CallbackList
  import opened CallbackRuns
  import opened Deferreds

  // ----- the invariant of one deferred: each list by itself -----

  /** Which functions can stand where in a list of deferred `d`. */
  predicate Permitted(d: nat, role: Role, j: nat, fn: Fn) {
    match role
    case Progress => if j == 0 then fn == FireList(d, Progress2) else fn.User?
    case Done => if j < 6 then fn == Head(d, Resolved)[j] else fn.User? || fn.CountDown?
    case Fail => if j < 6 then fn == Head(d, Rejected)[j] else fn.User? || fn == FireList(MASTER, Fail)
    case _ => fn.User?
  }

  predicate AddedOk(d: nat, role: Role, added: seq<Fn>) {
    && (role == Done || role == Fail ==> |added| >= 6)
    && (role == Progress ==> |added| >= 1)
    && forall j :: 0 <= j < |added| ==> Permitted(d, role, j, added[j])
  }

  /** A settling list follows the "once memory" law, or was disabled before it ever fired. */
  ghost predicate SettlingList(l: List) {
    if l.enabled then OnceMemoryInv(l)
    else l.opts == ONCE_MEMORY && !l.fired && !l.firing && l.log.calls == [] && l.log.started == []
  }

  predicate Settles(role: Role) { role != Progress && role != Progress2 }

  ghost predicate LocalInv(d: nat, role: Role, l: List) {
    && Inv(l)
    && AddedOk(d, role, l.log.added)
    && (if Settles(role) then SettlingList(l) else l.opts == REPEAT_MEMORY)
  }

  lemma ListOk(d: nat, role: Role, l: List)
    requires LocalInv(d, role, l)
    ensures Ok(l)
  {
  }

  // ----- and how far each has come decides about the others -----

  /** What the lists of a deferred know of one another. */
  datatype View = View(enabled: bool, locked: bool, fired: bool, calls: nat, first: Option<Args>)

  function ViewOf(l: List): View {
    View(l.enabled, l.locked, l.fired, |l.log.calls|, if l.log.started == [] then None else Some(l.log.started[0]))
  }

  predicate Plausible(v: View) {
    && v.fired == v.first.Some?
    && (v.calls > 0 ==> v.fired)
    && (if v.enabled then v.locked == v.fired else v.locked && !v.fired)
  }

  /** The six views, of which the progress lists show only whether they are locked. */
  datatype Views = Views(done: View, done2: View, fail: View, fail2: View, locked: bool, locked2: bool,
    history: seq<Settled>)

  function ViewsOf(x: Deferred): Views {
    Views(ViewOf(x.done), ViewOf(x.done2), ViewOf(x.fail), ViewOf(x.fail2), x.progress.locked, x.progress2.locked,
      x.history)
  }

  function GetView(v: Views, role: Role): View
    requires Settles(role)
  {
    match role
    case Done => v.done
    case Done2 => v.done2
    case Fail => v.fail
    case Fail2 => v.fail2
  }

  function SetView(v: Views, role: Role, view: View): Views {
    match role
    case Progress => v.(locked := view.locked)
    case Progress2 => v.(locked2 := view.locked)
    case Done => v.(done := view)
    case Done2 => v.(done2 := view)
    case Fail => v.(fail := view)
    case Fail2 => v.(fail2 := view)
  }

  lemma Shows(x: Deferred, role: Role)
    requires Settles(role)
    ensures GetView(ViewsOf(x), role) == ViewOf(Get(x, role))
  {
  }

  lemma SetShows(x: Deferred, role: Role, l: List)
    ensures ViewsOf(Set(x, role, l)) == SetView(ViewsOf(x), role, ViewOf(l))
    ensures Settles(role) ==> GetView(ViewsOf(x), role) == ViewOf(Get(x, role))
  {
  }

  /** How far the head of side `s` has run decides which lists of the other side are shut. */
  predicate Side(v: Views, s: Settled) {
    var n := GetView(v, First(s)).calls;
    && GetView(v, First(Other(s))).enabled == (n < 2)
    && GetView(v, Second(Other(s))).enabled == (n < 3)
    && (n >= 4 ==> v.locked)
    && (n >= 5 ==> v.locked2)
    && GetView(v, Second(s)).fired == (n >= 6)
    && (n >= 6 ==> GetView(v, Second(s)).first == GetView(v, First(s)).first)
  }

  function HistoryOf(v: Views): seq<Settled> {
    (if v.done.calls >= 1 then [Resolved] else []) + (if v.fail.calls >= 1 then [Rejected] else [])
  }

  predicate Wired(v: Views) {
    && Plausible(v.done) && Plausible(v.done2) && Plausible(v.fail) && Plausible(v.fail2)
    && Side(v, Resolved) && Side(v, Rejected)
    && !(v.done.fired && v.fail.fired)
    && (v.locked ==> v.done.calls >= 4 || v.fail.calls >= 4) && (v.locked2 ==> v.done.calls >= 5 || v.fail.calls >= 5)
    && v.history == HistoryOf(v)
  }

  ghost predicate DeferredInv(x: Deferred, d: nat) {
    && (forall role :: LocalInv(d, role, Get(x, role)))
    && Wired(ViewsOf(x))
  }

  predicate SettlingView(v: Views, s: Settled) {
    GetView(v, First(s)).fired && GetView(v, First(s)).calls < 6
  }

  /** The head of a settling list is being run. */
  predicate Settling(x: Deferred, s: Settled) {
    SettlingView(ViewsOf(x), s)
  }

  // ----- one list, one move -----

  predicate PermittedAdd(role: Role, fn: Fn) {
    || fn.User?
    || (role == Done && fn.CountDown?)
    || (role == Fail && fn == FireList(MASTER, Fail))
  }

  lemma {:induction false} PushAllAdded(l: List, fns: seq<Fn>, d: nat, role: Role)
    requires AddedOk(d, role, l.log.added)
    requires forall fn :: fn in fns ==> PermittedAdd(role, fn)
    ensures AddedOk(d, role, PushAll(l, fns).log.added)
    decreases |fns|
  {
    if fns != [] {
      assert fns[0] in fns;
      assert forall fn :: fn in fns[1..] ==> fn in fns;
      PushAllAdded(if l.opts.unique && Has(l.items, fns[0]) then l else PushOne(l, fns[0]), fns[1..], d, role);
    }
  }

  lemma AddFrame(l: List, fns: seq<Fn>)
    requires Ok(l)
    ensures var r := DoAdd(l, fns);
      && r.opts == l.opts && r.fired == l.fired && r.enabled == l.enabled && r.log.calls == l.log.calls
      && (!l.enabled ==> r == l) && r.locked == (l.locked || (l.enabled && Refires(l) && l.opts.once))
      && (l.log.started != [] ==> r.log.started != [] && r.log.started[0] == l.log.started[0])
  {
    PushAllKeepsQueue(l, fns);
    if Refires(l) { PushAllKeepsQueue(Rewind(l), fns); }
  }

  lemma LocalAdd(d: nat, role: Role, l: List, fns: seq<Fn>)
    requires LocalInv(d, role, l)
    requires forall fn :: fn in fns ==> PermittedAdd(role, fn)
    ensures LocalInv(d, role, DoAdd(l, fns)) && DoAdd(l, fns).locked == l.locked
    ensures Settles(role) ==> ViewOf(DoAdd(l, fns)) == ViewOf(l)
  {
    StepKeeps(l, Add(fns));
    AddFrame(l, fns);
    PushAllAdded(l, fns, d, role);
    if Refires(l) {
      PushAllAdded(Rewind(l), fns, d, role);
      PushAllKeepsQueue(Rewind(l), fns);
    }
    if Settles(role) && l.enabled { OnceMemoryStep(l, Add(fns)); }
  }

  function Fired(v: View, args: Args): View {
    if v.locked then v else v.(locked := true, fired := true, first := Some(args))
  }

  lemma FireFrame(l: List, args: Args)
    requires Ok(l)
    ensures var r := DoFire(l, args);
      && r.opts == l.opts && r.enabled == l.enabled && r.log.added == l.log.added && r.log.calls == l.log.calls
      && (l.locked ==> r == l) && (!l.locked ==> r.fired && r.locked == l.opts.once)
      && (l.log.started != [] ==> r.log.started != [] && r.log.started[0] == l.log.started[0])
  {
  }

  lemma FireSettlingList(l: List, args: Args)
    requires Ok(l) && SettlingList(l)
    ensures SettlingList(DoFire(l, args)) && ViewOf(DoFire(l, args)) == Fired(ViewOf(l), args)
  {
    FireFrame(l, args);
    if l.enabled {
      OnceMemoryStep(l, Fire(args));
      assert Step(l, Fire(args)) == DoFire(l, args);
    }
    hide DoFire, Ok;
  }

  lemma InvIsOk(l: List)
    requires Inv(l)
    ensures Ok(l)
  {
  }

  lemma LocalFire(d: nat, role: Role, l: List, args: Args)
    requires LocalInv(d, role, l)
    ensures LocalInv(d, role, DoFire(l, args))
    ensures !Settles(role) ==> DoFire(l, args).locked == l.locked
    ensures Settles(role) ==> ViewOf(DoFire(l, args)) == Fired(ViewOf(l), args)
  {
    hide Inv, DoFire, Ok, AddedOk, SettlingList, ViewOf, Fired;
    InvIsOk(l);
    StepKeeps(l, Fire(args));
    FireFrame(l, args);
    if Settles(role) { FireSettlingList(l, args); }
  }

  lemma LocalTurn(d: nat, role: Role, l: List)
    requires LocalInv(d, role, l)
    ensures LocalInv(d, role, DoTurn(l)) && DoTurn(l).locked == l.locked
    ensures Settles(role) ==>
      ViewOf(DoTurn(l)) == if l.firing && Calls(l) then ViewOf(l).(calls := |l.log.calls| + 1) else ViewOf(l)
  {
    StepKeeps(l, Turn);
    if Settles(role) && l.enabled { OnceMemoryStep(l, Turn); }
  }

  const GONE := View(false, true, false, 0, None)

  lemma LocalDisable(d: nat, role: Role, l: List)
    requires LocalInv(d, role, l) && Settles(role) && !l.fired
    ensures LocalInv(d, role, DoDisable(l)) && ViewOf(DoDisable(l)) == GONE
  {
    StepKeeps(l, Disable);
  }

  lemma LocalLock(d: nat, role: Role, l: List)
    requires LocalInv(d, role, l) && !Settles(role)
    ensures LocalInv(d, role, DoLock(l)) && DoLock(l).locked
  {
    StepKeeps(l, Lock);
  }

  // ----- the wiring alone -----

  lemma WiredFire(v: Views, s: Settled, args: Args)
    requires Wired(v) && !SettlingView(v, s) && !SettlingView(v, Other(s))
    ensures Wired(SetView(v, First(s), Fired(GetView(v, First(s)), args)))
  {
  }

  /** What the `n`-th function of the head does to the views. */
  function HeadShows(v: Views, s: Settled, n: nat, args: Args): Views {
    match n
    case 0 => v.(history := v.history + [s])
    case 1 => SetView(v, First(Other(s)), GONE)
    case 2 => SetView(v, Second(Other(s)), GONE)
    case 3 => v.(locked := true)
    case 4 => v.(locked2 := true)
    case _ => SetView(v, Second(s), Fired(GetView(v, Second(s)), args))
  }

  function HeadCalled(v: Views, s: Settled): Views {
    var a := GetView(v, First(s));
    SetView(v, First(s), a.(calls := a.calls + 1))
  }

  lemma WiredHeadDone(v: Views, n: nat)
    requires Wired(v) && SettlingView(v, Resolved) && n == v.done.calls
    ensures Wired(HeadShows(HeadCalled(v, Resolved), Resolved, n, v.done.first.value))
  {
  }

  lemma WiredHeadFail(v: Views, n: nat)
    requires Wired(v) && SettlingView(v, Rejected) && n == v.fail.calls
    ensures Wired(HeadShows(HeadCalled(v, Rejected), Rejected, n, v.fail.first.value))
  {
  }

  lemma WiredHead(v: Views, s: Settled)
    requires Wired(v) && SettlingView(v, s)
    ensures var a := GetView(v, First(s));
      var r := HeadShows(HeadCalled(v, s), s, a.calls, a.first.value);
      Wired(r)
  {
    var a := GetView(v, First(s));
    if s == Resolved {
      WiredHeadDone(v, a.calls);
    } else {
      WiredHeadFail(v, a.calls);
    }
  }

  lemma OtherSideSilent(v: Views, s: Settled)
    requires Wired(v) && SettlingView(v, s)
    ensures !GetView(v, First(Other(s))).fired && !GetView(v, Second(Other(s))).fired
  {
  }

  lemma HeadSettles(v: Views, s: Settled)
    requires Wired(v) && SettlingView(v, s)
    ensures var a := GetView(v, First(s));
      var r := HeadShows(HeadCalled(v, s), s, a.calls, a.first.value);
      SettlingView(r, s) == (a.calls < 5) && !SettlingView(r, Other(s))
  {
  }

  // ----- one deferred, one move -----

  lemma SetKeeps(x: Deferred, d: nat, role: Role, l: List)
    requires DeferredInv(x, d) && LocalInv(d, role, l) && Wired(SetView(ViewsOf(x), role, ViewOf(l)))
    ensures DeferredInv(Set(x, role, l), d)
  {
    GetSet(x, role, l);
    SetShows(x, role, l);
  }

  lemma Reshow(x: Deferred, role: Role, l: List)
    requires if Settles(role) then ViewOf(l) == ViewOf(Get(x, role)) else l.locked == Get(x, role).locked
    ensures SetView(ViewsOf(x), role, ViewOf(l)) == ViewsOf(x)
  {
  }

  lemma AddStep(x: Deferred, d: nat, role: Role, fns: seq<Fn>)
    requires DeferredInv(x, d)
    requires forall fn :: fn in fns ==> PermittedAdd(role, fn)
    ensures DeferredInv(Set(x, role, DoAdd(Get(x, role), fns)), d)
  {
    LocalAdd(d, role, Get(x, role), fns);
    Reshow(x, role, DoAdd(Get(x, role), fns));
    SetKeeps(x, d, role, DoAdd(Get(x, role), fns));
  }

  /** Firing a settling list when no head is being run. */
  lemma FireStep(x: Deferred, d: nat, s: Settled, args: Args)
    requires DeferredInv(x, d) && !Settling(x, Resolved) && !Settling(x, Rejected)
    ensures DeferredInv(Set(x, First(s), DoFire(Get(x, First(s)), args)), d)
  {
    var l := Get(x, First(s));
    assert LocalInv(d, First(s), l);
    LocalFire(d, First(s), l, args);
    SetShows(x, First(s), DoFire(l, args));
    WiredFire(ViewsOf(x), s, args);
    SetKeeps(x, d, First(s), DoFire(l, args));
  }

  lemma ProgressStep(x: Deferred, d: nat, role: Role, args: Args)
    requires DeferredInv(x, d) && !Settles(role)
    ensures DeferredInv(Set(x, role, DoFire(Get(x, role), args)), d)
  {
    LocalFire(d, role, Get(x, role), args);
    Reshow(x, role, DoFire(Get(x, role), args));
    SetKeeps(x, d, role, DoFire(Get(x, role), args));
  }

  /** More calls past the head change nothing between the lists. */
  lemma WiredCalls(v: Views, role: Role, n: nat)
    requires Wired(v) && Settles(role)
    requires GetView(v, role).fired && n >= GetView(v, role).calls
    requires role == Done || role == Fail ==> GetView(v, role).calls >= 6
    ensures var r := SetView(v, role, GetView(v, role).(calls := n));
      Wired(r) && forall s :: SettlingView(r, s) ==> SettlingView(v, s)
  {
  }

  lemma FiredEnough(x: Deferred, d: nat, role: Role)
    requires DeferredInv(x, d) && Settles(role) && Get(x, role).firing
    requires !Settling(x, Resolved) && !Settling(x, Rejected)
    ensures var view := GetView(ViewsOf(x), role);
      view == ViewOf(Get(x, role)) && view.fired && (role == Done || role == Fail ==> view.calls >= 6)
  {
    hide Wired, SettlingList;
    assert LocalInv(d, role, Get(x, role));
    assert !SettlingView(ViewsOf(x), Resolved) && !SettlingView(ViewsOf(x), Rejected);
  }

  lemma TurnStep(x: Deferred, d: nat, role: Role)
    requires DeferredInv(x, d)
    requires !Settling(x, Resolved) && !Settling(x, Rejected)
    ensures var y := Set(x, role, DoTurn(Get(x, role)));
      Ok(Get(x, role)) && DeferredInv(y, d) && !Settling(y, Resolved) && !Settling(y, Rejected)
  {
    hide DoTurn, Wired, Inv, AddedOk, SettlingList, ViewsOf, SettlingView;
    var l := Get(x, role);
    assert LocalInv(d, role, l);
    InvIsOk(l);
    LocalTurn(d, role, l);
    SetShows(x, role, DoTurn(l));
    var v := ViewsOf(x);
    if Settles(role) && l.firing && Calls(l) {
      FiredEnough(x, d, role);
      WiredCalls(v, role, |l.log.calls| + 1);
    } else {
      Reshow(x, role, DoTurn(l));
    }
    SetKeeps(x, d, role, DoTurn(l));
  }

  // ----- the head of a settling list -----

  /** What the `n`-th function of the head does to its own deferred. */
  function HeadEffect(x: Deferred, s: Settled, n: nat, args: Args): Deferred {
    match n
    case 0 => x.(history := x.history + [s])
    case 1 => Set(x, First(Other(s)), DoDisable(Get(x, First(Other(s)))))
    case 2 => Set(x, Second(Other(s)), DoDisable(Get(x, Second(Other(s)))))
    case 3 => Set(x, Progress, DoLock(x.progress))
    case 4 => Set(x, Progress2, DoLock(x.progress2))
    case _ => Set(x, Second(s), DoFire(Get(x, Second(s)), args))
  }

  lemma HeadCall(d: nat, s: Settled, l: List)
    requires LocalInv(d, First(s), l) && l.fired && |l.log.calls| < 6
    ensures l.firing && Calls(l) && NextCall(l).fn == Head(d, s)[|l.log.calls|] && NextCall(l).args == l.log.started[0]
  {
    assert Permitted(d, First(s), |l.log.calls|, l.log.added[|l.log.calls|]);
  }

  ghost predicate AllLocal(x: Deferred, d: nat) {
    forall role :: LocalInv(d, role, Get(x, role))
  }

  /** After the call is logged and before its effect, the deferred is one step off. */
  lemma HeadTurn(x: Deferred, d: nat, s: Settled)
    requires DeferredInv(x, d) && Settling(x, s)
    ensures var y := Set(x, First(s), DoTurn(Get(x, First(s))));
      AllLocal(y, d) && ViewsOf(y) == HeadCalled(ViewsOf(x), s)
  {
    var l := Get(x, First(s));
    assert LocalInv(d, First(s), l);
    HeadCall(d, s, l);
    LocalTurn(d, First(s), l);
    GetSet(x, First(s), DoTurn(l));
    SetShows(x, First(s), DoTurn(l));
  }

  lemma HeadLocks(y: Deferred, d: nat, role: Role)
    requires AllLocal(y, d) && !Settles(role)
    ensures var r := Set(y, role, DoLock(Get(y, role)));
      AllLocal(r, d) && ViewsOf(r) == SetView(ViewsOf(y), role, GONE)
  {
    SetShows(y, role, DoLock(Get(y, role)));
    LocalLock(d, role, Get(y, role));
    GetSet(y, role, DoLock(Get(y, role)));
  }

  lemma HeadFires(y: Deferred, d: nat, role: Role, args: Args)
    requires AllLocal(y, d) && Settles(role)
    ensures var r := Set(y, role, DoFire(Get(y, role), args));
      AllLocal(r, d) && ViewsOf(r) == SetView(ViewsOf(y), role, Fired(GetView(ViewsOf(y), role), args))
  {
    SetShows(y, role, DoFire(Get(y, role), args));
    LocalFire(d, role, Get(y, role), args);
    GetSet(y, role, DoFire(Get(y, role), args));
  }

  lemma HeadDisables(y: Deferred, d: nat, role: Role)
    requires AllLocal(y, d) && Settles(role) && !GetView(ViewsOf(y), role).fired
    ensures var r := Set(y, role, DoDisable(Get(y, role)));
      AllLocal(r, d) && ViewsOf(r) == SetView(ViewsOf(y), role, GONE)
  {
    SetShows(y, role, DoDisable(Get(y, role)));
    LocalDisable(d, role, Get(y, role));
    GetSet(y, role, DoDisable(Get(y, role)));
  }

  /** The lists after the effect: each still satisfies its own invariant, and one view has changed. */
  lemma HeadEffectLocal(y: Deferred, d: nat, s: Settled, n: nat, args: Args)
    requires AllLocal(y, d) && n < 6
    requires !GetView(ViewsOf(y), First(Other(s))).fired && !GetView(ViewsOf(y), Second(Other(s))).fired
    ensures AllLocal(HeadEffect(y, s, n, args), d)
    ensures ViewsOf(HeadEffect(y, s, n, args)) == HeadShows(ViewsOf(y), s, n, args)
  {
    match n
    case 0 => assert forall role :: Get(HeadEffect(y, s, 0, args), role) == Get(y, role);
    case 1 => HeadDisables(y, d, First(Other(s)));
    case 2 => HeadDisables(y, d, Second(Other(s)));
    case 3 => HeadLocks(y, d, Progress);
    case 4 => HeadLocks(y, d, Progress2);
    case _ => HeadFires(y, d, Second(s), args);
  }

  lemma HeadEffectStep(v: Views, y: Deferred, d: nat, s: Settled, args: Args)
    requires Wired(v) && SettlingView(v, s) && AllLocal(y, d)
    requires ViewsOf(y) == HeadCalled(v, s) && GetView(v, First(s)).first == Some(args)
    ensures var n := GetView(v, First(s)).calls;
      var r := HeadEffect(y, s, n, args);
      DeferredInv(r, d) && Settling(r, s) == (n < 5) && !Settling(r, Other(s))
  {
    hide Wired, AllLocal, HeadShows, HeadEffect;
    WiredHead(v, s);
    OtherSideSilent(v, s);
    HeadSettles(v, s);
    HeadEffectLocal(y, d, s, GetView(v, First(s)).calls, args);
  }

  lemma HeadStep(x: Deferred, d: nat, s: Settled)
    requires DeferredInv(x, d) && Settling(x, s)
    ensures var l := Get(x, First(s));
      && Ok(l) && l.firing && Calls(l) && |l.log.calls| < 6 && NextCall(l).fn == Head(d, s)[|l.log.calls|]
      && AllLocal(Set(x, First(s), DoTurn(l)), d) && DoTurn(l).firing
      && var r := HeadEffect(Set(x, First(s), DoTurn(l)), s, |l.log.calls|, NextCall(l).args);
         DeferredInv(r, d) && Settling(r, s) == (|l.log.calls| < 5) && !Settling(r, Other(s))
  {
    var l := Get(x, First(s));
    assert LocalInv(d, First(s), l);
    HeadCall(d, s, l);
    HeadTurn(x, d, s);
    HeadEffectStep(ViewsOf(x), Set(x, First(s), DoTurn(l)), d, s, NextCall(l).args);
  }
}
