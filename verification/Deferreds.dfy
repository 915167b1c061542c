/**
 `k.Deferred` (Mypintool/doc/html/jquery.js, line 2): any number of deferreds, each six callback lists wired
 together, run by one JavaScript call stack. Between two steps of the code itself, any user callback that is
 running, or the program when none is, may call the public API of any deferred.
 */
module Deferreds {
  import opened Optional
  import opened Values
  import opened CallbackList
  import opened CallbackRuns

  datatype Deferred = Deferred(
    progress: List, progress2: List, done: List, done2: List, fail: List, fail2: List,
    history: seq<Settled>)   // the values assigned to the variable `i`, which starts as "pending"

  /** `Firing`: the function `c()` of a list; `Calling`: a user callback called from it. */
  datatype Frame =
    | Firing(d: nat, role: Role)
    | Calling(d: nat, role: Role)
    | Gathering        // the loop of `k.when`
    | GatheringFail    // the same, between `.done(...)` and `.fail(...)`

  datatype Input = Promise(d: nat) | Plain(value: Value)

  /**
   The variables of one `k.when` call: its arguments, `t`, `n`, `r` and `i`. For the record, `open` holds the
   positions not counted yet and `rejections` the calls of `o.reject`.
   */
  datatype When = When(
    inputs: seq<Input>, t: nat, remaining: int, contexts: seq<Value>, values: seq<Value>,
    open: set<nat>, rejections: seq<Args>)

  datatype World = World(ds: seq<Deferred>, stack: seq<Frame>, when: Option<When>)

  /** The deferred that `k.when` makes. Its promise is all that programs see of it. */
  const MASTER: nat := 0

  function Get(x: Deferred, role: Role): List {
    match role
    case Progress => x.progress
    case Progress2 => x.progress2
    case Done => x.done
    case Done2 => x.done2
    case Fail => x.fail
    case Fail2 => x.fail2
  }

  function Set(x: Deferred, role: Role, l: List): Deferred {
    match role
    case Progress => x.(progress := l)
    case Progress2 => x.(progress2 := l)
    case Done => x.(done := l)
    case Done2 => x.(done2 := l)
    case Fail => x.(fail := l)
    case Fail2 => x.(fail2 := l)
  }

  lemma GetSet(x: Deferred, role: Role, l: List)
    ensures forall r {:trigger Get(Set(x, role, l), r)} :: Get(Set(x, role, l), r) == if r == role then l else Get(x, r)
  {
  }

  // The two ways to settle, as list pairs.
  function First(s: Settled): Role { if s == Resolved then Done else Fail }
  function Second(s: Settled): Role { if s == Resolved then Done2 else Fail2 }
  function Other(s: Settled): Settled { if s == Resolved then Rejected else Resolved }

  // ----- construction -----

  const REPEAT_MEMORY := Options(false, true, false, false)

  /**
   What the constructor adds to a settling list, in order: first `n.add(function(){i=r}, ...)`, then
   `n.add(t[3].fire)`.
   */
  function Head(d: nat, s: Settled): seq<Fn> {
    [SetState(d, s), DisableList(d, First(Other(s))), DisableList(d, Second(Other(s))),
     LockList(d, Progress), LockList(d, Progress2), FireList(d, Second(s))]
  }

  function NewDeferred(d: nat): Deferred {
    Deferred(DoAdd(New(REPEAT_MEMORY), [FireList(d, Progress2)]), New(REPEAT_MEMORY),
             DoAdd(New(ONCE_MEMORY), Head(d, Resolved)), New(ONCE_MEMORY),
             DoAdd(New(ONCE_MEMORY), Head(d, Rejected)), New(ONCE_MEMORY), [])
  }

  function NewWorld(n: nat): World {
    World(seq(n, d requires 0 <= d => NewDeferred(d)), [], None)
  }

  // ----- steps -----

  predicate AllOk(w: World) {
    forall d: nat, role :: d < |w.ds| ==> Ok(Get(w.ds[d], role))
  }

  function SetList(w: World, d: nat, role: Role, l: List): World
    requires d < |w.ds|
  {
    w.(ds := w.ds[d := Set(w.ds[d], role, l)])
  }

  /** One API call on a list; when it enters `c()`, that goes on top of the stack. */
  function Apply(w: World, d: nat, role: Role, m: Move): World
    requires d < |w.ds| && Ok(Get(w.ds[d], role))
  {
    var l := Get(w.ds[d], role);
    var r := Step(l, m);
    var w' := SetList(w, d, role, r);
    if r.firing && !l.firing then w'.(stack := w'.stack + [Firing(d, role)]) else w'
  }

  /** `i[t] = 1 < arguments.length ? s.call(arguments) : e` */
  function Collected(args: Args): Value {
    if |args.values| > 1 then Arr(args.values) else if |args.values| == 1 then args.values[0] else Undefined
  }

  /** The function `a(t)` of `k.when`, called with `args`. */
  function Count(w: World, t: nat, args: Args): World
    requires AllOk(w) && MASTER < |w.ds|
  {
    if w.when.None? || t >= |w.when.value.contexts| || t >= |w.when.value.values| then w
    else
      var v := w.when.value;
      var v' := v.(contexts := v.contexts[t := args.context], values := v.values[t := Collected(args)],
                   remaining := v.remaining - 1, open := v.open - {t});
      var w' := w.(when := Some(v'));
      if v'.remaining == 0 then Apply(w', MASTER, Done, Fire(Args(Arr(v'.contexts), v'.values))) else w'
  }

  /** `o.reject` of the deferred that `k.when` made, called with `args`. */
  function RejectMaster(w: World, args: Args): World
    requires AllOk(w) && MASTER < |w.ds|
  {
    var w' := if w.when.None? then w
              else w.(when := Some(w.when.value.(rejections := w.when.value.rejections + [args])));
    Apply(w', MASTER, Fail, Fire(args))
  }

  function Invoke(w: World, d: nat, role: Role, fn: Fn, args: Args): World
    requires AllOk(w) && MASTER < |w.ds|
  {
    match fn
    case User(_) => w.(stack := w.stack + [Calling(d, role)])
    case SetState(e, to) => if e < |w.ds| then w.(ds := w.ds[e := w.ds[e].(history := w.ds[e].history + [to])]) else w
    case DisableList(e, r) => if e < |w.ds| then Apply(w, e, r, Disable) else w
    case LockList(e, r) => if e < |w.ds| then Apply(w, e, r, Lock) else w
    case FireList(e, r) =>
      if e == MASTER && r == Fail then RejectMaster(w, args)
      else if e < |w.ds| then Apply(w, e, r, Fire(args)) else w
    case CountDown(t) => Count(w, t, args)
  }

  function Top(w: World): Option<Frame> {
    if w.stack == [] then None else Some(w.stack[|w.stack| - 1])
  }

  function Pop(w: World): World
    requires w.stack != []
  {
    w.(stack := w.stack[..|w.stack| - 1])
  }

  function Replace(w: World, f: Frame): World
    requires w.stack != []
  {
    w.(stack := w.stack[..|w.stack| - 1] + [f])
  }

  /** One turn of the `c()` on top of the stack. */
  function FiringStep(w: World, d: nat, role: Role): World
    requires AllOk(w) && MASTER < |w.ds| && d < |w.ds| && w.stack != []
  {
    var l := Get(w.ds[d], role);
    var r := Step(l, Turn);
    StepOk(l, Turn);
    var w' := SetList(w, d, role, r);
    GetSet(w.ds[d], role, r);
    if Calls(l) then Invoke(w', d, role, NextCall(l).fn, NextCall(l).args)
    else if r.firing then w' else Pop(w')
  }

  /** One iteration of `while (t--) W(i[t], a(t), o.reject)`, in two halves. */
  function GatherStep(w: World): World
    requires AllOk(w) && MASTER < |w.ds| && w.stack != []
  {
    if w.when.None? || w.when.value.t == 0 || w.when.value.t > |w.when.value.inputs| then Pop(w)
    else
      var t := w.when.value.t - 1;
      var w' := w.(when := Some(w.when.value.(t := t)));
      match w.when.value.inputs[t]
      case Plain(v) => Count(w', t, Args(Undefined, [v]))
      case Promise(d) => if d < |w.ds| then Apply(Replace(w', GatheringFail), d, Done, Add([CountDown(t)])) else w'
  }

  function GatherFailStep(w: World): World
    requires AllOk(w) && MASTER < |w.ds| && w.stack != []
  {
    if w.when.None? || w.when.value.t >= |w.when.value.inputs| || w.when.value.inputs[w.when.value.t].Plain? then Pop(w)
    else
      var d := w.when.value.inputs[w.when.value.t].d;
      if d < |w.ds| then Apply(Replace(w, Gathering), d, Fail, Add([FireList(MASTER, Fail)])) else Pop(w)
  }

  datatype Event =
    | Internal                                              // the code on top of the stack goes on
    | ApiAdd(d: nat, role: Role, ids: seq<nat>)             // done, fail, progress, then
    | ApiFire(d: nat, role: Role, args: Args)               // resolve, reject, notify
    | ApiReturn                                             // the running callback returns
    | ApiWhen(inputs: seq<Input>)                           // k.when(...) with two or more arguments

  function UserFns(ids: seq<nat>): seq<Fn> {
    seq(|ids|, j requires 0 <= j < |ids| => User(ids[j]))
  }

  /** User code runs when nothing is on the stack or one of its callbacks is on top. */
  predicate UserRuns(w: World) {
    Top(w).None? || Top(w).value.Calling?
  }

  predicate FirstRole(role: Role) { role == Progress || role == Done || role == Fail }

  predicate GoodInputs(w: World, inputs: seq<Input>) {
    |inputs| >= 2 && forall j :: 0 <= j < |inputs| && inputs[j].Promise? ==> MASTER < inputs[j].d < |w.ds|
  }

  function UpTo(n: nat): (s: set<nat>)
    ensures |s| == n && forall t: nat :: t in s <==> t < n
  {
    if n == 0 then {} else UpTo(n - 1) + {n - 1}
  }

  function WorldStep(w: World, e: Event): World
    requires AllOk(w) && MASTER < |w.ds|
  {
    match e
    case Internal =>
      if w.stack == [] then w
      else (match w.stack[|w.stack| - 1]
        case Firing(d, role) => if d < |w.ds| then FiringStep(w, d, role) else w
        case Calling(_, _) => w
        case Gathering => GatherStep(w)
        case GatheringFail => GatherFailStep(w))
    case ApiAdd(d, role, ids) =>
      if UserRuns(w) && d < |w.ds| && (d != MASTER || w.when.Some?) then Apply(w, d, role, Add(UserFns(ids))) else w
    case ApiFire(d, role, args) =>
      if UserRuns(w) && MASTER < d < |w.ds| && FirstRole(role) then Apply(w, d, role, Fire(args)) else w
    case ApiReturn =>
      if UserRuns(w) && w.stack != [] then Pop(w) else w
    case ApiWhen(inputs) =>
      if UserRuns(w) && w.when.None? && GoodInputs(w, inputs) then
        var unset := seq(|inputs|, _ => Undefined);
        w.(when := Some(When(inputs, |inputs|, |inputs|, unset, unset, UpTo(|inputs|), [])),
           stack := w.stack + [Gathering])
      else w
  }
}
