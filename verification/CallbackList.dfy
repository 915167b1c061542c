/**
 One `k.Callbacks` list (Mypintool/doc/html/jquery.js, line 2) as a state machine.

 A state holds the closure variables of the source, named in the comments of `List`, and a log of what
 has happened so far. A move is one API call, or one turn of the inner loop of the private function
 `c()`. Between two turns of the inner loop any callback may make any API calls, so a run is any sequence
 of moves. The bookkeeping that `c()` does between passes (resetting `l`, shifting the next fire off the
 queue, the epilogue) calls no callback and is one move together with the turn that leads to it.
 */
module CallbackList {
  import opened Optional
  import opened Values

  datatype Options = Options(once: bool, memory: bool, unique: bool, stopOnFalse: bool)

  /** A function in the list; `serial` counts additions, so that two additions of one function differ. */
  datatype Entry = Entry(fn: Fn, serial: nat)

  /** One invocation: which addition, with what, in which pass (passes are numbered as they start). */
  datatype Call = Call(fn: Fn, serial: nat, args: Args, pass: nat)

  /**
   History: functions added, calls made, fires accepted (without those a lock or disable has dropped) and
   fires whose pass has started. The current pass covers the additions from `from` on; its first `blind`
   positions were vacated by `empty()` behind the firing index.
   */
  datatype Log = Log(added: seq<Fn>, calls: seq<Call>, accepted: seq<Args>, started: seq<Args>, from: nat, blind: nat)

  datatype List = List(
    opts: Options,           // r
    firing: bool,            // i
    memory: Option<Args>,    // t, None for any falsy value
    fired: bool,             // o
    locked: bool,            // a
    enabled: bool,           // false when s is ""
    items: seq<Entry>,       // s
    queue: seq<Args>,        // u
    index: int,              // l
    log: Log)

  datatype Move =
    | Add(fns: seq<Fn>)
    | Remove(fns: seq<Fn>)
    | Empty
    | Disable
    | Lock
    | Fire(args: Args)
    | Turn            // one turn of the inner loop of c()
    | ReturnFalse     // the running callback returns false

  function New(opts: Options): List {
    List(opts, false, None, false, false, true, [], [], -1, Log([], [], [], [], 0, 0))
  }

  // ----- operations -----

  predicate Has(items: seq<Entry>, fn: Fn) {
    exists j :: 0 <= j < |items| && items[j].fn == fn
  }

  function PushOne(l: List, fn: Fn): List {
    l.(items := l.items + [Entry(fn, |l.log.added|)], log := l.log.(added := l.log.added + [fn]))
  }

  function PushAll(l: List, fns: seq<Fn>): List
    decreases |fns|
  {
    if fns == [] then l
    else if l.opts.unique && Has(l.items, fns[0]) then PushAll(l, fns[1..])
    else PushAll(PushOne(l, fns[0]), fns[1..])
  }

  /** Shift the next fire off the queue; it becomes the memory and its pass begins. */
  function StartPass(l: List): List
    requires l.queue != []
  {
    l.(memory := Some(l.queue[0]), queue := l.queue[1..], log := l.log.(started := l.log.started + [l.queue[0]]))
  }

  /** The prologue of `c()` and the start of its first pass. */
  function Enter(l: List): List
    requires l.queue != []
  {
    StartPass(l.(locked := l.locked || l.opts.once, fired := true, firing := true))
  }

  /** The epilogue of `c()`. */
  function Finish(l: List): List {
    var kept := if l.opts.memory then l.memory else None;
    l.(memory := kept, firing := false,
       enabled := if l.locked then kept.Some? else l.enabled,
       items := if l.locked then [] else l.items)
  }

  /** What `c()` goes on to when a pass has ended: the next fire or the epilogue. */
  function Resume(l: List): List {
    if l.queue != [] then StartPass(l) else Finish(l)
  }

  /** The list as it is between two passes. */
  function Reset(l: List): List {
    l.(index := -1, log := l.log.(from := 0, blind := 0))
  }

  function EndPass(l: List): List { Resume(Reset(l)) }

  function EnqueueFire(l: List, args: Args): List {
    l.(queue := l.queue + [args], log := l.log.(accepted := l.log.accepted + [args]))
  }

  predicate Refires(l: List) { l.enabled && l.memory.Some? && !l.firing }

  /** `t && !i && (l = s.length - 1, u.push(t))`, at the head of `add`. */
  function Rewind(l: List): List
    requires l.memory.Some?
  {
    EnqueueFire(l.(index := |l.items| - 1, log := l.log.(from := |l.log.added|)), l.memory.value)
  }

  lemma {:induction false} PushAllKeepsQueue(l: List, fns: seq<Fn>)
    ensures var r := PushAll(l, fns); r == l.(items := r.items, log := l.log.(added := r.log.added))
    decreases |fns|
  {
    if fns != [] {
      PushAllKeepsQueue(if l.opts.unique && Has(l.items, fns[0]) then l else PushOne(l, fns[0]), fns[1..]);
    }
  }

  function DoAdd(l: List, fns: seq<Fn>): List {
    if !l.enabled then l
    else if Refires(l) then PushAllKeepsQueue(Rewind(l), fns); Enter(PushAll(Rewind(l), fns))
    else PushAll(l, fns)
  }

  function RemoveAt(l: List, n: nat): List
    requires n < |l.items|
  {
    l.(items := l.items[..n] + l.items[n + 1..],
       index := if n <= l.index then l.index - 1 else l.index,
       log := l.log.(blind := if n < l.log.blind then l.log.blind - 1 else l.log.blind))
  }

  /** The inner loop of `remove`: search from `n`, splice, adjust the firing index, search again from there. */
  function RemoveFrom(l: List, fn: Fn, n: nat): List
    decreases |l.items| - n
  {
    if n >= |l.items| then l
    else if l.items[n].fn == fn then RemoveFrom(RemoveAt(l, n), fn, n)
    else RemoveFrom(l, fn, n + 1)
  }

  function DoRemove(l: List, fns: seq<Fn>): List
    decreases |fns|
  {
    if fns == [] then l else DoRemove(RemoveFrom(l, fns[0], 0), fns[1..])
  }

  function DoEmpty(l: List): List {
    if l.enabled then l.(items := [], log := l.log.(blind := if l.index < 0 then 0 else l.index + 1)) else l
  }

  /** `u = []`: fires that were accepted but not started are dropped. */
  function DropQueue(l: List): List {
    l.(queue := [], locked := true, log := l.log.(accepted := l.log.started))
  }

  function DoDisable(l: List): List {
    DropQueue(l).(enabled := false, items := [], memory := None)
  }

  function DoLock(l: List): List {
    var r := DropQueue(l);
    if l.memory.None? && !l.firing then r.(enabled := false, items := []) else r
  }

  function DoFire(l: List, args: Args): List {
    if l.locked then l
    else if l.firing then EnqueueFire(l, args)
    else Enter(EnqueueFire(l, args))
  }

  /** True when the next turn of the inner loop finds a callback to call. */
  predicate Calls(l: List) {
    l.firing && l.memory.Some? && 0 <= l.index + 1 < |l.items|
  }

  function NextCall(l: List): Call
    requires Calls(l) && |l.log.started| > 0
  {
    Call(l.items[l.index + 1].fn, l.items[l.index + 1].serial, l.memory.value, |l.log.started| - 1)
  }

  predicate Ok(l: List) {
    && -1 <= l.index
    && (!l.enabled ==> l.items == [] && l.locked && l.memory == None && l.queue == [])
    && (!l.firing ==> l.index == -1 && l.queue == [] && (l.memory.Some? ==> l.opts.memory && l.fired))
    && (l.firing ==> l.fired && l.log.started != [])
    && (l.firing && l.enabled ==> l.memory == Some(l.log.started[|l.log.started| - 1]))
    && (l.opts.once && l.fired ==> l.locked)
  }

  function DoTurn(l: List): List
    requires Ok(l)
  {
    if !l.firing then l
    else if Calls(l) then l.(index := l.index + 1, log := l.log.(calls := l.log.calls + [NextCall(l)]))
    else EndPass(l)
  }

  /** `!1===s[l].apply(...) && r.stopOnFalse && (l = s.length, t = !1)`; the inner loop then ends. */
  function DoReturnFalse(l: List): List {
    if l.firing && l.opts.stopOnFalse then EndPass(l.(memory := None)) else l
  }

  function Step(l: List, m: Move): List
    requires Ok(l)
  {
    match m
    case Add(fns) => DoAdd(l, fns)
    case Remove(fns) => DoRemove(l, fns)
    case Empty => DoEmpty(l)
    case Disable => DoDisable(l)
    case Lock => DoLock(l)
    case Fire(args) => DoFire(l, args)
    case Turn => DoTurn(l)
    case ReturnFalse => DoReturnFalse(l)
  }

  // ----- structural invariant -----

  lemma {:induction false} RemoveFromOk(l: List, fn: Fn, n: nat)
    requires Ok(l)
    ensures Ok(RemoveFrom(l, fn, n))
    decreases |l.items| - n
  {
    if n < |l.items| {
      if l.items[n].fn == fn { RemoveFromOk(RemoveAt(l, n), fn, n); } else { RemoveFromOk(l, fn, n + 1); }
    }
  }

  lemma {:induction false} DoRemoveOk(l: List, fns: seq<Fn>)
    requires Ok(l)
    ensures Ok(DoRemove(l, fns))
    decreases |fns|
  {
    if fns != [] {
      RemoveFromOk(l, fns[0], 0);
      DoRemoveOk(RemoveFrom(l, fns[0], 0), fns[1..]);
    }
  }

  lemma StepOk(l: List, m: Move)
    requires Ok(l)
    ensures Ok(Step(l, m))
  {
    match m
    case Add(fns) =>
      PushAllKeepsQueue(l, fns);
      if Refires(l) { PushAllKeepsQueue(Rewind(l), fns); }
    case Remove(fns) => DoRemoveOk(l, fns);
    case _ =>
  }
}
