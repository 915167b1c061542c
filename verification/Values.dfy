/** Values shared by the models of jQuery's callback lists, deferreds and queues. */
module Values {

  /** A JavaScript value, as far as callbacks can tell: `Atom` stands for any primitive or object. */
  datatype Value = Undefined | Atom(id: nat) | Arr(elements: seq<Value>)

  /** What `fireWith` saves for one fire: the `this` value and the argument list. */
  datatype Args = Args(context: Value, values: seq<Value>)

  datatype Settled = Resolved | Rejected

  /**
   The six lists of a deferred: `progress`, `done` and `fail` add to the first of each pair, and the first
   fires the second, to which `then` adds.
   */
  datatype Role = Progress | Progress2 | Done | Done2 | Fail | Fail2

  /**
   A callback. `User` is a function whose body is any finite script of API calls; the others are the
   functions that `k.Deferred` and `k.when` themselves put into lists.
   */
  datatype Fn =
    | User(id: nat)
    | SetState(deferred: nat, to: Settled)
    | DisableList(deferred: nat, role: Role)
    | LockList(deferred: nat, role: Role)
    | FireList(deferred: nat, role: Role)
    | CountDown(position: nat)
}
