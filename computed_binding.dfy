/** A computed property's per-instance binding (can-define.js:185-199) and the
    listener reference counting done by `addEventListener` and
    `removeEventListener` (can-define.js:523-557): the forwarding handler is
    registered on the memoized computation at the 0 -> 1 edge of `count` and
    removed at the 1 -> 0 edge. */
module Bindings {
  import opened JsValue

  /** A binding's listener bookkeeping: its `count`, and how many times its
      forwarding handler is registered on the computation's change event. */
  datatype Listeners = Listeners(count: int, handlers: nat)

  datatype ListenerOp = AddOp | RemoveOp

  /** `addEventListener` on a computed name (can-define.js:525-533): a falsy
      `count` becomes 1 and registers the handler, any other is incremented. */
  function AddStep(s: Listeners): (r: Listeners)
    ensures r.count == s.count + 1
    ensures r.handlers == if s.count == 0 then s.handlers + 1 else s.handlers
  {
    if s.count == 0 then Listeners(1, s.handlers + 1) else Listeners(s.count + 1, s.handlers)
  }

  /** `removeEventListener` on a computed name (can-define.js:544-552): a
      `count` of 1 becomes 0 and unregisters the handler, any other is
      decremented (and may go below zero). */
  function RemoveStep(s: Listeners): (r: Listeners)
    ensures r.count == s.count - 1
    ensures r.handlers == if s.count == 1 && s.handlers > 0 then s.handlers - 1 else s.handlers
  {
    if s.count == 1 then Listeners(0, if s.handlers > 0 then s.handlers - 1 else 0)
    else Listeners(s.count - 1, s.handlers)
  }

  function Step(s: Listeners, op: ListenerOp): Listeners
  {
    match op
    case AddOp => AddStep(s)
    case RemoveOp => RemoveStep(s)
  }

  function Replay(s: Listeners, ops: seq<ListenerOp>): Listeners
    decreases |ops|
  {
    if ops == [] then s else Replay(Step(s, ops[0]), ops[1..])
  }

  function Adds(ops: seq<ListenerOp>): nat
  {
    if ops == [] then 0 else (if ops[0] == AddOp then 1 else 0) + Adds(ops[1..])
  }

  function Removes(ops: seq<ListenerOp>): nat
  {
    if ops == [] then 0 else (if ops[0] == RemoveOp then 1 else 0) + Removes(ops[1..])
  }

  /** The handler is registered once while `count` is positive, never otherwise. */
  predicate Consistent(s: Listeners)
  {
    s.handlers == if s.count > 0 then 1 else 0
  }

  lemma StepConsistent(s: Listeners, op: ListenerOp)
    requires Consistent(s)
    ensures Consistent(Step(s, op))
  {
  }

  lemma {:induction false} ReplayFrom(s: Listeners, ops: seq<ListenerOp>)
    requires Consistent(s)
    ensures Replay(s, ops).count == s.count + Adds(ops) - Removes(ops)
    ensures Consistent(Replay(s, ops))
    decreases |ops|
  {
    if ops != [] {
      StepConsistent(s, ops[0]);
      ReplayFrom(Step(s, ops[0]), ops[1..]);
    }
  }

  /** From a fresh binding, after any sequence of adds and removes, `count`
      is adds minus removes and the handler is registered exactly when that
      is positive, at most once. This holds without assuming that removes
      never outnumber adds: a surplus remove drives `count` below zero, and
      the add that brings it back to zero does not register the handler. */
  lemma ListenerRefcount(ops: seq<ListenerOp>)
    ensures Replay(Listeners(0, 0), ops).count == Adds(ops) - Removes(ops)
    ensures Replay(Listeners(0, 0), ops).handlers == if Adds(ops) > Removes(ops) then 1 else 0
  {
    ReplayFrom(Listeners(0, 0), ops);
  }

  /** The per-instance binding `{compute, count, handler}`: `lastSet` stands for
      the memoized computation's last explicitly set value. */
  class ComputedBinding {
    var lastSet: Value
    var count: int
    var handlers: nat

    ghost predicate Valid()
      reads this
    {
      Consistent(Listeners(count, handlers))
    }

    function State(): Listeners
      reads this
    {
      Listeners(count, handlers)
    }

    /** The forwarding handler is registered. */
    predicate Attached()
      reads this
    {
      handlers > 0
    }

    /** `make.compute` (can-define.js:186-197): the computation is seeded with
        the default value (or `undefined`), with no listener. */
    constructor (seed: Value)
      ensures Valid() && lastSet == seed && State() == Listeners(0, 0)
    {
      lastSet, count, handlers := seed, 0, 0;
    }

    method AddListener()
      requires Valid()
      modifies this
      ensures Valid()
      ensures State() == AddStep(old(State())) && lastSet == old(lastSet)
      ensures Attached() <==> count > 0
    {
      if count == 0 {
        count := 1;
        handlers := handlers + 1;
      } else {
        count := count + 1;
      }
    }

    method RemoveListener()
      requires Valid()
      modifies this
      ensures Valid()
      ensures State() == RemoveStep(old(State())) && lastSet == old(lastSet)
      ensures Attached() <==> count > 0
    {
      if count == 1 {
        count := 0;
        if handlers > 0 {
          handlers := handlers - 1;
        }
      } else {
        count := count - 1;
      }
    }

    /** `compute(val)`: a write sets the computation's last-set value. */
    method SetLastSet(v: Value)
      modifies this`lastSet
      ensures lastSet == v
    {
      lastSet := v;
    }
  }
}
