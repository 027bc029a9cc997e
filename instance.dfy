/** The per-instance runtime of a defined type: the change notifier
    (can-define.js:212-224),
    the setter protocol (can-define.js:225-323), the installed accessors
    (can-define.js:84-92, 157-169) and the listener hooks on computed bindings
    (can-define.js:523-557). */
module Runtime {
  import opened JsValue
  import opened Externals
  import opened Schema
  import opened PropertyPlan
  import opened Bindings
  import opened Storage

  /** A triggered change event `{type: prop, target}` with `[newVal, oldVal]`;
      `batched` says whether a batch was open, so that the event is queued for
      the batch's flush rather than delivered at once. */
  datatype Event = Event(prop: string, newVal: Value, oldVal: Value, batched: bool)

  /** What one call of a user `set` function did: the value it passed to
      `resolve` before returning, if it called it, and the value it returned. */
  datatype SetterRun = SetterRun(resolved: Option<Value>, returned: Value)

  /** `setter.length` for the `set` behaviour. */
  function ArityOf(setFn: Value): nat
  {
    if setFn.Fun? then Arity(setFn.f) else 0
  }

  /** The decision table of `make.set.setter` (can-define.js:249-318): the value
      handed to the storage write (`setEvents`), or `None` when nothing is
      written. `current` is the value read before the setter ran. */
  function SetterWrite(run: SetterRun, arity: nat, hasGetter: bool, value: Value, current: Value): (w: Option<Value>)
    // a synchronous `resolve(v)` is the only write; the return value is ignored
    ensures run.resolved.Some? ==> w == run.resolved
    // a defined return value is written, except, with a getter, when it equals the baseline
    ensures run.resolved.None? && run.returned != Undefined ==>
      w == if hasGetter && run.returned == current then None else Some(run.returned)
    // no resolve and no return value: arity decides
    ensures run.resolved.None? && run.returned == Undefined && arity == 0 ==> w == Some(value)
    ensures run.resolved.None? && run.returned == Undefined && arity == 1 ==>
      w == if hasGetter then None else Some(Undefined)
    ensures run.resolved.None? && run.returned == Undefined && arity >= 2 ==> w == None
  {
    if run.resolved.Some? then run.resolved
    else if run.returned != Undefined then
      (if hasGetter && current == run.returned then None else Some(run.returned))
    else if arity == 0 then Some(value)
    else if arity == 1 then (if hasGetter then None else Some(Undefined))
    else None
  }

  /** With a getter, the setter protocol never writes back the baseline it was
      given unless the setter resolved it, or declared no parameter and was
      handed that very value. */
  lemma GetterSetterAvoidsFeedback(run: SetterRun, arity: nat, value: Value, current: Value)
    requires run.resolved.None?
    requires SetterWrite(run, arity, true, value, current) == Some(current)
    ensures run.returned == Undefined && arity == 0 && value == current
  {
  }

  /** Without a getter and without `resolve`, something is written exactly
      when the setter returned a value or declared at most one parameter. */
  lemma SetterWithoutGetterWrites(run: SetterRun, arity: nat, value: Value, current: Value)
    requires run.resolved.None?
    ensures SetterWrite(run, arity, false, value, current).Some? <==> run.returned != Undefined || arity <= 1
  {
  }

  /** What the runtime relies on of one plan: computed storage has a getter,
      and writes go to the computation exactly when the value is stored there. */
  predicate PlanShape(p: Plan)
  {
    p.General? ==>
      && (p.storage == ComputedStorage ==> Get in p.def)
      && ((p.setter.SetterOverLastSet? || p.setter.RawCompute?) <==> p.storage == ComputedStorage)
  }

  /** The value of a property with this plan lives in `this._data`. */
  predicate DataBacked(plan: Plan)
  {
    plan.FastPath? || plan.storage == DataStorage
  }

  /** What the runtime relies on of an accessor table. */
  ghost predicate TableShape(t: Table)
  {
    && (forall p :: p in t.plans ==> PlanShape(t.plans[p]))
    && (forall p :: p in t.dataInitializers <==> p in t.plans && HasDataInitializer(t.plans[p]))
    && (forall p :: p in t.computedInitializers <==> p in t.plans && HasComputedInitializer(t.plans[p]))
  }

  lemma WellFormedShape(t: Table)
    requires WellFormed(t)
    ensures TableShape(t)
  {
    forall p | p in t.plans
      ensures PlanShape(t.plans[p])
    {
      if t.plans[p].General? {
        assert t.plans[p] == PropertyPlan.PropertyPlan(t.plans[p].def);
      }
    }
  }

  /** Where a write through an installed setter lands: the data store (with
      whether the change event is queued in a batch), the computation's
      last-set value, or nowhere. */
  datatype Target = ToData(v: Value, batched: bool) | ToComputed(v: Value) | Nowhere

  /** Where the setter layer of a plan sends an already converted value `x`
      (can-define.js:141-155). `dataCurrent` and `lastSet` are the values
      before the write, `depth` the batch depth. */
  function LayerTarget(setter: SetterShape, x: Value, run: SetterRun,
                       dataCurrent: Value, lastSet: Value, depth: nat): Target
  {
    match setter
    case NotifyOnly => ToData(x, depth > 0)
    case SetterOverNotify(s) =>
      (match SetterWrite(run, ArityOf(s), false, x, dataCurrent)
       case Some(w) => ToData(w, true)
       case None => Nowhere)
    case SetterOverLastSet(s) =>
      (match SetterWrite(run, ArityOf(s), true, x, lastSet)
       case Some(w) => ToComputed(w)
       case None => Nowhere)
    case RawCompute => ToComputed(x)
  }

  /** The end-to-end effect of `obj[prop] = v` (can-define.js:84-92, 141-163):
      the fast path stores `v` as is; otherwise `v` is converted by the chain
      and then follows the plan's setter layer. */
  function SetTarget(host: Host, prop: string, plan: Plan, v: Value, run: SetterRun,
                     dataCurrent: Value, lastSet: Value, depth: nat): Target
  {
    match plan
    case FastPath(_) => ToData(v, depth > 0)
    case General(_, _, chain, _, setter, _) =>
      LayerTarget(setter, Coerce(host, prop, chain, v), run, dataCurrent, lastSet, depth)
  }

  /** A write lands in the store its plan reads from: data-backed properties
      never touch a computation and computed ones never the data store. */
  lemma TargetMatchesStorage(host: Host, prop: string, plan: Plan, v: Value, run: SetterRun,
                                                dataCurrent: Value, lastSet: Value, depth: nat)
    requires PlanShape(plan)
    ensures SetTarget(host, prop, plan, v, run, dataCurrent, lastSet, depth).ToData? ==>
      DataBacked(plan)
    ensures SetTarget(host, prop, plan, v, run, dataCurrent, lastSet, depth).ToComputed? ==>
      plan.General? && plan.storage == ComputedStorage
  {
  }

  /** Only a user `set` can swallow a write: without one, every write
      reaches its store. */
  lemma WithoutSetterEveryWriteLands(host: Host, prop: string, plan: Plan, v: Value, run: SetterRun,
                                     dataCurrent: Value, lastSet: Value, depth: nat)
    requires plan.FastPath? || plan.setter.NotifyOnly? || plan.setter.RawCompute?
    ensures !SetTarget(host, prop, plan, v, run, dataCurrent, lastSet, depth).Nowhere?
  {
  }

  /** A setter that calls `resolve` synchronously determines the stored value
      alone, whatever the assigned value was. */
  lemma ResolvedValueWins(host: Host, prop: string, plan: Plan, v1: Value, v2: Value, run: SetterRun,
                          dataCurrent: Value, lastSet: Value, depth: nat)
    requires plan.General? && (plan.setter.SetterOverNotify? || plan.setter.SetterOverLastSet?)
    requires run.resolved.Some?
    ensures SetTarget(host, prop, plan, v1, run, dataCurrent, lastSet, depth)
         == SetTarget(host, prop, plan, v2, run, dataCurrent, lastSet, depth)
    ensures SetTarget(host, prop, plan, v1, run, dataCurrent, lastSet, depth) != Nowhere
  {
  }

  /** An instance of a defined type: its two stores, the events it has
      triggered, the reads it has reported and the batch nesting depth. */
  class Instance {
    const table: Table
    const host: Host
    const data: DataStore
    const computed: ComputedStore
    /** Events handed to `canBatch.trigger`, in order. */
    var events: seq<Event>
    /** Reads reported to `ObserveInfo.observe`, in order. */
    var observed: seq<string>
    /** The nesting depth of `canBatch.start`/`stop`. */
    var batchDepth: nat

    ghost predicate Valid()
      reads this, data, computed, computed.bindings.Values
    {
      && TableShape(table)
      && data.Valid() && computed.Valid()
      && data.inits == table.dataInitializers
      && computed.inits == table.computedInitializers
      && (forall p :: p in computed.withDefault <==>
            p in table.computedInitializers && p in table.plans && table.plans[p].General? && table.plans[p].hasDefault)
    }

    /** `new Type()` on a prototype set up by `define`, before any access. */
    constructor (table: Table, host: Host)
      requires WellFormed(table)
      ensures Valid() && fresh(data) && fresh(computed)
      ensures this.table == table && this.host == host
      ensures events == [] && observed == [] && batchDepth == 0
      ensures data.runs == [] && computed.runs == [] && computed.bindings == map[]
      // a data property with a default reads as the value its provider yields
      ensures forall p :: p in table.dataInitializers ==>
        data.Stored(p) == InitialValue(host, p, table.plans[p].def)
      ensures forall p :: p !in table.dataInitializers ==> data.Stored(p) == Undefined
      // a computation starts from `defaultValue && defaultValue()`
      ensures forall p :: p in table.computedInitializers ==>
        computed.LastSet(p) == if table.plans[p].hasDefault then InitialValue(host, p, table.plans[p].def) else Undefined
    {
      WellFormedShape(table);
      var initialize := (p: string) =>
        if p in table.plans && table.plans[p].General? then InitialValue(host, p, table.plans[p].def) else Undefined;
      var withDefault := set p | p in table.computedInitializers && p in table.plans && table.plans[p].General? && table.plans[p].hasDefault;
      this.table := table;
      this.host := host;
      data := new DataStore(table.dataInitializers, initialize);
      computed := new ComputedStore(table.computedInitializers, withDefault, initialize);
      events, observed, batchDepth := [], [], 0;
    }

    /** `make.read.data` (can-define.js:375-377): a read that is not observed. */
    method ReadData(prop: string) returns (v: Value)
      requires Valid()
      modifies data
      ensures Valid()
      ensures v == old(data.Stored(prop))
      ensures forall q :: data.Stored(q) == old(data.Stored(q))
      ensures data.runs == old(data.RunsAfterReading(prop))
    {
      v := data.Read(prop);
    }

    /** `make.get.data` (can-define.js:409-414): the read is reported first. */
    method GetData(prop: string) returns (v: Value)
      requires Valid()
      modifies this, data
      ensures Valid()
      ensures v == old(data.Stored(prop))
      ensures forall q :: data.Stored(q) == old(data.Stored(q))
      ensures observed == old(observed) + [prop]
      ensures events == old(events) && batchDepth == old(batchDepth)
      ensures data.runs == old(data.RunsAfterReading(prop))
    {
      observed := observed + [prop];
      v := data.Read(prop);
    }

    /** The change notifier `make.set.events` (can-define.js:212-224) over the
        data store: read the current value; if the new one differs from it,
        store it and trigger exactly one event `[newVal, current]`; otherwise
        change nothing. The fast path reads through the observing getter. */
    method Notify(prop: string, newVal: Value, observing: bool)
      requires Valid()
      modifies this, data
      ensures Valid()
      ensures forall q :: data.Stored(q) == if q == prop then newVal else old(data.Stored(q))
      ensures events == old(events) +
        (if newVal != old(data.Stored(prop)) then [Event(prop, newVal, old(data.Stored(prop)), batchDepth > 0)] else [])
      ensures observed == old(observed) + (if observing then [prop] else [])
      ensures batchDepth == old(batchDepth)
      ensures data.runs == old(data.RunsAfterReading(prop))
    {
      var current;
      if observing {
        current := GetData(prop);
      } else {
        current := ReadData(prop);
      }
      if newVal != current {
        data.Write(prop, newVal);
        events := events + [Event(prop, newVal, current, batchDepth > 0)];
      }
    }

    /** `make.read.lastSet` (can-define.js:385-389). */
    method ReadLastSet(prop: string) returns (v: Value)
      requires Valid() && prop in table.computedInitializers
      modifies computed
      ensures Valid()
      ensures v == old(computed.LastSet(prop))
      ensures forall q :: computed.LastSet(q) == old(computed.LastSet(q))
      ensures forall q :: computed.ListenersOf(q) == old(computed.ListenersOf(q))
      ensures computed.runs == old(computed.RunsAfterCreating(prop))
      ensures forall b :: b in computed.bindings.Values ==> b in old(computed.bindings.Values) || fresh(b)
      ensures prop in computed.bindings
    {
      var b := computed.Get(prop);
      v := b.lastSet;
    }

    /** `make.set.computed` (can-define.js:207-211). */
    method SetComputed(prop: string, v: Value)
      requires Valid() && prop in table.computedInitializers
      modifies computed, computed.bindings.Values
      ensures Valid()
      ensures forall q :: computed.LastSet(q) == if q == prop then v else old(computed.LastSet(q))
      ensures forall q :: computed.ListenersOf(q) == old(computed.ListenersOf(q))
      ensures computed.runs == old(computed.RunsAfterCreating(prop))
    {
      computed.SetLastSet(prop, v);
    }

    /** `make.read.computed` and `make.get.computed` (can-define.js:379-384,
        415-419): the computation's value, which the host derives from the
        getter and the last-set value. */
    method ReadComputed(prop: string) returns (v: Value)
      requires Valid() && prop in table.computedInitializers
      modifies computed
      ensures Valid()
      ensures v == host.evaluate(table.plans[prop].def[Get], old(computed.LastSet(prop)))
      ensures forall q :: computed.LastSet(q) == old(computed.LastSet(q))
      ensures forall q :: computed.ListenersOf(q) == old(computed.ListenersOf(q))
      ensures computed.runs == old(computed.RunsAfterCreating(prop))
    {
      var b := computed.Get(prop);
      v := host.evaluate(table.plans[prop].def[Get], b.lastSet);
    }

    /** The setter protocol over the change notifier (can-define.js:225-323
        with `hasGetter` false): the current value is read, the user `set`
        runs, and what it did decides what the notifier is given. Runs inside
        an open batch. */
    method SetterOverData(prop: string, setFn: Value, run: SetterRun, value: Value)
      requires Valid() && batchDepth > 0
      modifies this, data
      ensures Valid()
      ensures var w := SetterWrite(run, ArityOf(setFn), false, value, old(data.Stored(prop)));
        && (forall q :: data.Stored(q) == if q == prop && w.Some? then w.value else old(data.Stored(q)))
        && events == old(events) +
             (if w.Some? && w.value != old(data.Stored(prop)) then [Event(prop, w.value, old(data.Stored(prop)), true)] else [])
      ensures observed == old(observed) && batchDepth == old(batchDepth)
      // the slot is materialised before anything is written to it
      ensures data.runs == old(data.RunsAfterReading(prop))
    {
      var current := ReadData(prop);
      var setterCalled := false;
      if run.resolved.Some? {
        Notify(prop, run.resolved.value, false);
        setterCalled := true;
      }
      if !setterCalled {
        if run.returned != Undefined {
          Notify(prop, run.returned, false);
        } else if ArityOf(setFn) == 0 {
          Notify(prop, value, false);
        } else if ArityOf(setFn) == 1 {
          Notify(prop, Undefined, false);
        }
      }
    }

    /** The setter protocol over the computation (can-define.js:225-323 with
        `hasGetter` true): the baseline is the last-set value, and a returned
        value equal to it is not written back. */
    method SetterOverComputed(prop: string, setFn: Value, run: SetterRun, value: Value)
      requires Valid() && prop in table.computedInitializers
      modifies computed, computed.bindings.Values
      ensures Valid()
      ensures var w := SetterWrite(run, ArityOf(setFn), true, value, old(computed.LastSet(prop)));
        forall q :: computed.LastSet(q) == if q == prop && w.Some? then w.value else old(computed.LastSet(q))
      ensures forall q :: computed.ListenersOf(q) == old(computed.ListenersOf(q))
      ensures computed.runs == old(computed.RunsAfterCreating(prop))
    {
      var current := ReadLastSet(prop);
      var setterCalled := false;
      if run.resolved.Some? {
        SetComputed(prop, run.resolved.value);
        setterCalled := true;
      }
      if !setterCalled {
        if run.returned != Undefined {
          if current != run.returned {
            SetComputed(prop, run.returned);
          }
        } else if ArityOf(setFn) == 0 {
          SetComputed(prop, value);
        }
      }
    }

    /** A user `set` without `get`, protected by `canBatch.start`/`stop`. */
    method BatchedSetterOverData(prop: string, setFn: Value, run: SetterRun, x: Value)
      requires Valid()
      modifies this, data
      ensures Valid()
      ensures var w := SetterWrite(run, ArityOf(setFn), false, x, old(data.Stored(prop)));
        && (forall q :: data.Stored(q) == if q == prop && w.Some? then w.value else old(data.Stored(q)))
        && events == old(events) +
             (if w.Some? && w.value != old(data.Stored(prop)) then [Event(prop, w.value, old(data.Stored(prop)), true)] else [])
      ensures observed == old(observed) && batchDepth == old(batchDepth)
      ensures data.runs == old(data.RunsAfterReading(prop))
    {
      batchDepth := batchDepth + 1;
      SetterOverData(prop, setFn, run, x);
      batchDepth := batchDepth - 1;
    }

    /** A user `set` paired with `get`, protected by `canBatch.start`/`stop`. */
    method BatchedSetterOverComputed(prop: string, setFn: Value, run: SetterRun, x: Value)
      requires Valid() && prop in table.computedInitializers
      modifies this, computed, computed.bindings.Values
      ensures Valid()
      ensures var w := SetterWrite(run, ArityOf(setFn), true, x, old(computed.LastSet(prop)));
        forall q :: computed.LastSet(q) == if q == prop && w.Some? then w.value else old(computed.LastSet(q))
      ensures forall q :: computed.ListenersOf(q) == old(computed.ListenersOf(q))
      ensures events == old(events) && observed == old(observed) && batchDepth == old(batchDepth)
      ensures computed.runs == old(computed.RunsAfterCreating(prop))
    {
      batchDepth := batchDepth + 1;
      SetterOverComputed(prop, setFn, run, x);
      batchDepth := batchDepth - 1;
    }

    /** The setter layer of a general plan applied to the converted value `x`. */
    method WriteLayer(prop: string, setter: SetterShape, x: Value, run: SetterRun)
      requires Valid() && prop in table.plans && table.plans[prop].General?
      requires setter == table.plans[prop].setter
      modifies this, data, computed, computed.bindings.Values
      ensures Valid()
      ensures var t := LayerTarget(setter, x, run, old(data.Stored(prop)), old(computed.LastSet(prop)), old(batchDepth));
        && (forall q :: data.Stored(q) == if q == prop && t.ToData? then t.v else old(data.Stored(q)))
        && (forall q :: computed.LastSet(q) == if q == prop && t.ToComputed? then t.v else old(computed.LastSet(q)))
        && events == old(events) +
             (if t.ToData? && t.v != old(data.Stored(prop)) then [Event(prop, t.v, old(data.Stored(prop)), t.batched)] else [])
      ensures observed == old(observed)
      ensures forall q :: computed.ListenersOf(q) == old(computed.ListenersOf(q))
      ensures batchDepth == old(batchDepth)
      ensures data.runs == if DataBacked(table.plans[prop]) then old(data.RunsAfterReading(prop)) else old(data.runs)
      ensures computed.runs == if DataBacked(table.plans[prop]) then old(computed.runs) else old(computed.RunsAfterCreating(prop))
    {
      assert PlanShape(table.plans[prop]);
      match setter
      case NotifyOnly =>
        Notify(prop, x, false);
      case SetterOverNotify(s) =>
        BatchedSetterOverData(prop, s, run, x);
      case SetterOverLastSet(s) =>
        BatchedSetterOverComputed(prop, s, run, x);
      case RawCompute =>
        SetComputed(prop, x);
    }

    /** The installed setter, `obj[prop] = v` (can-define.js:84-92, 141-163):
        type conversion, then the plan's setter layer; every batch the write
        opens is closed again. */
    method Write(prop: string, v: Value, run: SetterRun)
      requires Valid() && prop in table.plans
      modifies this, data, computed, computed.bindings.Values
      ensures Valid()
      ensures var t := SetTarget(host, prop, table.plans[prop], v, run,
                                 old(data.Stored(prop)), old(computed.LastSet(prop)), old(batchDepth));
        && (forall q :: data.Stored(q) == if q == prop && t.ToData? then t.v else old(data.Stored(q)))
        && (forall q :: computed.LastSet(q) == if q == prop && t.ToComputed? then t.v else old(computed.LastSet(q)))
        && events == old(events) +
             (if t.ToData? && t.v != old(data.Stored(prop)) then [Event(prop, t.v, old(data.Stored(prop)), t.batched)] else [])
      ensures observed == old(observed) + (if table.plans[prop].FastPath? then [prop] else [])
      ensures forall q :: computed.ListenersOf(q) == old(computed.ListenersOf(q))
      ensures batchDepth == old(batchDepth)
      // a data-backed property's default is materialised by the read that precedes the write
      ensures data.runs == if DataBacked(table.plans[prop]) then old(data.RunsAfterReading(prop)) else old(data.runs)
      // a computed property's default provider runs only if this write creates its binding
      ensures computed.runs == if DataBacked(table.plans[prop]) then old(computed.runs) else old(computed.RunsAfterCreating(prop))
    {
      var plan := table.plans[prop];
      if plan.FastPath? {
        Notify(prop, v, true);
      } else {
        var x := Coerce(host, prop, plan.chain, v);
        WriteLayer(prop, plan.setter, x, run);
      }
    }

    /** The installed getter, `obj[prop]` (can-define.js:84-92, 157-163): a
        data-backed property reads its slot and reports the read; a computed
        one reads its computation. Nothing observable changes. */
    method Read(prop: string) returns (v: Value)
      requires Valid() && prop in table.plans
      modifies this, data, computed
      ensures Valid()
      ensures DataBacked(table.plans[prop]) ==> v == old(data.Stored(prop)) && observed == old(observed) + [prop]
      ensures !DataBacked(table.plans[prop]) ==>
        v == host.evaluate(table.plans[prop].def[Get], old(computed.LastSet(prop))) && observed == old(observed)
      ensures forall q :: data.Stored(q) == old(data.Stored(q))
      ensures forall q :: computed.LastSet(q) == old(computed.LastSet(q))
      ensures forall q :: computed.ListenersOf(q) == old(computed.ListenersOf(q))
      ensures events == old(events) && batchDepth == old(batchDepth)
      // the first read of a data property materialises its default; the first
      // access of a computed one creates its binding and runs its provider
      ensures data.runs == if DataBacked(table.plans[prop]) then old(data.RunsAfterReading(prop)) else old(data.runs)
      ensures computed.runs == if DataBacked(table.plans[prop]) then old(computed.runs) else old(computed.RunsAfterCreating(prop))
    {
      if DataBacked(table.plans[prop]) {
        v := GetData(prop);
      } else {
        v := ReadComputed(prop);
      }
    }

    /** A `resolve(v)` that the user `set` calls after returning: `setEvents`
        runs on its own, outside the setter's batch, and `v` is stored without
        type conversion. */
    method ResolveLater(prop: string, v: Value)
      requires Valid() && prop in table.plans && table.plans[prop].General?
      requires table.plans[prop].setter.SetterOverNotify? || table.plans[prop].setter.SetterOverLastSet?
      modifies this, data, computed, computed.bindings.Values
      ensures Valid()
      ensures table.plans[prop].setter.SetterOverNotify? ==>
        && (forall q :: data.Stored(q) == if q == prop then v else old(data.Stored(q)))
        && (forall q :: computed.LastSet(q) == old(computed.LastSet(q)))
        && events == old(events) +
             (if v != old(data.Stored(prop)) then [Event(prop, v, old(data.Stored(prop)), batchDepth > 0)] else [])
      ensures table.plans[prop].setter.SetterOverLastSet? ==>
        && (forall q :: data.Stored(q) == old(data.Stored(q)))
        && (forall q :: computed.LastSet(q) == if q == prop then v else old(computed.LastSet(q)))
        && events == old(events)
      ensures observed == old(observed) && batchDepth == old(batchDepth)
      ensures forall q :: computed.ListenersOf(q) == old(computed.ListenersOf(q))
    {
      if table.plans[prop].setter.SetterOverNotify? {
        Notify(prop, v, false);
      } else {
        SetComputed(prop, v);
      }
    }

    /** The computed-property half of `addEventListener` (can-define.js:523-536):
        a listener on a computed property's name counts towards forwarding. */
    method AddEventListener(name: string)
      requires Valid()
      modifies computed, computed.bindings.Values
      ensures Valid()
      ensures forall q :: (computed.ListenersOf(q) ==
        if q == name && name in table.computedInitializers then AddStep(old(computed.ListenersOf(q)))
        else old(computed.ListenersOf(q)))
      ensures forall q :: computed.LastSet(q) == old(computed.LastSet(q))
      ensures computed.runs ==
        if name in table.computedInitializers then old(computed.RunsAfterCreating(name)) else old(computed.runs)
    {
      if name in table.computedInitializers {
        computed.AddListener(name);
      }
    }

    /** The computed-property half of `removeEventListener`
        (can-define.js:542-553). */
    method RemoveEventListener(name: string)
      requires Valid()
      modifies computed, computed.bindings.Values
      ensures Valid()
      ensures forall q :: (computed.ListenersOf(q) ==
        if q == name && name in table.computedInitializers then RemoveStep(old(computed.ListenersOf(q)))
        else old(computed.ListenersOf(q)))
      ensures forall q :: computed.LastSet(q) == old(computed.LastSet(q))
      ensures computed.runs ==
        if name in table.computedInitializers then old(computed.RunsAfterCreating(name)) else old(computed.runs)
    {
      if name in table.computedInitializers {
        computed.RemoveListener(name);
      }
    }

    /** The binding's handler (can-define.js:191-196), invoked when the
        computation's value changes: the change is re-triggered on the
        instance exactly when the computed property has listeners. */
    method ForwardChange(prop: string, newVal: Value, oldVal: Value)
      requires Valid()
      modifies this
      ensures events == old(events) +
        (if computed.ListenersOf(prop).count > 0 then [Event(prop, newVal, oldVal, batchDepth > 0)] else [])
      ensures observed == old(observed) && batchDepth == old(batchDepth)
    {
      computed.ForwardingIffListened(prop);
      if computed.Forwarding(prop) {
        events := events + [Event(prop, newVal, oldVal, batchDepth > 0)];
      }
    }
  }
}
