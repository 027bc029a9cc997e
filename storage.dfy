/** The two lazily built per-instance stores of a defined type: `this._data`,
    whose slots with a default are materialised by their first read
    (can-define.js:39-49, 505-517), and `this._computed`, whose bindings are
    created by their first access (can-define.js:50-61, 185-199). */
module Storage {
  import opened JsValue
  import opened Bindings

  /** A data slot: a property with a default starts `Uninit` and keeps the
      value its initialiser produces at the first read. */
  datatype Slot = Uninit | Init(v: Value)

  predicate NoDuplicates(s: seq<string>)
  {
    forall i, j :: 0 <= i < j < |s| ==> s[i] != s[j]
  }

  /** `this._data`. */
  class DataStore {
    /** The properties with a data initialiser. */
    const inits: set<string>
    /** The initialiser closures; a call runs the property's default provider. */
    const initialize: string -> Value
    var slots: map<string, Slot>
    /** Every run of an initialiser, in order. */
    ghost var runs: seq<string>

    ghost predicate Valid()
      reads this
    {
      && inits <= slots.Keys
      && (forall p :: p in slots && slots[p].Uninit? ==> p in inits)
      // each initialiser runs at most once, and has run exactly when its slot holds a value
      && NoDuplicates(runs)
      && (forall p :: p in runs <==> p in inits && p in slots && slots[p].Init?)
    }

    /** The value a read of `this._data[p]` returns. */
    function Stored(p: string): Value
      reads this
    {
      if p in slots then (match slots[p] case Init(v) => v case Uninit => initialize(p))
      else Undefined
    }

    /** The initialiser log after a read of `p`. */
    ghost function RunsAfterReading(p: string): seq<string>
      reads this
    {
      if p in slots && slots[p].Uninit? then runs + [p] else runs
    }

    /** The first access of `this._data` (can-define.js:42-49): one lazy slot
        per data initialiser, none of them run. */
    constructor (inits: set<string>, initialize: string -> Value)
      ensures Valid() && this.inits == inits && this.initialize == initialize && runs == []
      ensures forall p :: Stored(p) == if p in inits then initialize(p) else Undefined
    {
      this.inits := inits;
      this.initialize := initialize;
      slots := map p | p in inits :: Uninit;
      runs := [];
    }

    /** A read of `this._data[p]`: the first read of a lazy slot runs its
        initialiser and replaces the slot by the value (can-define.js:505-517);
        what is read never changes. */
    method Read(p: string) returns (v: Value)
      requires Valid()
      modifies this
      ensures Valid()
      ensures v == old(Stored(p))
      ensures forall q :: Stored(q) == old(Stored(q))
      ensures p in slots ==> slots[p].Init?
      ensures runs == old(RunsAfterReading(p))
    {
      if p in slots {
        match slots[p]
        case Init(x) =>
          v := x;
        case Uninit =>
          v := initialize(p);
          assert p !in runs;
          slots := slots[p := Init(v)];
          runs := runs + [p];
      } else {
        v := Undefined;
      }
    }

    /** `make.set.data` (can-define.js:202-206): `this._data[p] = v`. A lazy
        slot is a getter-only accessor that a strict-mode assignment cannot
        write, so the slot must have been read first. */
    method Write(p: string, v: Value)
      requires Valid()
      requires p in slots ==> slots[p].Init?
      modifies this
      ensures Valid()
      ensures forall q :: Stored(q) == if q == p then v else old(Stored(q))
      ensures p in slots && slots[p].Init?
      ensures runs == old(runs)
    {
      slots := slots[p := Init(v)];
    }
  }

  /** `this._computed`. */
  class ComputedStore {
    /** The properties with a computed initialiser. */
    const inits: set<string>
    /** Those of them that have a default value. */
    const withDefault: set<string>
    /** The default providers. */
    const initialize: string -> Value
    var bindings: map<string, ComputedBinding>
    /** Every run of a default provider, in order. */
    ghost var runs: seq<string>

    ghost predicate Valid()
      reads this, bindings.Values
    {
      && bindings.Keys <= inits
      && (forall p, q :: p in bindings && q in bindings && p != q ==> bindings[p] != bindings[q])
      && (forall p :: p in bindings ==> bindings[p].Valid())
      // each default provider runs at most once: when its binding is created
      && NoDuplicates(runs)
      && (forall p :: p in runs <==> p in bindings && p in withDefault)
    }

    /** `defaultValue && defaultValue()`: what a new computation starts from. */
    function Seed(p: string): Value
    {
      if p in withDefault then initialize(p) else Undefined
    }

    /** The computation's last-set value. */
    function LastSet(p: string): Value
      reads this, bindings.Values
    {
      if p in bindings then bindings[p].lastSet else Seed(p)
    }

    function ListenersOf(p: string): Listeners
      reads this, bindings.Values
    {
      if p in bindings then bindings[p].State() else Listeners(0, 0)
    }

    /** The binding's handler is registered on its computation. */
    predicate Forwarding(p: string)
      reads this, bindings.Values
    {
      p in bindings && bindings[p].Attached()
    }

    /** The provider log after an access of `this._computed[p]`. */
    ghost function RunsAfterCreating(p: string): seq<string>
      reads this
    {
      if p in bindings || p !in withDefault then runs else runs + [p]
    }

    /** The first access of `this._computed` (can-define.js:54-61). */
    constructor (inits: set<string>, withDefault: set<string>, initialize: string -> Value)
      ensures Valid() && bindings == map[] && runs == []
      ensures this.inits == inits && this.withDefault == withDefault && this.initialize == initialize
    {
      this.inits := inits;
      this.withDefault := withDefault;
      this.initialize := initialize;
      bindings := map[];
      runs := [];
    }

    /** The binding's handler is registered exactly while its count is
        positive. */
    lemma ForwardingIffListened(p: string)
      requires Valid()
      ensures Forwarding(p) <==> ListenersOf(p).count > 0
    {
    }

    /** `this._computed[p]`: the first access creates the binding from
        `make.compute` (can-define.js:185-199), seeded with the default value
        and with no listener; nothing observable changes. */
    method Get(p: string) returns (b: ComputedBinding)
      requires Valid() && p in inits
      modifies this
      ensures Valid() && p in bindings && b == bindings[p]
      ensures bindings.Keys == old(bindings.Keys) + {p}
      ensures forall q :: q in old(bindings) ==> bindings[q] == old(bindings[q])
      ensures p !in old(bindings) ==> fresh(b)
      ensures forall x :: x in bindings.Values ==> x in old(bindings.Values) || fresh(x)
      ensures forall q :: LastSet(q) == old(LastSet(q)) && ListenersOf(q) == old(ListenersOf(q))
      ensures runs == old(RunsAfterCreating(p))
    {
      if p !in bindings {
        Create(p);
      }
      b := bindings[p];
    }

    method Create(p: string)
      requires Valid() && p in inits && p !in bindings
      modifies this
      ensures Valid() && bindings.Keys == old(bindings.Keys) + {p}
      ensures forall q :: q in old(bindings) ==> bindings[q] == old(bindings[q])
      ensures fresh(bindings[p]) && bindings[p].lastSet == Seed(p) && bindings[p].State() == Listeners(0, 0)
      ensures runs == old(RunsAfterCreating(p))
    {
      var seed := if p in withDefault then initialize(p) else Undefined;
      var b := new ComputedBinding(seed);
      assert p !in runs;
      bindings := bindings[p := b];
      if p in withDefault {
        runs := runs + [p];
      }
    }

    /** `make.set.computed` (can-define.js:207-211): `compute(v)` makes `v`
        the last-set value. */
    method SetLastSet(p: string, v: Value)
      requires Valid() && p in inits
      modifies this, bindings.Values
      ensures Valid()
      ensures forall q :: LastSet(q) == if q == p then v else old(LastSet(q))
      ensures forall q :: ListenersOf(q) == old(ListenersOf(q))
      ensures runs == old(RunsAfterCreating(p))
    {
      var b := Get(p);
      b.SetLastSet(v);
    }

    /** The computed-property half of `addEventListener` (can-define.js:523-536). */
    method AddListener(p: string)
      requires Valid() && p in inits
      modifies this, bindings.Values
      ensures Valid()
      ensures forall q :: ListenersOf(q) == if q == p then AddStep(old(ListenersOf(q))) else old(ListenersOf(q))
      ensures forall q :: LastSet(q) == old(LastSet(q))
      ensures runs == old(RunsAfterCreating(p))
    {
      var b := Get(p);
      b.AddListener();
    }

    /** The computed-property half of `removeEventListener` (can-define.js:542-553). */
    method RemoveListener(p: string)
      requires Valid() && p in inits
      modifies this, bindings.Values
      ensures Valid()
      ensures forall q :: ListenersOf(q) == if q == p then RemoveStep(old(ListenersOf(q))) else old(ListenersOf(q))
      ensures forall q :: LastSet(q) == old(LastSet(q))
      ensures runs == old(RunsAfterCreating(p))
    {
      var b := Get(p);
      b.RemoveListener();
    }
  }
}
