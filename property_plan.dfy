/** The accessor synthesiser, `define.property` (can-define.js:78-170): each
    compiled definition becomes a plan saying where the value is stored, how a
    written value is coerced, which default provider exists, how writes are
    dispatched and whether the property is enumerable. `define` collects the
    plans into the type's accessor table (can-define.js:25-76). */
module PropertyPlan {
  import opened JsValue
  import opened Externals
  import opened Schema
  import DefineTypes

  /** Where the value lives: `this._data[prop]` or `this._computed[prop]`. */
  datatype Storage = DataStorage | ComputedStorage

  /** One step of the coercion chain: a `type` function or a `Type` constructor. */
  datatype Coercer = TypeStep(t: Value) | CtorStep(ctor: Value)

  /** How the installed setter is layered under the coercions
      (can-define.js:141-155). */
  datatype SetterShape =
    | NotifyOnly                     // no `get`, no `set`: the change notifier alone
    | SetterOverNotify(setFn: Value)   // `set` only: the setter protocol over the notifier
    | SetterOverLastSet(setFn: Value)  // `get` and `set`: the protocol over the computation
    | RawCompute                     // `get` only: writes go straight into the computation

  /** The fast path installs only an enumerable get/set pair (can-define.js:84-92). */
  datatype Plan =
    | FastPath(enumerable: bool)
    | General(def: Definition, storage: Storage, chain: seq<Coercer>, hasDefault: bool,
              setter: SetterShape, enumerable: bool)

  /** `definition[b]`, `undefined` when the key is absent. */
  function Field(def: Definition, b: Behavior): Value
  {
    if b in def then def[b] else Undefined
  }

  /** `if (definition[b])`. */
  predicate Has(def: Definition, b: Behavior)
  {
    Truthy(Field(def, b))
  }

  /** The condition of can-define.js:84: a truthy `type`, no other key, and
      that `type` is the registry's `'*'`. */
  predicate TakesFastPath(def: Definition)
  {
    Truthy(Field(def, TypeKey)) && def.Keys <= {TypeKey} && Field(def, TypeKey) == DefineTypes.StarCoercion
  }

  /** The chain built at can-define.js:111-120 and reused at 158-163: `type`
      is applied to the raw input first, then `Type`. */
  function CoercionChain(def: Definition): seq<Coercer>
  {
    (if Has(def, TypeKey) then [TypeStep(def[TypeKey])] else [])
    + (if Has(def, TypeCtor) then [CtorStep(def[TypeCtor])] else [])
  }

  function SetterShapeOf(def: Definition): SetterShape
  {
    if Has(def, Get) && Has(def, Set) then SetterOverLastSet(def[Set])
    else if Has(def, Set) then SetterOverNotify(def[Set])
    else if !Has(def, Get) then NotifyOnly
    else RawCompute
  }

  /** `define.property`'s plan for one definition. */
  function PropertyPlan(def: Definition): (p: Plan)
    ensures p.FastPath? <==> def == StarDefinition
    // every fast-path property is enumerable (can-define.js:89)
    ensures p.FastPath? ==> p.enumerable
    ensures p.General? ==> p.def == def && p.chain == CoercionChain(def)
    // storage is computed exactly when there is a getter (can-define.js:98)
    ensures p.General? ==> (p.storage == ComputedStorage <==> Has(def, Get))
    // a default provider exists exactly when `value` or `Value` is defined (can-define.js:123)
    ensures p.General? ==> (p.hasDefault <==> Field(def, ValueKey) != Undefined || Field(def, ValueCtor) != Undefined)
    // the setter layering (can-define.js:141-155)
    ensures p.General? ==> (p.setter.SetterOverLastSet? <==> Has(def, Get) && Has(def, Set))
    ensures p.General? ==> (p.setter.SetterOverNotify? <==> !Has(def, Get) && Has(def, Set))
    ensures p.General? ==> (p.setter.NotifyOnly? <==> !Has(def, Get) && !Has(def, Set))
    ensures p.General? && (p.setter.SetterOverLastSet? || p.setter.SetterOverNotify?) ==> p.setter.setFn == def[Set]
    // writes reach the computation exactly when the value is stored there
    ensures p.General? ==> ((p.setter.SetterOverLastSet? || p.setter.RawCompute?) <==> p.storage == ComputedStorage)
    // enumerable: `serialize` when present, else only non-computed properties (can-define.js:168)
    ensures p.General? && Serialize in def ==> (p.enumerable <==> Truthy(def[Serialize]))
    ensures p.General? && Serialize !in def ==> (p.enumerable <==> !Has(def, Get))
  {
    if TakesFastPath(def) then
      assert def == StarDefinition;
      FastPath(true)
    else
      General(def,
              if Has(def, Get) then ComputedStorage else DataStorage,
              CoercionChain(def),
              Field(def, ValueKey) != Undefined || Field(def, ValueCtor) != Undefined,
              SetterShapeOf(def),
              if Serialize in def then Truthy(def[Serialize]) else !Has(def, Get))
  }

  /** The plan of a compiled entry; a non-plain object entry has none of the
      behaviour keys. */
  function PlanOf(c: Compiled): Plan
  {
    PropertyPlan(if c.Def? then c.d else map[])
  }

  // ---- coercion ----

  /** One coercion step: `make.set.type` (can-define.js:324-344) and
      `make.set.Type` (can-define.js:345-357). */
  function ApplyCoercer(host: Host, prop: string, c: Coercer, v: Value): (r: Value)
    // the `Type` wrapper passes an existing instance through, otherwise constructs one
    ensures c.CtorStep? && host.instanceOf(v, c.ctor) ==> r == v
    ensures c.CtorStep? && !host.instanceOf(v, c.ctor) ==> r == host.construct(c.ctor, v)
    // a registry coercion runs as the registry defines it; anything else is the host's
    ensures c.TypeStep? && c.t.Fun? && c.t.f.Coercion? ==> r == DefineTypes.Apply(host, c.t.f.name, v)
    ensures c.TypeStep? && !(c.t.Fun? && c.t.f.Coercion?) ==> r == host.callType(c.t, v, prop)
  {
    match c
    case TypeStep(t) =>
      if t.Fun? && t.f.Coercion? then DefineTypes.Apply(host, t.f.name, v) else host.callType(t, v, prop)
    case CtorStep(T) =>
      if host.instanceOf(v, T) then v else host.construct(T, v)
  }

  /** The chain applied left to right. */
  function Coerce(host: Host, prop: string, chain: seq<Coercer>, v: Value): Value
    decreases |chain|
  {
    if chain == [] then v else Coerce(host, prop, chain[1..], ApplyCoercer(host, prop, chain[0], v))
  }

  /** With both `type` and `Type`, a written value goes through `type` first
      and the `Type` wrapper sees the already coerced value; with only one of
      them, only that one runs; with neither, the value is unchanged. */
  lemma CoercionOrder(host: Host, prop: string, def: Definition, v: Value)
    ensures Has(def, TypeKey) && Has(def, TypeCtor) ==>
      Coerce(host, prop, CoercionChain(def), v)
        == ApplyCoercer(host, prop, CtorStep(def[TypeCtor]), ApplyCoercer(host, prop, TypeStep(def[TypeKey]), v))
    ensures Has(def, TypeKey) && !Has(def, TypeCtor) ==>
      Coerce(host, prop, CoercionChain(def), v) == ApplyCoercer(host, prop, TypeStep(def[TypeKey]), v)
    ensures !Has(def, TypeKey) && Has(def, TypeCtor) ==>
      Coerce(host, prop, CoercionChain(def), v) == ApplyCoercer(host, prop, CtorStep(def[TypeCtor]), v)
    ensures !Has(def, TypeKey) && !Has(def, TypeCtor) ==> Coerce(host, prop, CoercionChain(def), v) == v
  {
    var chain := CoercionChain(def);
    if Has(def, TypeKey) && Has(def, TypeCtor) {
      var tail := chain[1..];
      assert tail == [CtorStep(def[TypeCtor])];
      var typed := ApplyCoercer(host, prop, TypeStep(def[TypeKey]), v);
      assert Coerce(host, prop, chain, v) == Coerce(host, prop, tail, typed);
      var wrapped := ApplyCoercer(host, prop, CtorStep(def[TypeCtor]), typed);
      assert Coerce(host, prop, tail, typed) == Coerce(host, prop, tail[1..], wrapped);
      assert tail[1..] == [];
      assert Coerce(host, prop, [], wrapped) == wrapped;
    }
  }

  /** With a `Type` and no `type`, an instance of `Type` is stored as it is. */
  lemma InstancePassesThrough(host: Host, prop: string, def: Definition, v: Value)
    requires Has(def, TypeCtor) && !Has(def, TypeKey)
    requires host.instanceOf(v, def[TypeCtor])
    ensures Coerce(host, prop, CoercionChain(def), v) == v
  {
    CoercionOrder(host, prop, def, v);
  }

  // ---- default values ----

  /** `make.get.defaultValue` (can-define.js:394-408): a function `value` is
      called, a literal `value` is used as it is, otherwise `new Value()`; the
      result goes through the same coercion chain as a write. A falsy but
      defined `Value` yields `undefined`, uncoerced. */
  function InitialValue(host: Host, prop: string, def: Definition): (r: Value)
    ensures Field(def, ValueKey) != Undefined && !Field(def, ValueKey).Fun? ==>
      r == Coerce(host, prop, CoercionChain(def), Field(def, ValueKey))
    ensures Field(def, ValueKey).Fun? ==>
      r == Coerce(host, prop, CoercionChain(def), host.produce(Field(def, ValueKey)))
    ensures Field(def, ValueKey) == Undefined && Has(def, ValueCtor) ==>
      r == Coerce(host, prop, CoercionChain(def), host.constructEmpty(def[ValueCtor]))
    ensures Field(def, ValueKey) == Undefined && !Has(def, ValueCtor) ==> r == Undefined
  {
    var value := Field(def, ValueKey);
    if value != Undefined then
      Coerce(host, prop, CoercionChain(def), if value.Fun? then host.produce(value) else value)
    else if Has(def, ValueCtor) then
      Coerce(host, prop, CoercionChain(def), host.constructEmpty(def[ValueCtor]))
    else
      Undefined
  }

  // ---- the accessor table ----

  /** The type's accessor table: one plan per defined property, and the names
      that have a data-slot initialiser or a computed-binding initialiser
      (`dataInitializers`, `computedInitializers`). */
  datatype Table = Table(plans: map<string, Plan>, dataInitializers: set<string>, computedInitializers: set<string>)

  predicate HasDataInitializer(p: Plan)
  {
    p.General? && p.storage == DataStorage && p.hasDefault
  }

  predicate HasComputedInitializer(p: Plan)
  {
    p.General? && p.storage == ComputedStorage
  }

  ghost predicate WellFormed(t: Table)
  {
    && (forall p :: p in t.plans && t.plans[p].General? ==> t.plans[p] == PropertyPlan(t.plans[p].def))
    && (forall p :: p in t.dataInitializers <==> p in t.plans && HasDataInitializer(t.plans[p]))
    && (forall p :: p in t.computedInitializers <==> p in t.plans && HasComputedInitializer(t.plans[p]))
  }

  function TableOf(definitions: map<string, Compiled>): Table
  {
    var plans := map p | p in definitions :: PlanOf(definitions[p]);
    Table(plans,
          set p | p in plans && HasDataInitializer(plans[p]),
          set p | p in plans && HasComputedInitializer(plans[p]))
  }

  lemma TableOfWellFormed(definitions: map<string, Compiled>)
    ensures WellFormed(TableOf(definitions))
  {
  }

  /** The `canEach` loop of `define` (can-define.js:35-37) with
      `define.property` filling the initialiser tables (can-define.js:127-134). */
  method InstallProperties(definitions: map<string, Compiled>) returns (t: Table)
    ensures t == TableOf(definitions)
    ensures WellFormed(t)
  {
    var plans: map<string, Plan> := map[];
    var dataInitializers: set<string> := {};
    var computedInitializers: set<string> := {};
    var todo := definitions.Keys;
    while todo != {}
      invariant todo <= definitions.Keys
      invariant forall p :: p in plans <==> p in definitions && p !in todo
      invariant forall p :: p in plans ==> plans[p] == PlanOf(definitions[p])
      invariant forall p :: p in dataInitializers <==> p in plans && HasDataInitializer(plans[p])
      invariant forall p :: p in computedInitializers <==> p in plans && HasComputedInitializer(plans[p])
      decreases todo
    {
      var prop :| prop in todo;
      var plan := PlanOf(definitions[prop]);
      if HasComputedInitializer(plan) {
        computedInitializers := computedInitializers + {prop};
      } else if HasDataInitializer(plan) {
        dataInitializers := dataInitializers + {prop};
      }
      plans := plans[prop := plan];
      todo := todo - {prop};
    }
    t := Table(plans, dataInitializers, computedInitializers);
    ghost var expected := TableOf(definitions);
    assert plans == expected.plans;
    assert dataInitializers == expected.dataInitializers;
    assert computedInitializers == expected.computedInitializers;
    TableOfWellFormed(definitions);
  }

  /** `define(objPrototype, defines)`: compile the schema, then install a plan
      for every definition. */
  method Define(defines: SchemaObject) returns (schema: NormalizedSchema, t: Table)
    modifies defines
    ensures schema == Compile(old(defines.entries))
    ensures defines.entries == old(defines.entries)
    ensures t == TableOf(schema.definitions) && WellFormed(t)
  {
    schema := GetDefinitionsAndMethods(defines);
    t := InstallProperties(schema.definitions);
  }

  // ---- the compiler and the synthesiser together ----

  /** A `"*"` shorthand, and an empty descriptor, take the fast path when there
      is no wildcard; `"any"`, the other identity coercion, does not. */
  lemma ShorthandFastPath(entries: map<string, Entry>, prop: string)
    requires !HasWildcard(entries) && prop in entries && prop != "constructor"
    ensures entries[prop] == Item(Str("*")) || entries[prop] == Plain(map[]) ==>
      prop in Compile(entries).definitions && PlanOf(Compile(entries).definitions[prop]).FastPath?
    ensures entries[prop] == Item(Str("any")) ==>
      prop in Compile(entries).definitions && PlanOf(Compile(entries).definitions[prop]).General?
  {
    var dd := DefaultDefinitionOf(entries);
    assert dd == Def(map[]);
    if entries[prop] == Item(Str("*")) {
      assert GetPropDefineBehavior(TypeKey, map["type" := Str("*")], dd) == Str("*");
      AllBehaviors();
      assert MakeDefinition(map["type" := Str("*")], dd) == StarDefinition;
    } else if entries[prop] == Plain(map[]) {
      assert forall b :: GetPropDefineBehavior(b, map[], dd) == Undefined;
    } else if entries[prop] == Item(Str("any")) {
      var d := MakeDefinition(map["type" := Str("any")], dd);
      assert GetPropDefineBehavior(TypeKey, map["type" := Str("any")], dd) == Str("any");
      assert d[TypeKey] == Fun(Coercion(AnyType));
    }
  }

  /** A descriptor with a function `get` and no `serialize`, neither its own
      nor the wildcard's, is stored in a computed binding and is not
      enumerable. */
  lemma GetterIsHidden(entries: map<string, Entry>, prop: string, getter: Func)
    requires prop in BodyOf(entries) && prop != "constructor"
    requires DefaultBehavior(DefaultDefinitionOf(entries), Serialize) == Undefined
    requires entries[prop].Plain? && "serialize" !in entries[prop].fields
    requires "get" in entries[prop].fields && entries[prop].fields["get"] == Fun(getter)
    ensures prop in Compile(entries).definitions
    ensures var plan := PlanOf(Compile(entries).definitions[prop]);
      plan.General? && plan.storage == ComputedStorage && !plan.enumerable
  {
    var dd := DefaultDefinitionOf(entries);
    assert BodyOf(entries)[prop] == entries[prop];
    var fields := entries[prop].fields;
    assert GetPropDefineBehavior(Get, fields, dd) == Fun(getter);
    assert GetPropDefineBehavior(Serialize, fields, dd) == Undefined;
  }
}
