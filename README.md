# can-define: a Dafny model of the declarative property engine

`can-define` turns a schema object into accessor pairs on a shared prototype.
A schema maps each property name to a behaviour descriptor. The accessors
combine value storage, type coercion, computed values and change events.

The model covers the engine in `can-define.js`:

- **The coercion registry** (`define.types`): `boolean`, `htmlbool`,
  `string`, `number`, `'*'` and `any`, over a small JavaScript value type
  (`undefined`, `null`, booleans, integers, strings, functions, objects by
  reference). Module `DefineTypes` in `define_types.dfy`, values in
  `js_value.dfy`.
- **The schema compiler** (`getDefinitionsAndMethods`,
  `getDefinitionOrMethod`, `makeDefinition`, `getPropDefineBehavior`,
  `isDefineType`). It sorts entries into definitions and methods and merges
  the seven behaviour keys against the `"*"` wildcard. When no behaviour key
  survives the merge, it falls back to the `'*'` coercion. Module `Schema`.
- **The accessor synthesiser** (`define.property`, `define`). A definition
  becomes a `Plan`: the fast path, or a general plan. A general plan gives the
  storage mode, the coercion chain, whether a default provider exists, the
  setter layering and the enumerable flag. `define` collects the plans and the
  two initialiser tables into a `Table`. Module `PropertyPlan`.
- **Per-instance storage** (`replaceWith`, the `_data` and `_computed`
  stores). A data slot with a default starts as `Uninit` and is materialised
  by its first read. A computed binding is created by its first access.
  Module `Storage`.
- **Listener reference counting** on computed bindings
  (`addEventListener`/`removeEventListener`). Module `Bindings`.
- **The runtime** (`make.set.events`, `make.set.setter`, the installed
  setter and getter, the forwarding handler). Class `Runtime.Instance` keeps
  three logs for the external collaborators: the events handed to
  `canBatch.trigger`, the reads reported to `ObserveInfo.observe`, and a
  batch-depth counter for `canBatch.start`/`stop`.

Code the engine calls but does not contain is a parameter of the model.
This covers user functions, `new`, `instanceof`, the float and date
conversions and the memoised computation. These are the fields of the
`Externals.Host` record. A run of a user `set` is described by a
`Runtime.SetterRun` value: the value it passed to `resolve` before returning,
if any, and the value it returned. The setter's declared parameter count is
recorded on the function value (`JsValue.Func`).

Behaviour worth knowing:

- An unregistered string `type` is not an error. `makeDefinition` stores
  `type: undefined` (can-define.js:439-442). The key is present, so the
  definition is not empty and does not fall back to `'*'`. No coercion runs,
  because the installed setter only wraps a truthy `type`.
- A synchronous `resolve(v)` is the only write for a setter of any arity
  (can-define.js:249-250). Arity decides only when `resolve` was not called
  and `undefined` was returned.
- With a paired `get`, the baseline that suppresses a returned value is the
  computation's last-set value (can-define.js:142, 257), not the getter's
  current output. Without a getter, a returned value always goes to the
  change notifier, which suppresses it when it equals the stored value.
- The change notifier emits `{type: prop, target}` with `[newVal, current]`
  and nothing else. `make.set.events` is handed an event-type function
  (can-define.js:88, 147, 154) but never calls it (can-define.js:212-224), so
  `make.eventType` has no effect and is not modelled.
- Listener counting: a remove at count 0 drives `count` to -1, and the add
  that brings it back to 0 does not register the handler. So "handler
  registered exactly when `count > 0`" holds for every sequence of adds and
  removes, not only for sequences where removes never outnumber adds.

## Model

| member | source | states |
|---|---|---|
| DefineTypes.Lookup | can-define.js:606-676 | `define.types[name]` is `undefined` exactly for names the registry does not hold as its own keys. A registered coercion is found under its own key. `compute` is the one non-function entry. |
| DefineTypes.LookupNameOf | can-define.js:606-659 | Looking up each coercion's key finds that coercion. |
| DefineTypes.BooleanCoercion | can-define.js:624-629 | `boolean` yields a boolean. It is true exactly for truthy input other than `'false'` and `'0'`. Booleans pass through and `null`/`undefined` give false. |
| DefineTypes.HtmlBoolCoercion | can-define.js:641-647 | `htmlbool` is true for every string, `""` included, and the input's truthiness otherwise. |
| DefineTypes.StringCoercion | can-define.js:654-659 | `string` returns `null`/`undefined` unchanged and text for anything else. Strings pass through, booleans spell `"true"`/`"false"`, and integers become integer literals. |
| DefineTypes.NumberCoercion | can-define.js:618-623 | `number` returns `null`/`undefined` unchanged. Integers pass through, booleans give 1/0, `""` gives 0, and an integer literal gives its value. |
| DefineTypes.Apply | can-define.js:606-659 | `'*'` and `any` are the identity. The other named coercions behave as their own functions state. |
| DefineTypes.NatDigitsRoundTrip | can-define.js:654-659 | Reading back the decimal spelling of a natural number gives the number. |
| DefineTypes.DecimalRoundTrip | can-define.js:618-659 | `'' + i` is an integer literal, and `+` of it is `i`. |
| DefineTypes.NumberAfterString | can-define.js:618-659 | An integer written through `string` and then `number` comes back unchanged. |
| DefineTypes.BooleanCoercionsIdempotent | can-define.js:624-647 | `boolean` and `htmlbool` are idempotent. |
| DefineTypes.StringCoercionIdempotent | can-define.js:654-659 | `string` is idempotent. |
| Schema.MakeDefinition | can-define.js:434-449 | Every behaviour defined after the merge is kept, resolved. Nothing else is kept, except that `{type: '*'}` replaces an empty result. The result is never empty. A compiled `type` is never a string, and is `undefined` only for an unregistered name. |
| Schema.Shorthand | can-define.js:453-466 | A string becomes `{type: s}` and a constructor becomes `{Type: fn}`. A function tagged `canDefineType` becomes `{type: fn}` and a plain object is itself. Exactly the other values are not descriptors. |
| Schema.GetDefinitionOrMethod | can-define.js:453-472 | A plain object is merged with the wildcard as it is. A string `s` gives a definition whose `type` is the registry's entry for `s`. A constructor gives a definition whose `Type` is that constructor. A function tagged `canDefineType` gives a definition whose `type` is that function. Any other value is returned unchanged. |
| Schema.SortEntries | can-define.js:486-498 | The loop puts each entry in `definitions` when it is not `constructor` and compiles to an object, and in `methods` otherwise. |
| Schema.GetDefinitionsAndMethods | can-define.js:473-503 | The result is the compiled schema of the input. The caller's schema object, including its `"*"` entry, is the same afterwards as before. |
| Schema.CompilePartitions | can-define.js:477-498 | `definitions` and `methods` are disjoint and together hold every entry except a truthy wildcard. The wildcard appears in neither. |
| Schema.ConstructorIsMethod | can-define.js:487-489 | A `constructor` entry always goes to `methods`, as written. |
| Schema.DefaultDefinitionTypeResolved | can-define.js:477-482 | A compiled wildcard's `type` is never a string. |
| Schema.WildcardFillsMissingKey | can-define.js:426-468 | Any descriptor entry that lacks a behaviour key gets the wildcard's value for it. This covers a plain object, and a string, constructor or `canDefineType` function, each of which stands for a one-key descriptor. |
| Schema.OwnKeyWins | can-define.js:426-468 | For any descriptor entry, its own key wins over the wildcard. An own `undefined` drops the key instead of inheriting it. |
| Schema.StringEntryType | can-define.js:439-456 | A string entry compiles to a definition whose `type` is the registry's entry for that string, `undefined` when unregistered (no error). |
| PropertyPlan.PropertyPlan | can-define.js:78-170 | The fast path is taken exactly for `{type: '*'}` and is always enumerable. Storage is computed exactly when `get` is truthy. A default provider exists exactly when `value` or `Value` is defined. The setter layer is get+set, set-only, neither, or get-only. A general property is enumerable as `"serialize" in def ? !!serialize : !get`. |
| PropertyPlan.ApplyCoercer | can-define.js:324-357 | The `Type` wrapper passes an instance of `Type` through and otherwise constructs one. A registry `type` runs as the registry defines it. |
| PropertyPlan.CoercionOrder | can-define.js:110-120 | On a write, `type` runs on the raw input first and `Type` on its result. With only one of them, only that one runs. With neither, the value is unchanged. |
| PropertyPlan.InstancePassesThrough | can-define.js:345-357 | With a `Type` and no `type`, an instance of `Type` is stored as it is. |
| PropertyPlan.InitialValue | can-define.js:394-408 | A function `value` is called, a literal `value` is used as is, and otherwise `new Value()` is used. Each result goes through the write coercion chain. With neither, the result is `undefined`. |
| PropertyPlan.TableOfWellFormed | can-define.js:127-134 | The table built from the definitions is well formed. Every general plan is the plan of its definition. Data initialisers are the data plans with a default, and computed initialisers are the computed plans. |
| PropertyPlan.InstallProperties | can-define.js:35-37 | The loop over definitions builds that table. |
| PropertyPlan.Define | can-define.js:25-76 | `define` compiles the schema, leaves the caller's schema unchanged and installs the table of the compiled definitions. |
| PropertyPlan.ShorthandFastPath | can-define.js:84-92 | Without a wildcard, a `"*"` shorthand and an empty descriptor take the fast path. `"any"`, though also the identity, does not. |
| PropertyPlan.GetterIsHidden | can-define.js:98-168 | A descriptor with a function `get` and no `serialize`, neither its own nor one inherited from the wildcard, is stored in a computed binding and is not enumerable. This holds with or without a wildcard. |
| Bindings.AddStep | can-define.js:523-534 | Add increments `count`. It registers the handler only when `count` was 0. |
| Bindings.RemoveStep | can-define.js:543-553 | Remove decrements `count`. It unregisters the handler only when `count` was 1. |
| Bindings.StepConsistent | can-define.js:523-553 | Add and remove preserve "handler registered once exactly when `count > 0`". |
| Bindings.ReplayFrom | can-define.js:523-557 | From a consistent state, any sequence of adds and removes changes `count` by adds minus removes and stays consistent. |
| Bindings.ListenerRefcount | can-define.js:523-557 | From a fresh binding, `count` equals adds minus removes. The handler is registered (once) exactly when that difference is positive. |
| Bindings.ComputedBinding.constructor | can-define.js:185-198 | A new binding starts from the default value (or `undefined`), with count 0 and no handler registered. |
| Bindings.ComputedBinding.AddListener | can-define.js:525-534 | Performs an add step, keeps consistency, and leaves the last-set value unchanged. |
| Bindings.ComputedBinding.RemoveListener | can-define.js:544-553 | Performs a remove step, keeps consistency, and leaves the last-set value unchanged. |
| Bindings.ComputedBinding.SetLastSet | can-define.js:207-211 | Writing to the computation sets its last-set value. |
| Storage.DataStore.constructor | can-define.js:42-49 | The first access of `_data` makes one lazy slot per data initialiser. It runs none of them, and each property reads as its default. |
| Storage.DataStore.Read | can-define.js:505-517 | A read returns the stored value and changes no property's value. A lazy slot becomes materialised, and its initialiser is logged once. |
| Storage.DataStore.Write | can-define.js:202-206 | A write to a materialised slot stores the value and changes no other property. |
| Storage.ComputedStore.constructor | can-define.js:54-61 | The first access of `_computed` creates no binding and runs no default provider. |
| Storage.ComputedStore.ForwardingIffListened | can-define.js:523-553 | A computed property's handler is registered exactly while its listener count is positive. |
| Storage.ComputedStore.Get | can-define.js:185-199 | The first access creates a fresh binding. No last-set value or listener state changes. The default provider runs at most once per property. |
| Storage.ComputedStore.Create | can-define.js:185-199 | A new binding is seeded with the default and has no listeners. |
| Storage.ComputedStore.SetLastSet | can-define.js:207-211 | Only that property's last-set value changes. |
| Storage.ComputedStore.AddListener | can-define.js:523-536 | An add step on that property's binding. Nothing else changes. |
| Storage.ComputedStore.RemoveListener | can-define.js:542-553 | A remove step on that property's binding. Nothing else changes. |
| Runtime.SetterWrite | can-define.js:249-318 | Setter decision table, checked in order. A synchronous `resolve(v)` writes `v`. Otherwise a defined return value is written, except with a getter when it equals the baseline. Otherwise arity 0 writes the input, and arity 1 writes `undefined` without a getter and nothing with one. Arity 2 or more writes nothing. |
| Runtime.GetterSetterAvoidsFeedback | can-define.js:252-261 | With a getter and no `resolve`, the protocol writes back the baseline only for a zero-parameter setter handed that same value. |
| Runtime.SetterWithoutGetterWrites | can-define.js:286-317 | Without a getter and without `resolve`, something is written exactly when the setter returned a value or declared at most one parameter. |
| Runtime.WellFormedShape | can-define.js:98-155 | In an installed table, computed storage has a getter. Writes reach the computation exactly for computed storage. |
| Runtime.TargetMatchesStorage | can-define.js:98-155 | A write lands in the store the property reads from. |
| Runtime.WithoutSetterEveryWriteLands | can-define.js:151-155 | Without a user `set`, every write reaches its store. |
| Runtime.ResolvedValueWins | can-define.js:237-250 | When the setter calls `resolve` synchronously, the stored value does not depend on the assigned value, and a write always happens. |
| Runtime.Instance.constructor | can-define.js:39-61 | A new instance has empty logs and batch depth 0. Data properties with a default read as their default value. Computations start from their default. No default provider has run. |
| Runtime.Instance.ReadData | can-define.js:373-378 | The non-observing read returns the stored value and changes no value. |
| Runtime.Instance.GetData | can-define.js:409-414 | The observing read also appends the property to the observed-reads log. |
| Runtime.Instance.Notify | can-define.js:212-224 | The change notifier. When the new value differs (`!==`) from the current one, it stores the value and appends exactly one event `[newVal, current]`. Otherwise storage and the event log are unchanged. The slot is materialised first. |
| Runtime.Instance.ReadLastSet | can-define.js:385-389 | Reads the computation's last-set value and changes nothing observable. |
| Runtime.Instance.SetComputed | can-define.js:207-211 | Only that property's last-set value changes. |
| Runtime.Instance.ReadComputed | can-define.js:379-384 | Returns the computation's value for the getter and the last-set value. |
| Runtime.Instance.SetterOverData | can-define.js:225-323 | The setter protocol without a getter stores what the decision table writes. It emits one event only when that differs from the current value. |
| Runtime.Instance.SetterOverComputed | can-define.js:225-323 | The setter protocol with a getter sets the last-set value to what the decision table writes, with the last-set value as baseline. |
| Runtime.Instance.BatchedSetterOverData | can-define.js:237-250 | The set-only protocol inside one batch. Its events are batched and the batch depth is restored. |
| Runtime.Instance.BatchedSetterOverComputed | can-define.js:237-250 | The get+set protocol inside one batch. The batch depth is restored. |
| Runtime.Instance.WriteLayer | can-define.js:137-155 | The plan's setter layer sends the converted value where `LayerTarget` says. |
| Runtime.Instance.Write | can-define.js:137-163 | `obj[prop] = v`. The fast path stores `v` as is. Otherwise the coerced value follows the setter layer, and the one event is emitted iff the stored value changes. The batch depth after equals the depth before. A data default is materialised before the write, and a computed default provider runs only if the write creates the binding. |
| Runtime.Instance.Read | can-define.js:164-169 | `obj[prop]` reads the data slot (reported as observed) or the computation. No value changes and no event is emitted. The first read materialises a data default, or creates the computed binding and runs its default provider, and only that read does. |
| Runtime.Instance.ResolveLater | can-define.js:240-247 | A late `resolve(v)` stores `v` through the notifier or into the computation, without type conversion. |
| Runtime.Instance.AddEventListener | can-define.js:523-537 | A listener on a computed name performs an add step on its binding. Other names leave the counts unchanged. A default provider runs only if the binding is created here. |
| Runtime.Instance.RemoveEventListener | can-define.js:543-556 | A listener removed from a computed name performs a remove step. Other names leave the counts unchanged. A default provider runs only if the binding is created here. |
| Runtime.Instance.ForwardChange | can-define.js:191-196 | A change of the computation is re-triggered on the instance exactly when the computed property has listeners. |

## Left out

- `date`, `stringOrObservable` on objects, and `number` on non-integer text, on functions and on objects: these need dates, floats, `valueOf`/`toString` conversion of objects (`+[]` is 0, `+[5]` is 5, `+{}` is NaN) or foreign list and map types. Their results come from `Host.foreign`.
- The `compute` entry of the registry (a get/set object): it is only a registry value here (`DefineTypes.ComputeTypeObject`).
- Object-valued `Type`: `make.set.Type` calls `define.constructor` (can-define.js:348). `define` is a function, so that is the global `Function`. `Function` applied to a plain object compiles the text `[object Object]` and throws a `SyntaxError`, so `define` throws while it builds the setter (can-define.js:116). The model does not raise this error.
- Object-valued `type` (a nested schema, including the registry's `compute` entry): `make.set.type` builds a constructor with `define.Constructor` (can-define.js:327-337). That recursion is not modelled. The host's `callType` stands for it.
- `can-compute`: the memoised computation is its last-set value plus `Host.evaluate`. Recomputation and dependency tracking are not modelled. `ForwardChange` stands for its change event.
- `canBatch`: events are logged with a flag saying whether a batch was open. Queuing and delivery at the outermost `stop` are not modelled.
- The base `can-event` mixin (`addAndSetup`, `removeAndTeardown`) is not modelled. Only the computed-binding counting that precedes it is.
- `define.setup`: `CID`, `Object.seal` and the assignment of initial values are not modelled. Initial values are ordinary `Write` calls. `define.Constructor` and `props()` (for-in reflection) are not modelled.
- The development-only warning timer for setters that neither return nor resolve.
- `Object.defineProperty` mechanics: accessors are the plans of a `Table`. The `_data`/`_computed` stores are created with the instance instead of on first access, which no access can distinguish.
- Runtime.SetterWrite: models one synchronous `resolve` per setter run. Writes a user `set` makes to other properties are separate `Write` calls, not interleaved with the protocol.
- User functions that throw: a `set`, `get`, `type`, `Type` or `value` that throws is not modelled, since `Runtime.SetterRun` and the host functions always return. In the source, an error thrown by a user `set` escapes after `canBatch.start()` with no `finally` (can-define.js:236-239), so `stop` never runs and the batch stays open. The "batch depth restored" clauses of `Runtime.Instance.Write`, `BatchedSetterOverData` and `BatchedSetterOverComputed` hold only for setters that return.
- NaN and other floats: numbers are integers, so `NaN !== NaN` (an event on every NaN write) is not modelled.
- DefineTypes.StringCoercion, DefineTypes.NumberCoercion and DefineTypes.NumberAfterString: their facts about integers hold only for integers below 1e21 in magnitude and within 2^53. JavaScript spells 1e21 and larger in exponent notation (`'' + 1e21` is `"1e+21"`) and loses integer precision beyond 2^53. The model's numbers are unbounded integers.
- DefineTypes.Lookup: `define.types[name]` walks the prototype chain, so `"toString"`, `"valueOf"`, `"constructor"` and the other `Object.prototype` names find inherited functions. The model gives `undefined` for every unregistered name. `{x: "toString"}` therefore stores a written 5 unconverted, where the source stores `"[object Number]"`. In the same way, PropertyPlan.PlanOf and Schema.DefaultBehavior treat a non-plain object used as a descriptor or wildcard as having none of the seven behaviour keys, own or inherited. In the source, such an object's keys are read, both its own and inherited ones. A `Map`, for example, inherits `get` and `set`, and an object whose constructor sets `this.value = 5` gives its property a default.
- PropertyPlan.ApplyCoercer: `new Type(v)` is the host's pure function of `Type` and `v`, not a freshly allocated object. In the source, writing the same non-instance raw value twice to a `{Type: T}` property builds two different objects, so the second write emits an event. In the model the second write is silent.
- PropertyPlan.InitialValue: `new Value()` and a `value` producer are pure host functions. So every instance gets the same default object, where the source gives each instance its own. A producer cannot see the instance, so one that reads other properties, and the slot materialisation such a read triggers, are not modelled.
- `make.eventType.data` and `make.eventType.computed` are handed to the change notifier but never called, so they have no effect and are not modelled.
