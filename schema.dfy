/** The schema compiler (can-define.js:423-503, 602-604): a raw schema object
    becomes normalised property definitions, separate from plain methods, with
    the wildcard `"*"` entry supplying every behaviour an entry leaves out. */
module Schema {
  import opened JsValue
  import DefineTypes

  /** The seven behaviour keys of a property definition. */
  datatype Behavior = Get | Set | ValueKey | ValueCtor | TypeKey | TypeCtor | Serialize

  /** The behaviour keys in the order the compiler visits them (can-define.js:423). */
  const Behaviors: seq<Behavior> := [Get, Set, ValueKey, ValueCtor, TypeKey, TypeCtor, Serialize]

  lemma BehaviorsComplete(b: Behavior)
    ensures b in Behaviors
  {
    match b
    case Get =>
    case Set =>
    case ValueKey =>
    case ValueCtor =>
    case TypeKey =>
    case TypeCtor =>
    case Serialize =>
  }

  function KeyName(b: Behavior): string
  {
    match b
    case Get => "get"
    case Set => "set"
    case ValueKey => "value"
    case ValueCtor => "Value"
    case TypeKey => "type"
    case TypeCtor => "Type"
    case Serialize => "serialize"
  }

  /** A plain object as written by the schema's author: a key may be present
      and hold `undefined`, which is not the same as being absent. */
  type Descriptor = map<string, Value>

  /** A compiled definition: the behaviour keys it holds and their values. */
  type Definition = map<Behavior, Value>

  /** A schema entry: a plain object, or any other value. */
  datatype Entry = Plain(fields: Descriptor) | Item(v: Value)

  predicate EntryTruthy(e: Entry)
  {
    e.Plain? || Truthy(e.v)
  }

  /** What `getDefinitionOrMethod` returns: a compiled definition, or the
      entry's own value when the entry is not a descriptor. */
  datatype Compiled = Def(d: Definition) | Raw(v: Value)

  /** The schema after compilation: property definitions, methods and the
      compiled wildcard. A non-plain object entry lands in `definitions` as
      itself (can-define.js:492-493), held there as a `Raw` value. */
  datatype NormalizedSchema = NormalizedSchema(
    definitions: map<string, Compiled>,
    methods: map<string, Entry>,
    defaultDefinition: Compiled)

  /** `defaultDefinition[behaviorName]`: a wildcard that compiled to a plain
      value (a number, a function) has none of the behaviour keys. */
  function DefaultBehavior(dd: Compiled, b: Behavior): Value
  {
    if dd.Def? && b in dd.d then dd.d[b] else Undefined
  }

  /** `getPropDefineBehavior` (can-define.js:426-432): the entry's own value
      when it has the key at all (`in`), else the wildcard's. */
  function GetPropDefineBehavior(b: Behavior, def: Descriptor, dd: Compiled): Value
  {
    if KeyName(b) in def then def[KeyName(b)] else DefaultBehavior(dd, b)
  }

  /** A string `type` is looked up in the registry (can-define.js:439-441). */
  function ResolveBehavior(b: Behavior, v: Value): Value
  {
    if b == TypeKey && v.Str? then DefineTypes.Lookup(v.s) else v
  }

  lemma AllBehaviors()
    ensures forall b: Behavior :: b in Behaviors
  {
    forall b: Behavior ensures b in Behaviors {
      BehaviorsComplete(b);
    }
  }

  /** The definition that forces the identity `'*'` coercion. */
  const StarDefinition: Definition := map[TypeKey := DefineTypes.StarCoercion]

  /** `makeDefinition` (can-define.js:434-449). */
  function MakeDefinition(def: Descriptor, dd: Compiled): (r: Definition)
    // every behaviour that is not `undefined` after the merge is kept, resolved
    ensures forall b :: GetPropDefineBehavior(b, def, dd) != Undefined ==>
      b in r && r[b] == ResolveBehavior(b, GetPropDefineBehavior(b, def, dd))
    // nothing else is, except the `'*'` coercion when nothing survives at all
    ensures forall b :: b in r && GetPropDefineBehavior(b, def, dd) == Undefined ==>
      r == StarDefinition
    ensures (forall b :: GetPropDefineBehavior(b, def, dd) == Undefined) ==> r == StarDefinition
    ensures r != map[]
    // a compiled `type` is never a string ...
    ensures TypeKey in r ==> !r[TypeKey].Str?
    // ... and is `undefined` only for a string the registry does not hold
    ensures forall b :: b in r && r[b] == Undefined ==>
      && b == TypeKey
      && GetPropDefineBehavior(TypeKey, def, dd).Str?
      && GetPropDefineBehavior(TypeKey, def, dd).s !in DefineTypes.RegisteredNames
  {
    // the merge loop (can-define.js:436-444): each behaviour that is not
    // `undefined` is kept, and a string `type` is resolved
    AllBehaviors();
    var merged := map b | b in Behaviors && GetPropDefineBehavior(b, def, dd) != Undefined
      :: ResolveBehavior(b, GetPropDefineBehavior(b, def, dd));
    if merged == map[] then
      assert TypeKey in StarDefinition;
      StarDefinition
    else
      merged
  }

  /** The descriptor an entry stands for (can-define.js:453-466): a string is
      `{type: s}`, a constructor is `{Type: fn}`, a function tagged as a
      coercion is `{type: fn}`, a plain object is itself, anything else is
      not a descriptor. */
  function Shorthand(value: Entry): (r: Option<Descriptor>)
    ensures value.Plain? ==> r == Some(value.fields)
    ensures value.Item? && value.v.Str? ==> r == Some(map["type" := value.v])
    ensures value.Item? && value.v.Fun? && IsConstructor(value.v.f) ==>
      r == Some(map["Type" := value.v])
    ensures value.Item? && value.v.Fun? && !IsConstructor(value.v.f) && IsDefineType(value.v.f) ==>
      r == Some(map["type" := value.v])
    ensures r.None? <==>
      value.Item? && !value.v.Str? && !(value.v.Fun? && (IsConstructor(value.v.f) || IsDefineType(value.v.f)))
  {
    match value
    case Plain(fields) => Some(fields)
    case Item(v) =>
      if v.Str? then Some(map["type" := v])
      else if v.Fun? && IsConstructor(v.f) then Some(map["Type" := v])
      else if v.Fun? && IsDefineType(v.f) then Some(map["type" := v])
      else None
  }

  /** `getDefinitionOrMethod` (can-define.js:453-472). */
  function GetDefinitionOrMethod(value: Entry, dd: Compiled): (r: Compiled)
    // a plain object is merged with the wildcard as it is
    ensures value.Plain? ==> r == Def(MakeDefinition(value.fields, dd))
    // a string names a registry coercion, found whatever the wildcard says
    ensures value.Item? && value.v.Str? ==>
      r.Def? && TypeKey in r.d && r.d[TypeKey] == DefineTypes.Lookup(value.v.s)
    // a constructor becomes the `Type`
    ensures value.Item? && value.v.Fun? && IsConstructor(value.v.f) ==>
      r.Def? && TypeCtor in r.d && r.d[TypeCtor] == value.v
    // a function tagged `canDefineType` becomes the `type`
    ensures value.Item? && value.v.Fun? && !IsConstructor(value.v.f) && IsDefineType(value.v.f) ==>
      r.Def? && TypeKey in r.d && r.d[TypeKey] == value.v
    // anything else is returned unchanged
    ensures value.Item? && !value.v.Str? && !(value.v.Fun? && (IsConstructor(value.v.f) || IsDefineType(value.v.f))) ==>
      r == Raw(value.v)
  {
    match Shorthand(value)
    case Some(def) =>
      assert value.Item? ==>
        && GetPropDefineBehavior(TypeKey, map["type" := value.v], dd) == value.v
        && GetPropDefineBehavior(TypeCtor, map["Type" := value.v], dd) == value.v;
      Def(MakeDefinition(def, dd))
    case None => Raw(value.v)
  }

  // ---- the whole schema ----

  /** The wildcard entry is used only when it is truthy (can-define.js:477-479). */
  predicate HasWildcard(entries: map<string, Entry>)
  {
    "*" in entries && EntryTruthy(entries["*"])
  }

  /** The compiled wildcard, compiled against an empty fallback. */
  function DefaultDefinitionOf(entries: map<string, Entry>): Compiled
  {
    if HasWildcard(entries) then GetDefinitionOrMethod(entries["*"], Def(map[])) else Def(map[])
  }

  /** The entries visited by the loop: the wildcard is taken out first. */
  function BodyOf(entries: map<string, Entry>): map<string, Entry>
  {
    if HasWildcard(entries) then entries - {"*"} else entries
  }

  /** An entry goes to `definitions` when it is not `constructor` and its
      compiled result is a (truthy) object (can-define.js:487-496). */
  predicate GoesToDefinitions(prop: string, e: Entry, dd: Compiled)
  {
    prop != "constructor" && (GetDefinitionOrMethod(e, dd).Def? || GetDefinitionOrMethod(e, dd).v.Obj?)
  }

  /** What `methods[prop]` receives. */
  function MethodValue(prop: string, e: Entry, dd: Compiled): Entry
  {
    if prop == "constructor" then e
    else match GetDefinitionOrMethod(e, dd)
      case Raw(v) => Item(v)
      case Def(_) => e
  }

  function DefinitionsOf(body: map<string, Entry>, dd: Compiled): map<string, Compiled>
  {
    map p | p in body && GoesToDefinitions(p, body[p], dd) :: GetDefinitionOrMethod(body[p], dd)
  }

  function MethodsOf(body: map<string, Entry>, dd: Compiled): map<string, Entry>
  {
    map p | p in body && !GoesToDefinitions(p, body[p], dd) :: MethodValue(p, body[p], dd)
  }

  /** The normalised schema `getDefinitionsAndMethods` returns. */
  function Compile(entries: map<string, Entry>): NormalizedSchema
  {
    var dd := DefaultDefinitionOf(entries);
    NormalizedSchema(DefinitionsOf(BodyOf(entries), dd), MethodsOf(BodyOf(entries), dd), dd)
  }

  /** The schema object the author passes in: `getDefinitionsAndMethods`
      deletes its `"*"` entry while it works and puts it back afterwards. */
  class SchemaObject {
    var entries: map<string, Entry>

    constructor (entries: map<string, Entry>)
      ensures this.entries == entries
    {
      this.entries := entries;
    }
  }

  /** The `canEach` loop of `getDefinitionsAndMethods` (can-define.js:486-498):
      every entry is sorted into `definitions` or `methods`. */
  method SortEntries(body: map<string, Entry>, dd: Compiled)
    returns (definitions: map<string, Compiled>, methods: map<string, Entry>)
    ensures definitions == DefinitionsOf(body, dd)
    ensures methods == MethodsOf(body, dd)
  {
    definitions, methods := map[], map[];
    var todo := body.Keys;
    while todo != {}
      invariant todo <= body.Keys
      invariant forall p :: p in definitions <==> p in body && p !in todo && GoesToDefinitions(p, body[p], dd)
      invariant forall p :: p in definitions ==> definitions[p] == GetDefinitionOrMethod(body[p], dd)
      invariant forall p :: p in methods <==> p in body && p !in todo && !GoesToDefinitions(p, body[p], dd)
      invariant forall p :: p in methods ==> methods[p] == MethodValue(p, body[p], dd)
      decreases todo
    {
      var prop :| prop in todo;
      var value := body[prop];
      if prop == "constructor" {
        methods := methods[prop := value];
      } else {
        var result := GetDefinitionOrMethod(value, dd);
        if result.Def? || result.v.Obj? {
          definitions := definitions[prop := result];
        } else {
          methods := methods[prop := Item(result.v)];
        }
      }
      todo := todo - {prop};
    }
    assert definitions.Keys == DefinitionsOf(body, dd).Keys;
    assert methods.Keys == MethodsOf(body, dd).Keys;
  }

  /** `getDefinitionsAndMethods` (can-define.js:473-503). */
  method GetDefinitionsAndMethods(defines: SchemaObject) returns (r: NormalizedSchema)
    modifies defines
    ensures r == Compile(old(defines.entries))
    ensures defines.entries == old(defines.entries)
  {
    var original := defines.entries;
    var defaultDefinition: Compiled;
    var hasDefaults := HasWildcard(defines.entries);
    var defaults: Entry;
    if hasDefaults {
      defaults := defines.entries["*"];
      defines.entries := defines.entries - {"*"};
      defaultDefinition := GetDefinitionOrMethod(defaults, Def(map[]));
    } else {
      defaultDefinition := Def(map[]);
    }
    var definitions, methods := SortEntries(defines.entries, defaultDefinition);
    if hasDefaults {
      defines.entries := defines.entries["*" := defaults];
      assert defines.entries == original;
    }
    r := NormalizedSchema(definitions, methods, defaultDefinition);
  }

  // ---- properties of the compiler ----

  /** Every entry except a truthy wildcard ends up in exactly one of
      `definitions` and `methods`. */
  lemma CompilePartitions(entries: map<string, Entry>)
    ensures Compile(entries).definitions.Keys !! Compile(entries).methods.Keys
    ensures Compile(entries).definitions.Keys + Compile(entries).methods.Keys == BodyOf(entries).Keys
    ensures HasWildcard(entries) ==>
      "*" !in Compile(entries).definitions && "*" !in Compile(entries).methods
  {
  }

  /** A `constructor` entry is always a method, kept as written. */
  lemma ConstructorIsMethod(entries: map<string, Entry>)
    requires "constructor" in entries
    ensures "constructor" !in Compile(entries).definitions
    ensures Compile(entries).methods["constructor"] == entries["constructor"]
  {
  }

  /** A compiled wildcard, when it is a definition, has a non-string `type`. */
  lemma DefaultDefinitionTypeResolved(entries: map<string, Entry>)
    ensures DefaultDefinitionOf(entries).Def? && TypeKey in DefaultDefinitionOf(entries).d ==>
      !DefaultDefinitionOf(entries).d[TypeKey].Str?
  {
  }

  /** A descriptor entry (a plain object, or a string, constructor or tagged
      function standing for a one-key descriptor) that leaves a behaviour key
      out takes that behaviour from the wildcard (can-define.js:427-431). */
  lemma WildcardFillsMissingKey(entries: map<string, Entry>, prop: string, b: Behavior)
    requires prop in BodyOf(entries) && prop != "constructor"
    requires Shorthand(entries[prop]).Some? && KeyName(b) !in Shorthand(entries[prop]).value
    requires DefaultDefinitionOf(entries).Def? && b in DefaultDefinitionOf(entries).d
    requires DefaultDefinitionOf(entries).d[b] != Undefined
    ensures prop in Compile(entries).definitions
    ensures Compile(entries).definitions[prop].Def?
    ensures b in Compile(entries).definitions[prop].d
    ensures Compile(entries).definitions[prop].d[b] == DefaultDefinitionOf(entries).d[b]
  {
    var dd := DefaultDefinitionOf(entries);
    var fields := Shorthand(entries[prop]).value;
    assert BodyOf(entries)[prop] == entries[prop];
    assert GetPropDefineBehavior(b, fields, dd) == dd.d[b];
    DefaultDefinitionTypeResolved(entries);
    assert ResolveBehavior(b, dd.d[b]) == dd.d[b];
  }

  /** A descriptor's own key (a plain object's key, or the one key a string,
      constructor or tagged function stands for) wins over the wildcard, even when it
      holds `undefined` (the key is then dropped, not filled in). */
  lemma OwnKeyWins(entries: map<string, Entry>, prop: string, b: Behavior)
    requires prop in BodyOf(entries) && prop != "constructor"
    requires Shorthand(entries[prop]).Some? && KeyName(b) in Shorthand(entries[prop]).value
    ensures prop in Compile(entries).definitions && Compile(entries).definitions[prop].Def?
    ensures var d := Compile(entries).definitions[prop].d;
      var own := Shorthand(entries[prop]).value[KeyName(b)];
      if own == Undefined then b !in d || (b == TypeKey && d == StarDefinition)
      else b in d && d[b] == ResolveBehavior(b, own)
  {
    var dd := DefaultDefinitionOf(entries);
    var fields := Shorthand(entries[prop]).value;
    assert BodyOf(entries)[prop] == entries[prop];
    assert GetPropDefineBehavior(b, fields, dd) == fields[KeyName(b)];
  }

  /** A string entry `s` compiles to a definition whose `type` is the
      registry's entry for `s` (`undefined` when unregistered, and then kept
      as an explicit `undefined`, with no error). */
  lemma StringEntryType(entries: map<string, Entry>, prop: string, s: string)
    requires prop in BodyOf(entries) && prop != "constructor"
    requires entries[prop] == Item(Str(s))
    ensures prop in Compile(entries).definitions && Compile(entries).definitions[prop].Def?
    ensures TypeKey in Compile(entries).definitions[prop].d
    ensures Compile(entries).definitions[prop].d[TypeKey] == DefineTypes.Lookup(s)
  {
    var dd := DefaultDefinitionOf(entries);
    assert BodyOf(entries)[prop] == entries[prop];
    assert GetPropDefineBehavior(TypeKey, map["type" := Str(s)], dd) == Str(s);
  }
}
