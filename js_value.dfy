/** JavaScript values as the property engine sees them, and the collaborators
    whose code is not part of this model. */
module JsValue {

  datatype Option<+T> = None | Some(value: T)

  /** The coercions registered by name in the coercion registry (`define.types`). */
  datatype TypeName =
    | DateType | NumberType | BooleanType | StringOrObservableType
    | HtmlBoolType | StarType | AnyType | StringType

  /** A function value: one of the registry's coercions, or a function written by
      the schema's author. For a user function the model records what the engine
      asks of it: its declared parameter count (`fn.length`), whether
      `types.isConstructor` classifies it as a constructor, and whether it carries
      `canDefineType === true`. */
  datatype Func =
    | Coercion(name: TypeName)
    | UserFn(id: nat, arity: nat, isConstructor: bool, canDefineType: bool)

  /** A JavaScript value. Numbers are integers here; objects (arrays, instances,
      plain objects used as values) are compared by reference, as `===` does. */
  datatype Value =
    | Undefined
    | Null
    | Bool(b: bool)
    | Num(n: int)
    | Str(s: string)
    | Fun(f: Func)
    | Obj(ref: nat)

  /** JavaScript truthiness (`!!v`). */
  predicate Truthy(v: Value)
  {
    match v
    case Undefined => false
    case Null => false
    case Bool(b) => b
    case Num(n) => n != 0
    case Str(s) => s != ""
    case Fun(_) => true
    case Obj(_) => true
  }

  /** `v == null`: true exactly for `null` and `undefined`. */
  predicate IsNullish(v: Value)
  {
    v.Undefined? || v.Null?
  }

  /** The declared parameter count of a function (`fn.length`); every registry
      coercion takes one parameter. */
  function Arity(f: Func): nat
  {
    match f
    case Coercion(_) => 1
    case UserFn(_, a, _, _) => a
  }

  /** `types.isConstructor(fn)`; the registry's coercions are plain functions. */
  predicate IsConstructor(f: Func)
  {
    f.UserFn? && f.isConstructor
  }

  /** `isDefineType(fn)`: the function is tagged `canDefineType === true`. */
  predicate IsDefineType(f: Func)
  {
    f.UserFn? && f.canDefineType
  }
}

/** The code the engine calls but that is not part of this model: user-written
    functions, `new`, `instanceof`, and the conversions that need floating point
    or dates. Each is a parameter of the model, a pure function of its inputs. */
module Externals {
  import opened JsValue

  datatype Host = Host(
    /** the result of a registry coercion on an input the model does not
        interpret (`date`, `stringOrObservable`, `+val` outside integer literals) */
    foreign: (TypeName, Value) -> Value,
    /** `'' + v` for a function or an object */
    objectString: Value -> string,
    /** `type.call(instance, v, prop)` for a `type` that is not a registry coercion */
    callType: (Value, Value, string) -> Value,
    /** `v instanceof T` */
    instanceOf: (Value, Value) -> bool,
    /** `new T(v)` */
    construct: (Value, Value) -> Value,
    /** `new Value()` */
    constructEmpty: Value -> Value,
    /** `value.call(instance)` for a function-valued `value` default */
    produce: Value -> Value,
    /** the memoized computation's current value for getter `get` and last-set value */
    evaluate: (Value, Value) -> Value
  )
}
