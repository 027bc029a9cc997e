/** The coercion registry (`define.types`, can-define.js:606-676): named
    functions that normalise a written value before it is stored. */
module DefineTypes {
  import opened JsValue
  import opened Externals

  /** The registry's `compute` entry is an object (a nested `get`/`set` schema),
      not a function. Reference 0 is reserved for it: no object created by
      user code or by the host is given reference 0, so nothing else is
      `===` to it. */
  const ComputeTypeObject: Value := Obj(0)

  /** The registry key under which each coercion is stored. */
  function NameOf(t: TypeName): string
  {
    match t
    case DateType => "date"
    case NumberType => "number"
    case BooleanType => "boolean"
    case StringOrObservableType => "stringOrObservable"
    case HtmlBoolType => "htmlbool"
    case StarType => "*"
    case AnyType => "any"
    case StringType => "string"
  }

  const RegisteredNames: set<string> :=
    {"date", "number", "boolean", "stringOrObservable", "htmlbool", "*", "any", "string", "compute"}

  /** `define.types[name]`: a name the registry does not hold gives `undefined`. */
  function Lookup(name: string): (r: Value)
    ensures r == Undefined <==> name !in RegisteredNames
    ensures r.Fun? ==> r.f.Coercion? && NameOf(r.f.name) == name
    ensures r != Undefined && !r.Fun? ==> name == "compute" && r == ComputeTypeObject
  {
    if name == "date" then Fun(Coercion(DateType))
    else if name == "number" then Fun(Coercion(NumberType))
    else if name == "boolean" then Fun(Coercion(BooleanType))
    else if name == "stringOrObservable" then Fun(Coercion(StringOrObservableType))
    else if name == "htmlbool" then Fun(Coercion(HtmlBoolType))
    else if name == "*" then Fun(Coercion(StarType))
    else if name == "any" then Fun(Coercion(AnyType))
    else if name == "string" then Fun(Coercion(StringType))
    else if name == "compute" then ComputeTypeObject
    else Undefined
  }

  /** Looking a coercion up by its own key finds that coercion. */
  lemma LookupNameOf(t: TypeName)
    ensures Lookup(NameOf(t)) == Fun(Coercion(t))
  {
  }

  /** The identity `'*'` coercion, the one a definition without behaviours gets. */
  const StarCoercion: Value := Fun(Coercion(StarType))

  // ---- decimal text, for `'' + n` and `+s` on integers ----

  predicate IsDigit(c: char)
  {
    '0' <= c <= '9'
  }

  predicate AllDigits(s: string)
  {
    forall k :: 0 <= k < |s| ==> IsDigit(s[k])
  }

  function DigitChar(d: nat): (c: char)
    requires d < 10
    ensures IsDigit(c) && c as int - '0' as int == d
  {
    (('0' as int) + d) as char
  }

  /** The shortest decimal spelling of a natural number. */
  function NatDigits(n: nat): (s: string)
    ensures |s| >= 1 && AllDigits(s)
    decreases n
  {
    if n < 10 then [DigitChar(n)] else NatDigits(n / 10) + [DigitChar(n % 10)]
  }

  /** `'' + n` for an integer `n`. */
  function Decimal(i: int): string
  {
    if i < 0 then "-" + NatDigits(-i) else NatDigits(i)
  }

  /** An optional minus sign followed by at least one digit. */
  predicate IsIntegerLiteral(s: string)
  {
    |s| > 0 && if s[0] == '-' then |s| > 1 && AllDigits(s[1..]) else AllDigits(s)
  }

  function DigitsValue(s: string): nat
    requires AllDigits(s)
  {
    if s == [] then 0
    else DigitsValue(s[..|s| - 1]) * 10 + (s[|s| - 1] as int - '0' as int)
  }

  /** `+s` for an integer literal `s`. */
  function ParseInteger(s: string): int
    requires IsIntegerLiteral(s)
  {
    if s[0] == '-' then -(DigitsValue(s[1..]) as int) else DigitsValue(s)
  }

  lemma {:induction false} NatDigitsRoundTrip(n: nat)
    ensures DigitsValue(NatDigits(n)) == n
    decreases n
  {
    if n >= 10 {
      var s := NatDigits(n);
      assert s[..|s| - 1] == NatDigits(n / 10);
      NatDigitsRoundTrip(n / 10);
    }
  }

  /** Reading back the decimal spelling of an integer gives the integer. */
  lemma DecimalRoundTrip(i: int)
    ensures IsIntegerLiteral(Decimal(i)) && ParseInteger(Decimal(i)) == i
  {
    if i < 0 {
      assert Decimal(i)[1..] == NatDigits(-i);
      NatDigitsRoundTrip(-i);
    } else {
      NatDigitsRoundTrip(i);
    }
  }

  // ---- the coercions ----

  /** `boolean` (can-define.js:624-629): false for `'false'`, `'0'` and every
      falsy input, true otherwise. */
  function BooleanCoercion(v: Value): (r: Value)
    ensures r.Bool?
    ensures r.b <==> Truthy(v) && v != Str("false") && v != Str("0")
    ensures v.Bool? ==> r == v
    ensures IsNullish(v) ==> r == Bool(false)
    ensures v.Str? ==> (r.b <==> v.s != "" && v.s != "false" && v.s != "0")
  {
    if v == Str("false") || v == Str("0") || !Truthy(v) then Bool(false) else Bool(true)
  }

  /** `htmlbool` (can-define.js:645-647): every string, the empty one included,
      is true; anything else is its truthiness. */
  function HtmlBoolCoercion(v: Value): (r: Value)
    ensures r.Bool?
    ensures v.Str? ==> r == Bool(true)
    ensures !v.Str? ==> r == Bool(Truthy(v))
    ensures v.Bool? ==> r == v
    ensures IsNullish(v) ==> r == Bool(false)
  {
    Bool(v.Str? || Truthy(v))
  }

  /** `string` (can-define.js:654-659): `null` and `undefined` pass through,
      anything else becomes its text. */
  function StringCoercion(host: Host, v: Value): (r: Value)
    ensures IsNullish(v) ==> r == v
    ensures !IsNullish(v) ==> r.Str?
    ensures v.Str? ==> r == v
    ensures v.Bool? ==> r == Str(if v.b then "true" else "false")
    ensures v.Num? ==> r.Str? && IsIntegerLiteral(r.s)
  {
    match v
    case Undefined => v
    case Null => v
    case Bool(b) => Str(if b then "true" else "false")
    case Num(n) => DecimalRoundTrip(n); Str(Decimal(n))
    case Str(_) => v
    case Fun(_) => Str(host.objectString(v))
    case Obj(_) => Str(host.objectString(v))
  }

  /** `number` (can-define.js:618-623): `null` and `undefined` pass through;
      otherwise `+val`, interpreted here for integers, booleans, the empty
      string and integer literals, and left to the host for the rest. */
  function NumberCoercion(host: Host, v: Value): (r: Value)
    ensures IsNullish(v) ==> r == v
    ensures v.Num? ==> r == v
    ensures v.Bool? ==> r == Num(if v.b then 1 else 0)
    ensures v == Str("") ==> r == Num(0)
    ensures v.Str? && IsIntegerLiteral(v.s) ==> r == Num(ParseInteger(v.s))
  {
    match v
    case Undefined => v
    case Null => v
    case Bool(b) => Num(if b then 1 else 0)
    case Num(_) => v
    case Str(s) =>
      if s == "" then Num(0)
      else if IsIntegerLiteral(s) then Num(ParseInteger(s))
      else host.foreign(NumberType, v)
    case Fun(_) => host.foreign(NumberType, v)
    case Obj(_) => host.foreign(NumberType, v)
  }

  /** Applying the registry coercion `t` to `v`. `'*'` and `any` are the
      identity; `date` and `stringOrObservable` are left to the host, except
      that `stringOrObservable` hands a non-object to `string`
      (can-define.js:630-640). */
  function Apply(host: Host, t: TypeName, v: Value): (r: Value)
    ensures t == StarType || t == AnyType ==> r == v
    ensures t == BooleanType ==> r == BooleanCoercion(v)
    ensures t == HtmlBoolType ==> r == HtmlBoolCoercion(v)
    ensures t == StringType ==> r == StringCoercion(host, v)
    ensures t == NumberType ==> r == NumberCoercion(host, v)
  {
    match t
    case StarType => v
    case AnyType => v
    case BooleanType => BooleanCoercion(v)
    case HtmlBoolType => HtmlBoolCoercion(v)
    case StringType => StringCoercion(host, v)
    case NumberType => NumberCoercion(host, v)
    case StringOrObservableType =>
      if v.Obj? then host.foreign(StringOrObservableType, v) else StringCoercion(host, v)
    case DateType => host.foreign(DateType, v)
  }

  /** Writing an integer through `string` and reading it back through `number`
      gives the integer back. */
  lemma NumberAfterString(host: Host, i: int)
    ensures NumberCoercion(host, StringCoercion(host, Num(i))) == Num(i)
  {
    DecimalRoundTrip(i);
  }

  /** `boolean` and `htmlbool` are idempotent: a coerced value coerces to itself. */
  lemma BooleanCoercionsIdempotent(v: Value)
    ensures BooleanCoercion(BooleanCoercion(v)) == BooleanCoercion(v)
    ensures HtmlBoolCoercion(HtmlBoolCoercion(v)) == HtmlBoolCoercion(v)
  {
  }

  /** `string` is idempotent. */
  lemma StringCoercionIdempotent(host: Host, v: Value)
    ensures StringCoercion(host, StringCoercion(host, v)) == StringCoercion(host, v)
  {
  }
}
