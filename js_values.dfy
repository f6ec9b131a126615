/** The parts of JavaScript's value semantics that decide what the cancellation
    link does with a dedup key: whether the key is falsy, which property name a
    key value turns into when it indexes the registry object, and which names a
    plain object inherits from Object.prototype. Section numbers are those of
    ECMA-262. */
module JsValues {

  /** An integral number of magnitude below 2^53 (Number.MAX_SAFE_INTEGER is
      2^53 - 1). Every such integer is a double exactly, and Number::toString
      prints all of its decimal digits. */
  type SafeInteger = n: int | -0x20_0000_0000_0000 < n < 0x20_0000_0000_0000

  /** A value read from an operation's context object. Numbers are modelled
      when they are safe integers (and NaN, because it is falsy). `PlainObject`
      is an object whose ToString is Object.prototype.toString with no
      Symbol.toStringTag. */
  datatype Value =
    | Undefined
    | Null
    | Bool(b: bool)
    | Number(n: SafeInteger)
    | NaN
    | Str(s: string)
    | PlainObject

  /** ToBoolean (section 7.1.2): the test `!value` is true exactly when this is false. */
  predicate Truthy(v: Value) {
    match v
    case Undefined => false
    case Null => false
    case Bool(b) => b
    case Number(n) => n != 0
    case NaN => false
    case Str(s) => s != ""
    case PlainObject => true
  }

  predicate IsDigit(c: char) {
    '0' <= c <= '9'
  }

  function DigitChar(d: nat): (c: char)
    requires d < 10
    ensures IsDigit(c) && c as int - '0' as int == d
  {
    ('0' as int + d) as char
  }

  /** The decimal numeral of `n`, most significant digit first, without leading zeros. */
  function Digits(n: nat): (r: string)
    ensures |r| > 0
    ensures forall i :: 0 <= i < |r| ==> IsDigit(r[i])
    decreases n
  {
    if n < 10 then [DigitChar(n)] else Digits(n / 10) + [DigitChar(n % 10)]
  }

  /** The value of a string of decimal digits; the inverse of Digits. */
  function ParseDigits(s: string): nat
    requires forall i :: 0 <= i < |s| ==> IsDigit(s[i])
    decreases |s|
  {
    if s == [] then 0
    else
      assert IsDigit(s[|s| - 1]);
      ParseDigits(s[..|s| - 1]) * 10 + (s[|s| - 1] as int - '0' as int)
  }

  /** Number::toString (section 6.1.6.1.20) on a safe integer. */
  function NumberToString(n: SafeInteger): string {
    if n < 0 then "-" + Digits(-n) else Digits(n)
  }

  /** ToPropertyKey (section 7.1.19), through ToString (section 7.1.17): the
      property name that `object[v]` reads or writes. */
  function ToPropertyKey(v: Value): string {
    match v
    case Undefined => "undefined"
    case Null => "null"
    case Bool(b) => if b then "true" else "false"
    case Number(n) => NumberToString(n)
    case NaN => "NaN"
    case Str(s) => s
    case PlainObject => "[object Object]"
  }

  /** The property names every object created by `{}` inherits from
      Object.prototype (section 20.1.3 and, for the accessor and the legacy
      define/lookup methods, Annex B.2.2). None of them holds an object with an
      `unsubscribe` member. */
  const ObjectPrototypeMembers: set<string> := {
    "constructor", "hasOwnProperty", "isPrototypeOf", "propertyIsEnumerable",
    "toLocaleString", "toString", "valueOf", "__proto__",
    "__defineGetter__", "__defineSetter__", "__lookupGetter__", "__lookupSetter__"
  }

  /** Reading a numeral back gives the number it was printed from. */
  lemma {:induction false} DigitsRoundTrip(n: nat)
    ensures ParseDigits(Digits(n)) == n
    decreases n
  {
    var s := Digits(n);
    if n >= 10 {
      assert s[..|s| - 1] == Digits(n / 10);
      assert s[|s| - 1] == DigitChar(n % 10);
      DigitsRoundTrip(n / 10);
    }
  }

  /** Two different safe integers never name the same property, so dedup
      keys given as distinct numbers always get distinct registry slots. */
  lemma {:induction false} NumberSlotsDistinct(m: SafeInteger, n: SafeInteger)
    requires m != n
    ensures ToPropertyKey(Number(m)) != ToPropertyKey(Number(n))
  {
    var a, b := ToPropertyKey(Number(m)), ToPropertyKey(Number(n));
    if m >= 0 && n >= 0 {
      DigitsRoundTrip(m);
      DigitsRoundTrip(n);
    } else if m < 0 && n < 0 {
      DigitsRoundTrip(-m);
      DigitsRoundTrip(-n);
      assert a[1..] == Digits(-m);
      assert b[1..] == Digits(-n);
    } else if m < 0 {
      assert a[0] == '-' && IsDigit(b[0]);
    } else {
      assert IsDigit(a[0]) && b[0] == '-';
    }
  }

  /** Values of different types can still name the same property: the number 1
      and the string "1" share a slot, and so do `true` and "true". */
  lemma DistinctValuesShareSlots()
    ensures ToPropertyKey(Number(1)) == ToPropertyKey(Str("1"))
    ensures ToPropertyKey(Bool(true)) == ToPropertyKey(Str("true"))
    ensures ToPropertyKey(Number(-42)) == ToPropertyKey(Str("-42"))
  {
  }
}
