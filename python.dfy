/** The parts of Python's value semantics that the integration's projections
    rely on: decoded JSON values, truthiness, `==`, dict and list subscripts,
    `int()`, `str()` of an int, `str.lower()`, and the `filter`/comprehension
    idioms over lists. Every Python exception the projections can raise is an
    `Err` of `Result`. */
module Python {

  /** The exceptions the modelled code can raise. `AuthError` is the
      integration's own `ApiAuthError`. */
  datatype Error = KeyError | IndexError | TypeError | ValueError | AttributeError | AuthError

  datatype Result<+T> = Ok(value: T) | Err(error: Error) {
    predicate IsFailure() {
      Err?
    }

    function PropagateFailure<U>(): Result<U>
      requires Err?
    {
      Err(error)
    }

    function Extract(): T
      requires Ok?
    {
      value
    }
  }

  datatype Option<+T> = None | Some(value: T)

  /** A decoded JSON value. Python keeps `int` and `float` apart, so do we;
      floats are modelled as exact reals. */
  datatype Value =
    | Null
    | Bool(b: bool)
    | Int(i: int)
    | Float(r: real)
    | Str(s: string)
    | Arr(items: seq<Value>)
    | Obj(fields: map<string, Value>)

  type JsonObject = map<string, Value>

  /** Python's truth value (`if v:`). */
  predicate Truthy(v: Value) {
    match v
    case Null => false
    case Bool(b) => b
    case Int(n) => n != 0
    case Float(x) => x != 0.0
    case Str(s) => s != ""
    case Arr(xs) => xs != []
    case Obj(m) => m != map[]
  }

  function BoolInt(b: bool): int {
    if b then 1 else 0
  }

  /** Python's `a == b`: `bool`, `int` and `float` compare by numeric value,
      lists element-wise, dicts key-wise; values of other kinds are equal only
      to themselves. */
  predicate PyEq(a: Value, b: Value)
    decreases a
  {
    match a
    case Bool(x) => (b.Bool? && b.b == x) || (b.Int? && b.i == BoolInt(x)) || (b.Float? && b.r == BoolInt(x) as real)
    case Int(n) => (b.Int? && b.i == n) || (b.Bool? && n == BoolInt(b.b)) || (b.Float? && b.r == n as real)
    case Float(x) => (b.Float? && b.r == x) || (b.Int? && x == b.i as real) || (b.Bool? && x == BoolInt(b.b) as real)
    case Arr(xs) => b.Arr? && |xs| == |b.items| && forall k | 0 <= k < |xs| :: PyEq(xs[k], b.items[k])
    case Obj(m) => b.Obj? && m.Keys == b.fields.Keys && forall k | k in m :: PyEq(m[k], b.fields[k])
    case _ => a == b
  }

  /** Every value is `==` to itself. */
  lemma {:induction false} PyEqReflexive(a: Value)
    ensures PyEq(a, a)
    decreases a
  {
    match a
    case Arr(xs) =>
      forall k | 0 <= k < |xs| ensures PyEq(xs[k], xs[k]) { PyEqReflexive(xs[k]); }
    case Obj(m) =>
      forall k | k in m ensures PyEq(m[k], m[k]) { PyEqReflexive(m[k]); }
    case _ =>
  }

  /** Comparing with a string literal is plain string equality. */
  lemma PyEqString(a: Value, s: string)
    ensures PyEq(a, Str(s)) <==> a == Str(s)
  {
  }

  /** `v in xs` on a list: some element is `==` to `v`. */
  predicate PyIn(v: Value, xs: seq<Value>) {
    exists k :: 0 <= k < |xs| && PyEq(v, xs[k])
  }

  /** `m[key]` on a dict. */
  function Lookup(m: JsonObject, key: string): (r: Result<Value>)
    ensures r.Ok? <==> key in m
    ensures r.Ok? ==> r.value == m[key]
    ensures r.Err? ==> r.error == KeyError
  {
    if key in m then Ok(m[key]) else Err(KeyError)
  }

  /** `v[key]` on a value of any kind: only a dict can be subscripted by a
      string key; a list, string, number or None raises TypeError. */
  function Field(v: Value, key: string): (r: Result<Value>)
    ensures r.Ok? <==> v.Obj? && key in v.fields
    ensures r.Ok? ==> r.value == v.fields[key]
    ensures !v.Obj? ==> r == Err(TypeError)
    ensures v.Obj? && key !in v.fields ==> r == Err(KeyError)
  {
    if v.Obj? then Lookup(v.fields, key) else Err(TypeError)
  }

  /** Iterating a value in a `for` or `filter`: a list yields its elements. A
      number or None raises TypeError; strings and dicts are iterable in
      Python but every caller here then subscripts the element by a string
      key, which raises TypeError, so they are modelled as TypeError too. */
  function Elements(v: Value): (r: Result<seq<Value>>)
    ensures r.Ok? <==> v.Arr?
    ensures r.Ok? ==> r.value == v.items
    ensures r.Err? ==> r.error == TypeError
  {
    if v.Arr? then Ok(v.items) else Err(TypeError)
  }

  /** `xs[k]` on a list, with Python's negative indices counted from the end. */
  function PyIndex<T>(xs: seq<T>, k: int): (r: Result<T>)
    ensures r.Ok? <==> -|xs| <= k < |xs|
    ensures 0 <= k < |xs| ==> r == Ok(xs[k])
    ensures -|xs| <= k < 0 ==> r == Ok(xs[|xs| + k])
    ensures r.Err? ==> r.error == IndexError
  {
    if 0 <= k < |xs| then Ok(xs[k])
    else if -|xs| <= k < 0 then Ok(xs[|xs| + k])
    else Err(IndexError)
  }

  // ---------------------------------------------------------------------
  // Decimal text: `str(n)` and `int(s)`

  predicate IsDigit(c: char) {
    '0' <= c <= '9'
  }

  predicate AllDigits(s: string) {
    forall i :: 0 <= i < |s| ==> IsDigit(s[i])
  }

  function DigitChar(d: int): char
    requires 0 <= d < 10
  {
    ('0' as int + d) as char
  }

  function DigitValue(c: char): int
    requires IsDigit(c)
  {
    c as int - '0' as int
  }

  /** The decimal digits of `n`, most significant first, without leading zeros. */
  function NatDecimal(n: nat): string
    decreases n
  {
    if n < 10 then [DigitChar(n)] else NatDecimal(n / 10) + [DigitChar(n % 10)]
  }

  /** `str(n)` for a Python int. */
  function Decimal(n: int): string {
    if n < 0 then "-" + NatDecimal(-n) else NatDecimal(n)
  }

  /** The number a string of decimal digits denotes. */
  function DigitsValue(s: string): nat
    requires AllDigits(s)
    decreases |s|
  {
    if s == [] then 0 else DigitsValue(s[..|s| - 1]) * 10 + DigitValue(s[|s| - 1])
  }

  /** `int(s)` for an optionally signed string of ASCII decimal digits;
      `None` where Python raises ValueError. */
  function ParseInt(s: string): Option<int> {
    if |s| > 1 && (s[0] == '-' || s[0] == '+') && AllDigits(s[1..]) then
      var n: int := DigitsValue(s[1..]);
      Some(if s[0] == '-' then -n else n)
    else if |s| > 0 && AllDigits(s) then Some(DigitsValue(s))
    else None
  }

  lemma {:induction false} NatDecimalRoundTrip(n: nat)
    ensures |NatDecimal(n)| > 0 && AllDigits(NatDecimal(n))
    ensures DigitsValue(NatDecimal(n)) == n
    decreases n
  {
    if n >= 10 {
      var p := NatDecimal(n / 10);
      NatDecimalRoundTrip(n / 10);
      var s := p + [DigitChar(n % 10)];
      assert s[..|s| - 1] == p;
    }
  }

  /** `int(str(n)) == n`. */
  lemma DecimalRoundTrip(n: int)
    ensures ParseInt(Decimal(n)) == Some(n)
  {
    if n < 0 {
      NatDecimalRoundTrip(-n);
      var s := Decimal(n);
      assert s[1..] == NatDecimal(-n);
    } else {
      NatDecimalRoundTrip(n);
    }
  }

  /** Different ints print differently. */
  lemma DecimalInjective(a: int, b: int)
    ensures Decimal(a) == Decimal(b) ==> a == b
  {
    DecimalRoundTrip(a);
    DecimalRoundTrip(b);
  }

  /** `int(x)` for a float: truncation toward zero. */
  function Truncate(x: real): int {
    if x >= 0.0 then x.Floor else -((-x).Floor)
  }

  /** `int(v)`. Floats truncate toward zero, bools are 0 and 1, strings are
      parsed; None, lists and dicts raise TypeError. */
  function PyInt(v: Value): (r: Result<int>)
    ensures v.Int? ==> r == Ok(v.i)
    ensures v.Bool? ==> r == Ok(BoolInt(v.b))
    ensures v.Float? ==> r == Ok(Truncate(v.r))
    ensures v.Str? ==> (r.Ok? <==> ParseInt(v.s).Some?)
    ensures v.Str? && ParseInt(v.s).Some? ==> r == Ok(ParseInt(v.s).value)
    ensures v.Str? && ParseInt(v.s).None? ==> r == Err(ValueError)
    ensures v.Null? || v.Arr? || v.Obj? ==> r == Err(TypeError)
  {
    match v
    case Int(n) => Ok(n)
    case Bool(b) => Ok(BoolInt(b))
    case Float(x) => Ok(Truncate(x))
    case Str(s) => (match ParseInt(s) case Some(n) => Ok(n) case None => Err(ValueError))
    case _ => Err(TypeError)
  }

  /** What `range()` accepts as a bound: an int (a bool is one); anything
      else raises TypeError. */
  function RangeBound(v: Value): (r: Result<int>)
    ensures r.Ok? <==> v.Int? || v.Bool?
    ensures v.Int? ==> r == Ok(v.i)
    ensures v.Bool? ==> r == Ok(BoolInt(v.b))
    ensures r.Err? ==> r.error == TypeError
  {
    match v
    case Int(n) => Ok(n)
    case Bool(b) => Ok(BoolInt(b))
    case _ => Err(TypeError)
  }

  // ---------------------------------------------------------------------
  // str.lower() on ASCII

  function LowerChar(c: char): char {
    if 'A' <= c <= 'Z' then (c as int + 32) as char else c
  }

  /** `s.lower()`, for the ASCII letters. */
  function Lower(s: string): (r: string)
    ensures |r| == |s|
    ensures forall i :: 0 <= i < |s| ==> r[i] == LowerChar(s[i])
  {
    seq(|s|, i requires 0 <= i < |s| => LowerChar(s[i]))
  }

  // ---------------------------------------------------------------------
  // List idioms

  predicate Distinct<T(==)>(s: seq<T>) {
    forall i, j :: 0 <= i < j < |s| ==> s[i] != s[j]
  }

  /** The position of the first element satisfying `p`: what
      `list(filter(p, xs))[0]` and `xs.index(x)` pick when `p` cannot raise. */
  function FirstIndex<T>(xs: seq<T>, p: T -> bool): (r: Option<nat>)
    ensures r.Some? ==> r.value < |xs| && p(xs[r.value])
    ensures r.Some? ==> forall j :: 0 <= j < r.value ==> !p(xs[j])
    ensures r.None? <==> forall j :: 0 <= j < |xs| ==> !p(xs[j])
    decreases |xs|
  {
    if xs == [] then None
    else if p(xs[0]) then Some(0)
    else match FirstIndex(xs[1..], p)
      case None => None
      case Some(k) => Some(k + 1)
  }

  /** The position `list(filter(p, xs))[0]` picks when evaluating `p` may
      raise. `list(...)` applies `p` to every element, in order, so the first
      exception raised anywhere in the list propagates, even one raised after
      the first match; with no exception and no match, `[0]` raises
      IndexError. */
  function FirstPassing<T>(xs: seq<T>, p: T -> Result<bool>): (r: Result<nat>)
    ensures r.Ok? <==> (forall j :: 0 <= j < |xs| ==> p(xs[j]).Ok?) && (exists j :: 0 <= j < |xs| && p(xs[j]) == Ok(true))
    ensures r.Ok? ==> r.value < |xs| && p(xs[r.value]) == Ok(true)
    ensures r.Ok? ==> forall j :: 0 <= j < r.value ==> p(xs[j]) == Ok(false)
    ensures (forall j :: 0 <= j < |xs| ==> p(xs[j]) == Ok(false)) ==> r == Err(IndexError)
    ensures forall k :: 0 <= k < |xs| && p(xs[k]).Err? && (forall j :: 0 <= j < k ==> p(xs[j]).Ok?) ==> r == Err(p(xs[k]).error)
    ensures r.Err? ==> r.error == IndexError || exists k :: 0 <= k < |xs| && p(xs[k]) == Err(r.error)
  {
    match FirstIndex(xs, x => p(x).Err?)
    case Some(k) => Err(p(xs[k]).error)
    case None =>
      match FirstIndex(xs, x => p(x) == Ok(true))
      case None => Err(IndexError)
      case Some(k) =>
        assert forall j :: 0 <= j < k ==> p(xs[j]).Ok? && p(xs[j]) != Ok(true);
        assert forall j :: 0 <= j < k ==> p(xs[j]) == Ok(p(xs[j]).value) && !p(xs[j]).value;
        Ok(k)
  }

  /** `[f(x) for x in xs]` when evaluating `f` may raise: the first exception
      propagates, otherwise the results in list order. */
  function MapAll<T, U>(xs: seq<T>, f: T -> Result<U>): (r: Result<seq<U>>)
    ensures r.Ok? <==> forall j :: 0 <= j < |xs| ==> f(xs[j]).Ok?
    ensures r.Ok? ==> |r.value| == |xs| && forall j :: 0 <= j < |xs| ==> f(xs[j]) == Ok(r.value[j])
    ensures forall k :: 0 <= k < |xs| && f(xs[k]).Err? && (forall j :: 0 <= j < k ==> f(xs[j]).Ok?) ==> r == Err(f(xs[k]).error)
  {
    match FirstIndex(xs, x => f(x).Err?)
    case Some(k) => Err(f(xs[k]).error)
    case None => Ok(seq(|xs|, j requires 0 <= j < |xs| => f(xs[j]).value))
  }
}
