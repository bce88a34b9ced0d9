/**
 Python's three numeric types as they meet in the converter: `int`, `float`
 and `decimal.Decimal`. A number is its runtime type plus its value; the value
 is kept exact, so binary-float rounding is not part of the model.
 */
module Numbers {
  import opened Wrappers

  /** The runtime type of a rate or an amount. */
  datatype Kind = Int | Float | Dec

  datatype Num = Num(kind: Kind, value: real)

  /** A Python `int` has no fractional part. */
  predicate WellTyped(n: Num) {
    n.kind == Int ==> n.value == n.value.Floor as real
  }

  /** The numbers Python can hold. */
  type Number = n: Num | WellTyped(n) witness Num(Int, 0.0)

  /**
   A JSON number in a response body: an integer literal, or one with a
   fraction or exponent part.
   */
  datatype Literal = IntLiteral(i: int) | FracLiteral(r: real)

  function LiteralValue(lit: Literal): real {
    match lit
    case IntLiteral(i) => i as real
    case FracLiteral(r) => r
  }

  /**
   Decoding one JSON number. Both `response.json()` and
   `json.loads(text, use_decimal=True)` keep integer literals as `int`; only
   fractional literals become `Decimal` in decimal mode and `float` otherwise.
   */
  function DecodeNumber(lit: Literal, useDecimal: bool): (n: Number)
    ensures n.value == LiteralValue(lit)
    ensures n.kind == Int <==> lit.IntLiteral?
    ensures n.kind == Dec <==> useDecimal && lit.FracLiteral?
    ensures n.kind == Float <==> !useDecimal && lit.FracLiteral?
  {
    match lit
    case IntLiteral(i) => Num(Int, i as real)
    case FracLiteral(r) => Num(if useDecimal then Dec else Float, r)
  }

  /** Python truthiness of a number: zero of every type is falsy. */
  predicate Truthy(n: Number) {
    n.value != 0.0
  }

  /** `Decimal(x)`: same value, decimal type. */
  function ToDecimal(n: Number): Number {
    Num(Dec, n.value)
  }

  /** `float(x)`: same value (rounding left out), float type. */
  function ToFloat(n: Number): Number {
    Num(Float, n.value)
  }

  /** The operand pair Python refuses to multiply: a `Decimal` with a `float`. */
  predicate Clash(a: Kind, b: Kind) {
    (a == Dec && b == Float) || (a == Float && b == Dec)
  }

  /**
   `a * b` on Python numbers. `int` combines with either other type and takes
   its type; `float` with `Decimal` raises `TypeError`, modelled as `None`.
   */
  function Multiply(a: Number, b: Number): (r: Option<Number>)
    ensures r.None? <==> Clash(a.kind, b.kind)
    ensures r.Some? ==> r.value.value == a.value * b.value
    ensures r.Some? ==> (r.value.kind == Int <==> a.kind == Int && b.kind == Int)
    ensures r.Some? ==> (r.value.kind == Dec <==> a.kind == Dec || b.kind == Dec)
  {
    if Clash(a.kind, b.kind) then None
    else
      var kind := if a.kind == Int then b.kind else a.kind;
      if kind == Int then
        assert a.value * b.value == (a.value.Floor * b.value.Floor) as real;
        Some(Num(Int, a.value * b.value))
      else Some(Num(kind, a.value * b.value))
  }
}
