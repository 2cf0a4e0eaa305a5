/** Integer types: the values they have, and arithmetic that checks for overflow. */
module Scalars {
  import opened Ir

  function Least(t: Type): int {
    match t
    case Int => -0x8000_0000_0000_0000
    case Int32 => -0x8000_0000
    case _ => 0
  }

  function Greatest(t: Type): int {
    match t
    case Bool => 1
    case Byte => 0xff
    case Int => 0x7fff_ffff_ffff_ffff
    case Int32 => 0x7fff_ffff
    case UInt32 => 0xffff_ffff
    case UInt64 => 0xffff_ffff_ffff_ffff
    case _ => 0
  }

  predicate InRange(t: Type, n: int) { Least(t) <= n <= Greatest(t) }

  predicate IsSigned(t: Type) { t == Int || t == Int32 }

  function Magnitude(n: int): nat { if n < 0 then -n else n }

  /** Division that rounds toward zero. */
  function Quotient(a: int, b: int): int
    requires b != 0
  {
    var q := Magnitude(a) / Magnitude(b);
    if (a < 0) == (b < 0) then q else -q
  }

  predicate IsChecked(op: Opcode) {
    op == IntNegChecked || op == IntAddChecked || op == IntSubChecked || op == IntMulChecked || op == IntDivChecked
  }

  function Fitting(t: Type, n: int): Option<int> { if InRange(t, n) then Some(n) else None }

  /** The guards before a division: a divisor, and not the one quotient that does not fit. */
  function Divide(t: Type, a: int, b: int): Option<int> {
    if b == 0 || (IsSigned(t) && a == Least(t) && b == -1) then None else Some(Quotient(a, b))
  }

  /** The result of checked arithmetic, if it has one. */
  function Checked(op: Opcode, t: Type, ns: seq<int>): Option<int> {
    if op == IntNegChecked && |ns| == 1 then Fitting(t, -ns[0])
    else if |ns| != 2 then None
    else if op == IntAddChecked then Fitting(t, ns[0] + ns[1])
    else if op == IntSubChecked then Fitting(t, ns[0] - ns[1])
    else if op == IntMulChecked then Fitting(t, ns[0] * ns[1])
    else if op == IntDivChecked then Divide(t, ns[0], ns[1])
    else None
  }

  lemma MagnitudeOfProduct(x: int, y: int)
    ensures Magnitude(x * y) == Magnitude(x) * Magnitude(y)
  {
    if x < 0 { assert (-x) * y == -(x * y); }
    if y < 0 { assert x * (-y) == -(x * y) && (-x) * (-y) == x * y; }
    var m := Magnitude(x) * Magnitude(y);
    assert m == x * y || m == -(x * y);
  }

  /** The quotient times the divisor is the dividend but for a remainder of its sign, smaller than the divisor. */
  lemma QuotientRounds(a: int, b: int)
    requires b != 0
    ensures Magnitude(a - Quotient(a, b) * b) < Magnitude(b)
    ensures Magnitude(a) == Magnitude(Quotient(a, b) * b) + Magnitude(a - Quotient(a, b) * b)
  {
    var x: int, y: int := Magnitude(a), Magnitude(b);
    var k: int := x / y;
    Signs(Quotient(a, b), b, k, y);
    Division(x, y, k * y);
  }

  lemma Division(x: int, y: int, p: int)
    requires x >= 0 && y > 0 && p == x / y * y
    ensures 0 <= p <= x < p + y
  {
    assert x == p + x % y;
  }

  lemma Signs(q: int, b: int, x: int, y: int)
    requires (q == x || q == -x) && (b == y || b == -y)
    ensures q == x && b == y ==> q * b == x * y
    ensures q == -x && b == -y ==> q * b == x * y
    ensures q == -x && b == y ==> q * b == -(x * y)
    ensures q == x && b == -y ==> q * b == -(x * y)
  {
    assert (-x) * y == -(x * y) && x * (-y) == -(x * y) && (-x) * (-y) == x * y;
  }

  lemma QuotientIsSmaller(a: int, b: int)
    requires b != 0
    ensures Magnitude(Quotient(a, b)) <= Magnitude(a)
    ensures Magnitude(b) > 1 && a != 0 ==> Magnitude(Quotient(a, b)) < Magnitude(a)
  {
    QuotientRounds(a, b);
    MagnitudeOfProduct(Quotient(a, b), b);
    Scales(Magnitude(Quotient(a, b)), Magnitude(b));
  }

  lemma Scales(x: nat, y: nat)
    requires y > 0
    ensures x <= x * y && (y > 1 && x > 0 ==> x < x * y)
  {
    if y > 1 { assert x * y == x + x * (y - 1); }
  }

  /** The guards let a division through exactly if its quotient is defined and fits the type. */
  lemma DivisionIsGuarded(t: Type, a: int, b: int)
    requires t == Int || t == Int32 || t == UInt32 || t == UInt64
    requires InRange(t, a) && InRange(t, b)
    ensures Divide(t, a, b) == if b == 0 then None else Fitting(t, Quotient(a, b))
  {
    if b != 0 {
      QuotientIsSmaller(a, b);
      QuotientRounds(a, b);
      if a >= 0 && b > 0 { assert Quotient(a, b) >= 0; }
    }
  }

  /** What checked arithmetic yields is a value of its type. */
  lemma CheckedFits(op: Opcode, t: Type, ns: seq<int>)
    requires t == Int || t == Int32 || t == UInt32 || t == UInt64
    requires forall k :: 0 <= k < |ns| ==> InRange(t, ns[k])
    ensures Checked(op, t, ns).Some? ==> InRange(t, Checked(op, t, ns).value)
  {
    if |ns| == 2 { DivisionIsGuarded(t, ns[0], ns[1]); }
  }

  /** Subtraction undoes an addition that succeeded. */
  lemma SubtractionUndoes(t: Type, a: int, b: int)
    requires InRange(t, a) && Checked(IntAddChecked, t, [a, b]).Some?
    ensures Checked(IntSubChecked, t, [Checked(IntAddChecked, t, [a, b]).value, b]) == Some(a)
  {
  }
}
