/** The facts about floor division on naturals that the rest of the proofs rest on. */
module FloorDivision {

  lemma MulLe(a: int, b: int, c: int)
    requires a <= b && 0 <= c
    ensures a * c <= b * c
  {
  }

  lemma MulLt(a: int, b: int, c: int)
    requires a < b && 0 < c
    ensures a * c < b * c
  {
  }

  lemma NonNegative(a: int, b: int)
    requires 0 <= a && 0 <= b
    ensures 0 <= a * b
  {
  }

  lemma Bounds(a: nat, d: nat)
    requires 0 < d
    ensures 0 <= a / d
    ensures a / d * d <= a < (a / d + 1) * d
  {
    assert a == a / d * d + a % d;
    assert (a / d + 1) * d == a / d * d + d;
  }

  /** `q` is at most the quotient exactly when `q * d` is at most the dividend. */
  lemma LowerIff(q: int, a: nat, d: nat)
    requires 0 < d
    ensures q <= a / d <==> q * d <= a
  {
    Bounds(a, d);
    if q <= a / d {
      MulLe(q, a / d, d);
    } else {
      MulLe(a / d + 1, q, d);
    }
  }

  lemma Monotone(a: nat, b: nat, d: nat)
    requires a <= b && 0 < d
    ensures a / d <= b / d
  {
    Bounds(a, d);
    LowerIff(a / d, b, d);
  }

  /** `a * part / whole <= a` for a part of a whole. */
  lemma Share(a: nat, part: nat, whole: nat)
    requires part <= whole && 0 < whole
    ensures 0 <= a * part / whole <= a
  {
    MulLe(part, whole, a);
    Bounds(a * part, whole);
  }

  /** Floors of parts add up to the floor of the sum, or to one less. */
  lemma SumOfFloors(a: nat, b: nat, d: nat)
    requires 0 < d
    ensures a / d + b / d <= (a + b) / d <= a / d + b / d + 1
  {
    Bounds(a, d);
    Bounds(b, d);
    assert (a / d + b / d) * d == a / d * d + b / d * d;
    LowerIff(a / d + b / d, a + b, d);
    assert (a / d + b / d + 2) * d == (a / d + 1) * d + (b / d + 1) * d;
    LowerIff(a / d + b / d + 2, a + b, d);
  }
}
