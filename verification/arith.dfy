/** Facts about products of naturals that the index arithmetic needs. */
module NatArith {

  /** (a+1)·b == a·b + b. */
  lemma MulSucc(a: int, b: int)
    ensures (a + 1) * b == a * b + b
  {
  }

  /** Multiplying by a non-negative factor keeps the order. */
  lemma {:induction false} MulMono(a: nat, b: nat, c: nat)
    requires a <= b
    ensures a * c <= b * c
    decreases b - a
  {
    if a < b {
      MulMono(a, b - 1, c);
      MulSucc(b - 1, c);
    }
  }

  /** A strict order between two multiples of a positive factor is an order between the multipliers. */
  lemma MulCancel(a: nat, b: nat, c: nat)
    requires c > 0 && a * c < b * c
    ensures a < b
  {
    if b <= a {
      MulMono(b, a, c);
    }
  }
}
