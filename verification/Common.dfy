/** Vocabulary and division facts shared by the modules. */
module Common {
  datatype Option<+T> = None | Some(value: T)

  type Byte = x: nat | x < 256

  lemma Between(d: int, e: int)
    requires d > 0
    ensures e >= 1 ==> d * e >= d
    ensures e <= -1 ==> d * e <= -d
  {
  }

  /** The quotient is the only multiple in reach. */
  lemma DivideBy(x: int, d: int, k: int)
    requires d > 0 && k * d <= x < k * d + d
    ensures x / d == k && x % d == x - k * d
  {
    var e := x / d - k;
    assert x - k * d == d * e + x % d;
    Between(d, e);
  }

  lemma DivMod(x: nat, d: nat)
    requires d >= 2
    ensures x == d * (x / d) + x % d && x % d < d
    ensures x > 0 ==> x / d < x
  {
  }
}
