/** Powers of two, as sizes of address ranges. */
module Powers {
  function Pow2(n: nat): (p: nat)
    ensures p > 0
  {
    if n == 0 then 1 else 2 * Pow2(n - 1)
  }

  lemma {:induction false} Pow2Add(a: nat, b: nat)
    ensures Pow2(a + b) == Pow2(a) * Pow2(b)
    decreases a
  {
    if a > 0 {
      Pow2Add(a - 1, b);
      assert Pow2(a + b) == 2 * Pow2(a - 1 + b);
    }
  }

  lemma Pow2Double(n: nat, v: nat)
    requires Pow2(n) == v
    ensures Pow2(n + n) == v * v
  {
    Pow2Add(n, n);
  }

  lemma Pow2Byte()
    ensures Pow2(8) == 0x100
  {
  }

  lemma Pow2Word()
    ensures Pow2(32) == 0x1_0000_0000
  {
    Pow2Byte();
    Pow2Double(8, 0x100);
    Pow2Double(16, 0x1_0000);
  }

  lemma MulMono(a: nat, b: nat, s: nat)
    requires a <= b
    ensures a * s <= b * s
  {
    assert b * s == a * s + (b - a) * s;
  }

  lemma {:induction false} Pow2Mono(a: nat, b: nat)
    requires a <= b
    ensures Pow2(a) <= Pow2(b)
    decreases b
  {
    if a < b {
      Pow2Mono(a, b - 1);
    }
  }
}
