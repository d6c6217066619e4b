/** The benchmarks' 64-bit division by shifting and subtracting, in words of fixed width. */
module Division {
  import opened Config
  import opened Arithmetic

  function Pow2(i: nat): (p: nat)
    ensures p > 0
  {
    if i == 0 then 1 else 2 * Pow2(i - 1)
  }

  // Products and quotients by name, which proofs can treat as opaque.
  function Prod(a: nat, b: nat): nat { a * b }
  function Quot(n: nat, d: nat): nat
    requires d > 0
  {
    n / d
  }

  // The exact result of dividing n by d.
  function DivMod(n: nat, d: nat): (nat, nat)
    requires d > 0
  {
    (n / d, n % d)
  }

  // Bit i of n.
  function Bit(n: nat, i: nat): (b: nat)
    ensures b <= 1
  {
    n / Pow2(i) % 2
  }

  /* The loop from bit i - 1 down to bit 0, with a remainder register that wraps at w: each
     round shifts a bit of n into r and subtracts d if it can. */
  function Rounds(n: nat, d: nat, i: nat, q: nat, r: nat, w: nat): (nat, nat)
    requires w > 0
  {
    if i == 0 then (q, r)
    else
      var r1 := (2 * r + Bit(n, i - 1)) % w;
      if r1 >= d then Rounds(n, d, i - 1, q + Pow2(i - 1), r1 - d, w) else Rounds(n, d, i - 1, q, r1, w)
  }

  // Dividing by a power of two, bit by bit.
  lemma Halves(n: nat, i: nat)
    requires i > 0
    ensures Quot(n, Pow2(i - 1)) == 2 * Quot(n, Pow2(i)) + Bit(n, i - 1)
  {
    DivTwice(n, Pow2(i - 1));
  }

  lemma DivTwice(n: nat, p: nat)
    requires p > 0
    ensures n / (2 * p) == n / p / 2
  {
    var b, a := n / p, n / p / 2;
    assert n == b * p + n % p;
    assert b == 2 * a + b % 2;
    assert b * p == a * (2 * p) + (b % 2) * p;
    var rest := (b % 2) * p + n % p;
    assert 0 <= rest < 2 * p by {
      if b % 2 == 0 { assert (b % 2) * p == 0; } else { assert (b % 2) * p == p; }
    }
    Quotient(n, 2 * p, a, rest);
  }

  lemma Doubles(k: nat, m: nat)
    ensures Prod(2 * k, m) == 2 * Prod(k, m) == Prod(k, 2 * m) && Prod(2 * k + 1, m) == 2 * Prod(k, m) + m
  {}

  lemma RoundOnce(n: nat, d: nat, i: nat, q: nat, r: nat, w: nat)
    requires w > 0 && i > 0
    ensures var r1 := (2 * r + Bit(n, i - 1)) % w;
            Rounds(n, d, i, q, r, w) == if r1 >= d then Rounds(n, d, i - 1, q + Pow2(i - 1), r1 - d, w)
              else Rounds(n, d, i - 1, q, r1, w)
  {
    hide Bit, Pow2;
  }

  lemma RoundsDone(n: nat, d: nat, k: nat, r: nat, w: nat)
    requires d > 0 && r < d && w > 0 && Quot(n, Pow2(0)) == Prod(k, d) + r
    ensures Rounds(n, d, 0, Prod(k, Pow2(0)), r, w) == DivMod(n, d)
  {
    assert Pow2(0) == 1 && n / 1 == n;
    Quotient(n, d, k, r);
  }

  lemma NoWrap(r: nat, w: nat)
    requires r < w
    ensures r % w == r
  {}

  /* As long as no shift overflows the register, the rounds compute quotient and remainder. */
  lemma {:induction false} RoundsExact(n: nat, d: nat, i: nat, k: nat, r: nat, w: nat)
    requires d > 0 && r < d && Quot(n, Pow2(i)) == Prod(k, d) + r
    requires w > 0 && (2 * d <= w || (i > 0 ==> n < w))
    ensures Rounds(n, d, i, Prod(k, Pow2(i)), r, w) == DivMod(n, d)
  {
    if i == 0 {
      RoundsDone(n, d, k, r, w);
    } else {
      assert Pow2(i) == 2 * Pow2(i - 1);
      hide Rounds, Bit, Pow2, Prod, Quot, DivMod;
      Halves(n, i);
      RoundOnce(n, d, i, Prod(k, Pow2(i)), r, w);
      Shrinks(n, i - 1);
      Doubles(k, Pow2(i - 1));
      Doubles(k, d);
      var r1 := 2 * r + Bit(n, i - 1);
      NoWrap(r1, w);
      if r1 >= d {
        RoundsExact(n, d, i - 1, 2 * k + 1, r1 - d, w);
      } else {
        RoundsExact(n, d, i - 1, 2 * k, r1, w);
      }
    }
  }

  lemma Shrinks(n: nat, i: nat)
    ensures Quot(n, Pow2(i)) <= n
  {
    hide Pow2;
    var p := Pow2(i);
    assert n == (n / p) * p + n % p;
    Monotone(1, p, n / p);
    assert (n / p) * p == p * (n / p);
  }

  lemma {:induction false} TooSmall(n: nat, i: nat)
    requires n < Pow2(i)
    ensures Quot(n, Pow2(i)) == 0 && Bit(n, i) == 0
  {
    Quotient(n, Pow2(i), 0, n);
  }

  lemma Powers()
    ensures Pow2(64) == TWO_64 && Pow2(32) == TWO_32 && Pow2(31) == 0x8000_0000
  {
    assert Pow2(8) == 256;
    Doubling(8, 8);
    Doubling(16, 16);
    Doubling(32, 32);
    assert Pow2(32) == 2 * Pow2(31);
  }

  lemma {:induction false} Doubling(i: nat, j: nat)
    ensures Pow2(i + j) == Pow2(i) * Pow2(j)
  {
    if i > 0 { Doubling(i - 1, j); assert 2 * (Pow2(i - 1) * Pow2(j)) == (2 * Pow2(i - 1)) * Pow2(j); }
  }

  /** bench_div64 is exact for every 64-bit n and d > 0: its remainder register never overflows. */
  lemma Div64Exact(n: nat, d: nat)
    requires n < TWO_64 && d > 0
    ensures Rounds(n, d, 64, 0, 0, TWO_64) == DivMod(n, d)
  {
    Powers();
    TooSmall(n, 64);
    assert Prod(0, d) == 0 && Prod(0, Pow2(64)) == 0;
    hide Rounds, Bit, Pow2, Prod, Quot, DivMod;
    RoundsExact(n, d, 64, 0, 0, TWO_64);
  }

  /** div_u64_u32, its remainder in 32 bits, is exact for every 64-bit n if and only if d <= 2^31. */
  lemma DivU64U32ExactIff(d: nat)
    requires 0 < d < TWO_32
    ensures d <= 0x8000_0000 <==> forall n: nat :: n < TWO_64 ==> Rounds(n, d, 64, 0, 0, TWO_32) == DivMod(n, d)
  {
    if d <= 0x8000_0000 {
      forall n: nat | n < TWO_64 ensures Rounds(n, d, 64, 0, 0, TWO_32) == DivMod(n, d) { DivU64U32Exact(n, d); }
    } else {
      OverflowLoses(d);
      assert TWO_32 < TWO_64;
    }
  }

  lemma DivU64U32Exact(n: nat, d: nat)
    requires n < TWO_64 && 0 < d <= 0x8000_0000
    ensures Rounds(n, d, 64, 0, 0, TWO_32) == DivMod(n, d)
  {
    Powers();
    TooSmall(n, 64);
    assert Prod(0, d) == 0 && Prod(0, Pow2(64)) == 0;
    hide Rounds, Bit, Pow2, Prod, Quot, DivMod;
    RoundsExact(n, d, 64, 0, 0, TWO_32);
  }

  // 2^32 itself is divided wrongly by any larger d: its one bit is shifted out.
  lemma OverflowLoses(d: nat)
    requires 0x8000_0000 < d < TWO_32
    ensures Rounds(TWO_32, d, 64, 0, 0, TWO_32) != DivMod(TWO_32, d)
  {
    LeadingZeros(d, 64);
    Powers();
    BitOf(32, 32);
    assert Rounds(TWO_32, d, 33, 0, 0, TWO_32) == Rounds(TWO_32, d, 32, 0, 1, TWO_32);
    ShiftsUp(d, 32);
    BitOf(32, 0);
    assert Rounds(TWO_32, d, 1, 0, 0x8000_0000, TWO_32) == Rounds(TWO_32, d, 0, 0, 0, TWO_32);
    Quotient(TWO_32, d, 1, TWO_32 - d);
  }

  lemma BitOf(j: nat, i: nat)
    requires i <= j
    ensures Bit(Pow2(j), i) == if i == j then 1 else 0
  {
    Doubling(i, j - i);
    var (p, k) := (Pow2(i), Pow2(j - i));
    assert i < j ==> k % 2 == 0;
    PowerQuot(p, k);
  }

  lemma PowerQuot(p: nat, k: nat)
    requires p > 0
    ensures p * k / p == k
  {
    assert p * k == k * p + 0;
    Quotient(p * k, p, k, 0);
  }

  lemma {:induction false} LeadingZeros(d: nat, i: nat)
    requires d > 0 && 33 <= i <= 64
    ensures Rounds(TWO_32, d, i, 0, 0, TWO_32) == Rounds(TWO_32, d, 33, 0, 0, TWO_32)
  {
    if i > 33 {
      Powers();
      Grows(33, i - 1);
      TooSmall(TWO_32, i - 1);
      LeadingZeros(d, i - 1);
    }
  }

  lemma {:induction false} Grows(i: nat, j: nat)
    requires i <= j
    ensures Pow2(i) <= Pow2(j)
  {
    if i < j { Grows(i, j - 1); }
  }

  // The leading one wanders up through the register while zeros follow it.
  lemma {:induction false} ShiftsUp(d: nat, i: nat)
    requires 0x8000_0000 < d < TWO_32 && 1 <= i <= 32
    ensures Rounds(TWO_32, d, i, 0, Pow2(32 - i), TWO_32) == Rounds(TWO_32, d, 1, 0, 0x8000_0000, TWO_32)
  {
    assert i > 1 ==> Pow2(33 - i) == 2 * Pow2(32 - i);
    Powers();
    hide Rounds, Pow2, Bit;
    if i > 1 {
      BitOf(32, i - 1);
      Grows(33 - i, 31);
      RoundOnce(TWO_32, d, i, 0, Pow2(32 - i), TWO_32);
      NoWrap(Pow2(33 - i), TWO_32);
      ShiftsUp(d, i - 1);
    }
  }

  lemma DivModExact(n: nat, d: nat)
    requires d > 0
    ensures var (q, r) := DivMod(n, d); n == q * d + r && r < d
  {}

  /** bench_div64 */
  method BenchDiv64(n: nat, d: nat) returns (q: nat, rem: nat)
    requires n < TWO_64 && d < TWO_64
    ensures if d == 0 then q == 0 && rem == 0 else n == q * d + rem && rem < d
  {
    hide DivMod;
    q, rem := 0, 0;
    if d == 0 {
      return;
    }
    var i := 64;
    while i > 0
      invariant 0 <= i <= 64
      invariant Rounds(n, d, 64, 0, 0, TWO_64) == Rounds(n, d, i, q, rem, TWO_64)
    {
      i := i - 1;
      rem := (2 * rem + Bit(n, i)) % TWO_64;
      if rem >= d {
        rem, q := rem - d, q + Pow2(i);
      }
    }
    Div64Exact(n, d);
    DivModExact(n, d);
  }

  /** div_u64_u32 */
  method DivU64U32(n: nat, d: nat) returns (q: nat, rem: nat)
    requires n < TWO_64 && 0 < d < TWO_32
    ensures (q, rem) == Rounds(n, d, 64, 0, 0, TWO_32)
    ensures d <= 0x8000_0000 ==> n == q * d + rem && rem < d
  {
    hide DivMod;
    q, rem := 0, 0;
    var i := 64;
    while i > 0
      invariant 0 <= i <= 64
      invariant Rounds(n, d, 64, 0, 0, TWO_32) == Rounds(n, d, i, q, rem, TWO_32)
    {
      i := i - 1;
      rem := (2 * rem + Bit(n, i)) % TWO_32;
      if rem >= d {
        rem, q := rem - d, q + Pow2(i);
      }
    }
    if d <= 0x8000_0000 {
      DivU64U32Exact(n, d);
      DivModExact(n, d);
    }
  }

  /** bench_fixdiv, whose product wraps at 64 bits and whose result at 32: exact if and only if
      neither the product nor the quotient overflows. */
  method BenchFixDiv(n: nat, d: nat, scale: nat) returns (r: nat)
    requires n < TWO_64 && d < TWO_64 && scale < TWO_32
    ensures d == 0 ==> r == 0
    ensures d > 0 ==> var p := Prod(n, scale); r == Quot(p, d) <==> p < TWO_64 && Quot(p, d) < TWO_32
    ensures d > 0 && Prod(n, scale) < TWO_64 ==> r == Quot(Prod(n, scale), d) % TWO_32
  {
    hide Prod, Quot;
    if d == 0 {
      return 0;
    }
    ghost var p := Prod(n, scale);
    var q, rem := BenchDiv64(n * scale % TWO_64, d);
    ProdIs(n, scale);
    ghost var low := p % TWO_64;
    QuotientIs(low, d, q, rem);
    if p >= TWO_64 { Drop(p, low, d); }
    r := q % TWO_32;
  }

  lemma ProdIs(a: nat, b: nat)
    ensures Prod(a, b) == a * b
  {}

  lemma QuotientIs(n: nat, d: nat, q: nat, r: nat)
    requires n == q * d + r && r < d
    ensures Quot(n, d) == q
  {
    Quotient(n, d, q, r);
  }

  lemma Drop(p: nat, low: nat, d: nat)
    requires p >= low + d && d > 0
    ensures Quot(low, d) < Quot(p, d)
  {
    var (a, b) := (low / d, p / d);
    assert low == a * d + low % d && p == b * d + p % d;
    Successor(a, d);
    if b <= a { Monotone(b, a, d); }
  }
}
