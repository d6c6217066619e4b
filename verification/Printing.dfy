/** Printing an unsigned number: the digits that utoa_buf writes are the number's canonical
    numeral, whichever of its two division paths they come from. */
module Printing {
  import opened Config
  import opened Collections
  import opened Arithmetic
  import opened Division

  // digits[d], from the lower or upper case table
  function Digit(d: nat, upper: bool): (c: char)
    requires d < 16
  {
    if upper then "0123456789ABCDEF"[d] else "0123456789abcdef"[d]
  }

  // The value of a digit; 16 if it is none.
  function DigitValue(c: char): nat {
    if '0' <= c <= '9' then c as int - '0' as int
    else if 'a' <= c <= 'f' then c as int - 'a' as int + 10
    else if 'A' <= c <= 'F' then c as int - 'A' as int + 10
    else 16
  }

  lemma DigitReads(d: nat, upper: bool)
    requires d < 16
    ensures DigitValue(Digit(d, upper)) == d && (Digit(d, upper) == '0' <==> d == 0)
  {}

  // The number that a string of digits denotes.
  function ReadBack(s: string, base: nat): nat {
    if s == [] then 0 else ReadBack(s[..|s| - 1], base) * base + DigitValue(s[|s| - 1])
  }

  /* Digits of the base and the case only, and no leading zero but in zero itself. */
  predicate Canonical(s: string, base: nat, upper: bool) {
    && s != [] && (|s| > 1 ==> s[0] != '0')
    && forall k :: 0 <= k < |s| ==> DigitValue(s[k]) < base && DigitValue(s[k]) < 16
                                    && s[k] == Digit(DigitValue(s[k]), upper)
  }

  function Numeral(v: nat, base: nat, upper: bool): (s: string)
    requires 2 <= base <= 16
    ensures s != []
  {
    if v < base then [Digit(v, upper)] else Numeral(v / base, base, upper) + [Digit(v % base, upper)]
  }

  lemma Divides(v: nat, base: nat)
    requires base > 0
    ensures (v / base) * base + v % base == v
  {}

  lemma ReadBackPush(s: string, c: char, base: nat)
    ensures ReadBack(s + [c], base) == Prod(ReadBack(s, base), base) + DigitValue(c)
  {
    hide DigitValue;
    assert (s + [c])[..|s|] == s;
  }

  lemma ReadBackDigit(c: char, base: nat)
    ensures ReadBack([c], base) == DigitValue(c)
  {
    hide DigitValue;
    assert [c][..0] == [] && ReadBack([], base) * base == 0;
  }

  // One digit more keeps a canonical non-zero string canonical.
  lemma CanonicalPush(s: string, d: nat, base: nat, upper: bool)
    requires 2 <= base <= 16 && Canonical(s, base, upper) && s[0] != '0' && d < base
    ensures Canonical(s + [Digit(d, upper)], base, upper) && (s + [Digit(d, upper)])[0] != '0'
  {
    hide Digit, DigitValue;
    DigitReads(d, upper);
  }

  /** The numeral reads back to the number, and is canonical. */
  lemma {:induction false} NumeralReadsBack(v: nat, base: nat, upper: bool)
    requires 2 <= base <= 16
    ensures ReadBack(Numeral(v, base, upper), base) == v && Canonical(Numeral(v, base, upper), base, upper)
    ensures v > 0 ==> Numeral(v, base, upper)[0] != '0'
  {
    hide Digit, DigitValue, ReadBack, Prod;
    if v < base {
      DigitReads(v, upper);
      ReadBackDigit(Digit(v, upper), base);
    } else {
      var s, d := Numeral(v / base, base, upper), v % base;
      Smaller(v, base);
      DivideProd(v, base);
      NumeralReadsBack(v / base, base, upper);
      DigitReads(d, upper);
      ReadBackPush(s, Digit(d, upper), base);
      CanonicalPush(s, d, base, upper);
    }
  }

  lemma DivideProd(v: nat, base: nat)
    requires base > 0
    ensures Prod(v / base, base) + v % base == v && (v >= base ==> v / base > 0)
  {
    Divides(v, base);
  }

  /** No other canonical string reads back to it. */
  lemma {:induction false} NumeralUnique(s: string, base: nat, upper: bool)
    requires 2 <= base <= 16 && Canonical(s, base, upper)
    ensures s == Numeral(ReadBack(s, base), base, upper)
  {
    hide Digit, DigitValue;
    var pre, d := s[..|s| - 1], DigitValue(s[|s| - 1]);
    DigitReads(d, upper);
    if |s| == 1 {
      assert pre == [] && ReadBack(pre, base) * base == 0;
    } else {
      NumeralUnique(pre, base, upper);
      NonZero(pre, base, upper);
      var h := ReadBack(pre, base);
      assert h * base + d >= base by { Monotone(1, h, base); }
      Quotient(h * base + d, base, h, d);
      assert s == pre + [s[|s| - 1]];
    }
  }

  // A string of digits that does not start with a zero is not zero.
  lemma {:induction false} NonZero(s: string, base: nat, upper: bool)
    requires 2 <= base <= 16 && s != [] && s[0] != '0'
    requires forall k :: 0 <= k < |s| ==> DigitValue(s[k]) < 16 && s[k] == Digit(DigitValue(s[k]), upper)
    ensures ReadBack(s, base) > 0
  {
    hide Digit, DigitValue;
    DigitReads(DigitValue(s[0]), upper);
    if |s| == 1 {
      assert s[..0] == [];
      assert ReadBack([], base) * base == 0;
    } else {
      NonZero(s[..|s| - 1], base, upper);
      Monotone(1, ReadBack(s[..|s| - 1], base), base);
    }
  }

  /** A number of at most 3k bits has at most k digits in any base from 8 up. */
  lemma {:induction false} NumeralLength(v: nat, base: nat, upper: bool, k: nat)
    requires 8 <= base <= 16 && k > 0 && v < Pow2(3 * k)
    ensures |Numeral(v, base, upper)| <= k
  {
    hide Digit;
    if v >= base {
      Divides(v, base);
      Monotone(8, base, v / base);
      assert (v / base) * base == base * (v / base);
      assert 8 * (v / base) <= v;
      assert Pow2(3 * k) == 8 * Pow2(3 * (k - 1)) by {
        assert Pow2(3 * k) == 2 * Pow2(3 * k - 1) && Pow2(3 * k - 1) == 2 * Pow2(3 * k - 2);
      }
      NumeralLength(v / base, base, upper, k - 1);
    }
  }

  lemma AtMost22(v: nat, base: nat, upper: bool)
    requires v < TWO_64 && 8 <= base <= 16
    ensures |Numeral(v, base, upper)| <= 22
  {
    Powers();
    Grows(64, 66);
    NumeralLength(v, base, upper, 22);
  }

  lemma ReversedPush(s: string, c: char)
    ensures Reversed(s + [c]) == [c] + Reversed(s)
  {}

  // What is still to be written while the digits so far, last first, are in tmp.
  function Rest(v: nat, base: nat, upper: bool): string
    requires 2 <= base <= 16
  {
    if v == 0 then [] else Numeral(v, base, upper)
  }

  lemma OneDigit(v: nat, base: nat, upper: bool)
    requires 2 <= base <= 16 && v > 0
    ensures Rest(v, base, upper) == Rest(v / base, base, upper) + [Digit(v % base, upper)]
  {
    hide Digit;
    if v < base { Quotient(v, base, 0, v); } else { Divides(v, base); }
  }

  lemma Written(rest: string, done: string, c: char)
    ensures rest + [c] + Reversed(done) == rest + Reversed(done + [c])
  {
    ReversedPush(done, c);
  }

  // The loop that takes digits with 32-bit division...
  method Digits32(tmp: array<char>, v: nat, base: nat, upper: bool) returns (i: nat)
    requires tmp.Length >= 24 && 0 < v < TWO_32 && 8 <= base <= 16
    modifies tmp
    ensures i <= 22 && Reversed(tmp[..i]) == Numeral(v, base, upper)
  {
    hide Digit, Numeral, Rest;
    AtMost22(v, base, upper);
    RestIs(v, base, upper);
    var v32: nat := v;
    i := 0;
    while v32 != 0
      invariant i <= 22 && v32 <= v
      invariant Numeral(v, base, upper) == Rest(v32, base, upper) + Reversed(tmp[..i])
      decreases v32
    {
      OneDigit(v32, base, upper);
      Written(Rest(v32 / base, base, upper), tmp[..i], Digit(v32 % base, upper));
      Smaller(v32, base);
      tmp[i] := Digit(v32 % base, upper);
      v32, i := v32 / base, i + 1;
      assert tmp[..i] == tmp[..i - 1] + [tmp[i - 1]];
    }
    RestIs(0, base, upper);
  }

  lemma RestIs(v: nat, base: nat, upper: bool)
    requires 2 <= base <= 16
    ensures if v == 0 then Rest(v, base, upper) == [] else Rest(v, base, upper) == Numeral(v, base, upper)
  {}

  lemma Smaller(v: nat, base: nat)
    requires v > 0 && base >= 2
    ensures v / base < v
  {
    Divides(v, base);
    if v / base > 0 { Monotone(2, base, v / base); assert (v / base) * base == base * (v / base); }
  }

  // ... and the one that takes them with div_u64_u32.
  method Digits64(tmp: array<char>, v: nat, base: nat, upper: bool) returns (i: nat)
    requires tmp.Length >= 24 && 0 < v < TWO_64 && 8 <= base <= 16
    modifies tmp
    ensures i <= 22 && Reversed(tmp[..i]) == Numeral(v, base, upper)
  {
    hide Digit, Numeral, Rest;
    AtMost22(v, base, upper);
    RestIs(v, base, upper);
    var v64: nat := v;
    i := 0;
    while v64 != 0
      invariant i <= 22 && v64 <= v
      invariant Numeral(v, base, upper) == Rest(v64, base, upper) + Reversed(tmp[..i])
      decreases v64
    {
      OneDigit(v64, base, upper);
      Written(Rest(v64 / base, base, upper), tmp[..i], Digit(v64 % base, upper));
      Smaller(v64, base);
      var q, r := DivU64U32(v64, base);
      Quotient(v64, base, q, r);
      tmp[i] := Digit(r, upper);
      v64, i := q, i + 1;
      assert tmp[..i] == tmp[..i - 1] + [tmp[i - 1]];
    }
    RestIs(0, base, upper);
  }

  /** utoa_buf, with room for 22 characters at out[at..]: either path writes the numeral there,
      and nothing else. */
  method UtoaBuf(out: array<char>, at: nat, v: nat, base: nat, upper: bool) returns (len: nat)
    requires v < TWO_64 && 8 <= base <= 16 && at + 22 <= out.Length
    modifies out
    ensures 1 <= len <= 22 && out[..] == old(out[..at]) + Numeral(v, base, upper) + old(out[at + len..])
  {
    var tmp := new char[24];
    var i: nat := 0;
    if v == 0 {
      tmp[0] := '0';
      i := 1;
      assert Reversed(tmp[..1]) == Numeral(0, base, upper);
    } else if v < TWO_32 {
      i := Digits32(tmp, v, base, upper);
    } else {
      i := Digits64(tmp, v, base, upper);
    }
    len := i;
    ghost var numeral := Numeral(v, base, upper);
    assert forall k :: 0 <= k < len ==> numeral[k] == tmp[..len][len - 1 - k];
    var o := at;
    while i > 0
      invariant i <= len && o == at + len - i
      invariant forall k :: 0 <= k < len ==> numeral[k] == tmp[len - 1 - k]
      invariant forall k :: 0 <= k < out.Length ==> out[k] == if at <= k < o then numeral[k - at] else old(out[k])
    {
      i := i - 1;
      out[o] := tmp[i];
      o := o + 1;
    }
  }
}
