/** Unsigned LEB128 numbers (section 7.6 of the DWARF 4 standard) over 32- and 64-bit patterns. */
module Varint {
  import opened Bytes

  /** The int with a given 32-bit pattern. */
  function Signed32(u: nat): int
    requires u < TWO32
  {
    if u < TWO31 then u else u - TWO32
  }

  function Unsigned32(i: int): (u: nat)
    requires -TWO31 <= i < TWO31
    ensures u < TWO32 && Signed32(u) == i
  {
    if i < 0 then i + TWO32 else i
  }

  /** The sum of two ints, whose value is i, as an int. */
  function Wrap(i: int): (r: int)
    ensures -TWO32 <= i < TWO32 ==> -TWO31 <= r < TWO31 && (r - i) % TWO32 == 0
  {
    if i < -TWO31 then i + TWO32 else if i >= TWO31 then i - TWO32 else i
  }

  function Encode(v: nat): (s: seq<byte>)
    ensures |s| >= 1
  {
    if v < 128 then [v] else [v % 128 + 128] + Encode(v / 128)
  }

  function Digit(b: byte): nat { b % 128 }

  /** Index of the first byte without a continuation bit, or the length. */
  function Terminator(s: seq<byte>): (i: nat)
    ensures i <= |s|
    ensures i < |s| ==> s[i] < 128
    ensures forall j :: 0 <= j < i ==> s[j] >= 128
  {
    if s == [] || s[0] < 128 then 0 else 1 + Terminator(s[1..])
  }

  predicate Terminated(s: seq<byte>) {
    Terminator(s) < |s|
  }

  /** The number whose base-128 digits, least significant first, the bytes carry. */
  function Value(s: seq<byte>): nat {
    if s == [] then 0
    else if s[0] < 128 then s[0]
    else s[0] - 128 + 128 * Value(s[1..])
  }

  function Pow128(n: nat): (p: nat)
    ensures p >= 1
  {
    if n == 0 then 1 else 128 * Pow128(n - 1)
  }

  lemma TerminatorIs(s: seq<byte>, i: nat)
    requires i < |s| && s[i] < 128 && forall j :: 0 <= j < i ==> s[j] >= 128
    ensures Terminator(s) == i
  {
  }

  lemma {:induction false} DecodeEncode(v: nat, rest: seq<byte>)
    ensures Terminator(Encode(v) + rest) == |Encode(v)| - 1
    ensures Value(Encode(v) + rest) == v
    decreases v
  {
    var s := Encode(v) + rest;
    if v >= 128 {
      DecodeEncode(v / 128, rest);
      assert s[1..] == Encode(v / 128) + rest;
    }
  }

  /** The digits are those of the number in base 128, least significant first, and all but the
      last have the top bit set. */
  lemma {:induction false} EncodeDigits(v: nat, k: nat)
    requires k < |Encode(v)|
    ensures Encode(v)[k] == Rest(v, k) % 128 + if k < |Encode(v)| - 1 then 128 else 0
    ensures k > 0 ==> Rest(v, k) > 0
  {
    if k > 0 {
      EncodeDigits(v / 128, k - 1);
    }
  }

  /** v without its k least significant digits. */
  function Rest(v: nat, k: nat): nat
    decreases k
  {
    if k == 0 then v else Rest(v / 128, k - 1)
  }

  lemma {:induction false} EncodeLength(v: nat, n: nat)
    requires n >= 1
    ensures |Encode(v)| <= n <==> v < Pow128(n)
    decreases n
  {
    if v >= 128 {
      if n > 1 {
        EncodeLength(v / 128, n - 1);
        assert v < 128 * Pow128(n - 1) <==> v / 128 < Pow128(n - 1);
      } else {
        assert Pow128(1) == 128 * Pow128(0);
        assert |Encode(v)| == 1 + |Encode(v / 128)|;
      }
    }
  }

  predicate Continued(s: seq<byte>) {
    forall j :: 0 <= j < |s| ==> s[j] >= 128
  }

  lemma Scale(d: nat, p: nat)
    ensures 128 * (d * p) == d * (128 * p)
  {
  }

  lemma DigitBound(d: nat, p: nat)
    requires d < 128
    ensures d * p + p <= 128 * p
  {
    assert d * p <= 127 * p;
  }

  lemma {:induction false} ValueSnoc(s: seq<byte>, b: byte)
    requires Continued(s)
    ensures Value(s + [b]) == Value(s) + Digit(b) * Pow128(|s|)
  {
    if s == [] {
      assert s + [b] == [b] && [b][1..] == [];
      assert Value([b]) == Digit(b);
    } else {
      ValueSnoc(s[1..], b);
      assert (s + [b])[1..] == s[1..] + [b];
      Scale(Digit(b), Pow128(|s| - 1));
    }
  }

  lemma {:induction false} ValueBound(s: seq<byte>)
    requires Continued(s)
    ensures Value(s) < Pow128(|s|)
  {
    if s != [] {
      ValueBound(s[1..]);
    }
  }

  /** One more digit of a number that is still being read. */
  lemma NextDigit(s: seq<byte>, i: nat)
    requires i < |s| && i <= Terminator(s)
    ensures Value(s[..i + 1]) == Value(s[..i]) + Digit(s[i]) * Pow128(i)
    ensures Value(s[..i + 1]) < Pow128(i + 1)
  {
    var a := s[..i];
    assert s[..i + 1] == a + [s[i]];
    ValueSnoc(a, s[i]);
    ValueBound(a);
    DigitBound(Digit(s[i]), Pow128(i));
  }

  lemma {:induction false} ValuePrefix(s: seq<byte>, n: nat)
    requires Terminator(s) < n <= |s|
    ensures Value(s[..n]) == Value(s) && Terminator(s[..n]) == Terminator(s)
    decreases |s|
  {
    if s[0] >= 128 {
      ValuePrefix(s[1..], n - 1);
      assert s[..n][1..] == s[1..][..n - 1];
    }
  }

  lemma PowFacts()
    ensures Pow128(4) == 0x1000_0000 && Pow128(5) == 128 * 0x1000_0000
    ensures Pow128(9) == 0x8000_0000_0000_0000 && Pow128(10) == 128 * 0x8000_0000_0000_0000
  {
    assert Pow128(1) == 128 && Pow128(2) == 128 * 128;
    assert Pow128(3) == 128 * 128 * 128;
    assert Pow128(5) == 128 * Pow128(4);
    assert Pow128(6) == 128 * Pow128(5);
    assert Pow128(7) == 128 * Pow128(6);
    assert Pow128(8) == 128 * Pow128(7);
    assert Pow128(9) == 128 * Pow128(8);
  }

  /** Every 32-bit pattern takes at most five bytes, every 64-bit pattern at most ten. */
  lemma EncodeFits(v: nat)
    ensures v < TWO32 ==> |Encode(v)| <= 5
    ensures v < TWO64 ==> |Encode(v)| <= 10
  {
    PowFacts();
    EncodeLength(v, 5);
    EncodeLength(v, 10);
  }

  // ------------------------------------------------------------------- reading

  /** What read_varint (limit 5) and read_varlong (limit 10) return for a byte string. */
  function Pattern(s: seq<byte>, limit: nat, modulus: nat): nat
    requires modulus > 0
  {
    Value(if |s| < limit then s else s[..limit]) % modulus
  }

  lemma SmallMod(a: nat, m: nat)
    requires a < m
    ensures a % m == a
  {
  }

  lemma LastDigit(s: seq<byte>, i: nat, limit: nat)
    requires i < |s| && i < limit && i <= Terminator(s) && s[i] < 128
    ensures Terminator(s) == i
    ensures Value(if |s| < limit then s else s[..limit]) == Value(s[..i + 1])
  {
    TerminatorIs(s, i);
    ValuePrefix(s, i + 1);
    if |s| >= limit { ValuePrefix(s, limit); }
  }

  /** The loop of read_varint and read_varlong; length is 0 when no last byte was met,
      where the source leaves its out-parameter unset. */
  method ReadDigits(s: seq<byte>, limit: nat, modulus: nat) returns (n: nat, length: nat)
    requires limit >= 1 && Pow128(limit - 1) <= modulus
    requires Terminated(s) || |s| >= limit
    ensures n == Pattern(s, limit, modulus) && n < modulus
    ensures length == if Terminator(s) < limit then Terminator(s) + 1 else 0
  {
    n, length := 0, 0;
    var i: nat, place: nat := 0, 1;
    while i < limit
      invariant 0 <= i <= limit && i <= |s| && i <= Terminator(s) && length == 0
      invariant i < limit ==> place == Pow128(i) && n == Value(s[..i])
      invariant n == Value(s[..i]) % modulus
    {
      NextDigit(s, i);
      var next: nat := n + Digit(s[i]) * place;
      assert next == Value(s[..i + 1]) < Pow128(i + 1);
      if i < limit - 1 {
        PowMonotone(i + 1, limit - 1);
        SmallMod(next, modulus);
      }
      n := next % modulus;
      if s[i] < 128 {
        LastDigit(s, i, limit);
        length := i + 1;
        return;
      }
      i, place := i + 1, 128 * place;
    }
  }

  lemma {:induction false} PowMonotone(m: nat, n: nat)
    requires m <= n
    ensures Pow128(m) <= Pow128(n)
    decreases n
  {
    if m < n { PowMonotone(m, n - 1); }
  }

  method ReadVarint(s: seq<byte>) returns (n: int, length: nat)
    requires Terminated(s) || |s| >= 5
    ensures n == Signed32(Pattern(s, 5, TWO32))
    ensures length == if Terminator(s) < 5 then Terminator(s) + 1 else 0
  {
    PowFacts();
    var u;
    u, length := ReadDigits(s, 5, TWO32);
    n := Signed32(u);
  }

  /** The result is given as its 64-bit pattern. */
  method ReadVarlong(s: seq<byte>) returns (n: nat, length: nat)
    requires Terminated(s) || |s| >= 10
    ensures n == Pattern(s, 10, TWO64)
    ensures length == if Terminator(s) < 10 then Terminator(s) + 1 else 0
  {
    PowFacts();
    n, length := ReadDigits(s, 10, TWO64);
  }

  lemma PatternRoundTrip(v: nat, rest: seq<byte>, limit: nat, modulus: nat)
    requires v < modulus && |Encode(v)| <= limit
    ensures var s := Encode(v) + rest;
      Terminator(s) < limit && Terminator(s) + 1 == |Encode(v)| && Pattern(s, limit, modulus) == v
  {
    var s := Encode(v) + rest;
    DecodeEncode(v, rest);
    SmallMod(v, modulus);
    if |s| >= limit { ValuePrefix(s, limit); }
  }

  /** Reading gives back every 32-bit pattern that was written, whatever follows it. */
  lemma VarintRoundTrip(i: int, rest: seq<byte>)
    requires -TWO31 <= i < TWO31
    ensures var s := Encode(Unsigned32(i)) + rest;
      Terminator(s) < 5 && Terminator(s) + 1 == |Encode(Unsigned32(i))| && Signed32(Pattern(s, 5, TWO32)) == i
  {
    var u := Unsigned32(i);
    EncodeFits(u);
    PatternRoundTrip(u, rest, 5, TWO32);
  }

  lemma VarlongRoundTrip(v: nat, rest: seq<byte>)
    requires v < TWO64
    ensures var s := Encode(v) + rest;
      Terminator(s) < 10 && Terminator(s) + 1 == |Encode(v)| && Pattern(s, 10, TWO64) == v
  {
    EncodeFits(v);
    PatternRoundTrip(v, rest, 10, TWO64);
  }

  // ------------------------------------------------------------------- writing

  /** write_varint and write_varlong: fills ptr from at on and returns the byte count. */
  method WriteVarint(ptr: array<byte>, at: nat, val: nat) returns (n: nat)
    requires at + |Encode(val)| <= ptr.Length
    modifies ptr
    ensures n == |Encode(val)| && StoredAt(old(ptr[..]), at, Encode(val), ptr[..])
  {
    ghost var before := ptr[..];
    ghost var digits: seq<byte> := [];
    n := 0;
    NothingStored(before, at);
    if val == 0 {
      StoreDigit(ptr, at, 0, 0, before, []);
      return 1;
    }
    var v := val;
    while v != 0
      invariant |digits| == n && Encode(val) == digits + if v == 0 then [] else Encode(v)
      invariant StoredAt(before, at, digits, ptr[..])
      decreases v
    {
      var p := v % 128;
      if v / 128 != 0 {
        p := p + 128;
      }
      Peel(digits, v, p);
      StoreDigit(ptr, at, n, p, before, digits);
      v := v / 128;
      n := n + 1;
      digits := digits + [p];
    }
    assert digits + [] == digits;
  }

  method StoreDigit(ptr: array<byte>, at: nat, n: nat, p: byte, ghost before: seq<byte>, ghost digits: seq<byte>)
    requires StoredAt(before, at, digits, ptr[..]) && |digits| == n && at + n < |before|
    modifies ptr
    ensures StoredAt(before, at, digits + [p], ptr[..])
  {
    ptr[at + n] := p;
  }

  lemma Peel(digits: seq<byte>, v: nat, p: byte)
    requires v != 0 && p == if v / 128 == 0 then v % 128 else v % 128 + 128
    ensures digits + Encode(v) == digits + [p] + if v / 128 == 0 then [] else Encode(v / 128)
  {
  }

  /** num after k rounds of the arithmetic shift in varint_size. */
  function Shifted(num: int, k: nat): int
    decreases k
  {
    if k == 0 then num else Shifted(num / 128, k - 1)
  }

  /** The loop of varint_size reaches zero if and only if its number is not negative. */
  lemma {:induction false} ShiftEnds(num: int)
    ensures (exists k: nat :: Shifted(num, k) == 0) <==> num >= 0
    decreases if num < 0 then 0 else num
  {
    if num > 0 {
      ShiftEnds(num / 128);
      var k: nat :| Shifted(num / 128, k) == 0;
      assert Shifted(num, k + 1) == 0;
    } else if num == 0 {
      assert Shifted(num, 0) == 0;
    } else {
      forall k: nat ensures Shifted(num, k) < 0 {
        ShiftStaysNegative(num, k);
      }
    }
  }

  lemma {:induction false} ShiftStaysNegative(num: int, k: nat)
    requires num < 0
    ensures Shifted(num, k) < 0
    decreases k
  {
    if k > 0 { ShiftStaysNegative(num / 128, k - 1); }
  }

  method VarintSize(num: int) returns (s: nat)
    requires num >= 0
    ensures s == |Encode(num)|
  {
    if num == 0 {
      return 1;
    }
    s := 0;
    var n: nat := num;
    while n != 0
      invariant |Encode(num)| == s + if n == 0 then 0 else |Encode(n)|
      decreases n
    {
      s := s + 1;
      n := n / 128;
    }
  }

  /** 1 when a whole varint is present, 0 when more bytes are needed, -1 when it is too long. */
  method GotVarint(s: seq<byte>) returns (r: int)
    ensures r == if !Terminated(s) then 0 else if Terminator(s) > 5 then -1 else 1
  {
    var li := -1;
    var i := 0;
    while i < |s|
      invariant 0 <= i <= |s| && li == -1
      invariant forall j :: 0 <= j < i ==> s[j] >= 128
    {
      if s[i] < 128 {
        li := i;
        break;
      }
      i := i + 1;
    }
    if li >= 0 { TerminatorIs(s, li); }
    if li > 5 {
      return -1;
    } else if li == -1 {
      return 0;
    }
    r := 1;
  }
}
