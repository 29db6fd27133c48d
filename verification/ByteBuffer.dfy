/** The growing byte buffer under the NBT writer, with big-endian integers. */
module ByteBuffers {
  import opened Bytes

  /** n bytes of v, most significant first, higher bytes being cut off. */
  function BigEndian(v: nat, n: nat): (s: seq<byte>)
    ensures |s| == n
  {
    if n == 0 then [] else BigEndian(v / 256, n - 1) + [v % 256]
  }

  function FromBigEndian(s: seq<byte>): nat {
    if s == [] then 0 else FromBigEndian(s[..|s| - 1]) * 256 + s[|s| - 1]
  }

  function Pow256(n: nat): (p: nat)
    ensures p >= 1
  {
    if n == 0 then 1 else 256 * Pow256(n - 1)
  }

  lemma {:induction false} BigEndianRoundTrip(v: nat, n: nat)
    requires v < Pow256(n)
    ensures FromBigEndian(BigEndian(v, n)) == v
  {
    if n > 0 {
      assert v / 256 < Pow256(n - 1);
      BigEndianRoundTrip(v / 256, n - 1);
      var s := BigEndian(v, n);
      assert s[..n - 1] == BigEndian(v / 256, n - 1);
    }
  }

  lemma {:induction false} FromBigEndianBound(s: seq<byte>)
    ensures FromBigEndian(s) < Pow256(|s|)
  {
    if s != [] {
      FromBigEndianBound(s[..|s| - 1]);
    }
  }

  lemma PowersOf256()
    ensures Pow256(2) == TWO16 && Pow256(4) == TWO32 && Pow256(8) == TWO64
  {
    assert Pow256(1) == 256;
    assert Pow256(3) == 256 * Pow256(2);
    assert Pow256(4) == 256 * Pow256(3);
    assert Pow256(5) == 256 * Pow256(4);
    assert Pow256(6) == 256 * Pow256(5);
    assert Pow256(7) == 256 * Pow256(6);
  }

  class ByteBuffer {
    var data: array<byte>
    var len: nat
    var pos: nat

    ghost predicate Valid()
      reads this
    {
      pos <= len <= data.Length
    }

    ghost function Contents(): seq<byte>
      requires Valid()
      reads this, data
    {
      data[..][0..len]
    }

    constructor (initCap: nat := 32)
      ensures Valid() && fresh(data) && Contents() == [] && pos == 0
    {
      data := new byte[initCap](_ => 0);
      len, pos := 0, 0;
    }

    method Extend(newCap: nat)
      requires Valid()
      modifies this`data
      ensures Valid() && (data == old(data) || fresh(data)) && data.Length >= newCap
      ensures Contents() == old(Contents())
    {
      if data.Length >= newCap {
        return;
      }
      var narr := new byte[newCap](_ => 0);
      ghost var blank := narr[..];
      Blit(narr, 0, data[..]);
      StoredFront(blank, 0, data[..], narr[..]);
      assert narr[..len] == narr[..][..data.Length][..len];
      data := narr;
    }

    /** The check before every put; wherever the position, one growth step is enough. */
    method EnsureCap(n: nat)
      requires Valid()
      modifies this`data
      ensures Valid() && (data == old(data) || fresh(data)) && pos + n <= data.Length
      ensures Contents() == old(Contents())
    {
      if len + n > data.Length {
        Extend(data.Length * 15 / 10 + n);
      }
    }

    method Store(b: seq<byte>)
      requires Valid() && pos + |b| <= data.Length
      modifies this`len, this`pos, data
      ensures Valid() && pos == old(pos) + |b|
      ensures Contents() == Overwrite(old(Contents()), old(pos), b)
    {
      ghost var before := data[..];
      Blit(data, pos, b);
      WindowStored(before, data[..], 0, pos, b, len);
      pos := pos + |b|;
      if pos > len {
        len := pos;
      }
    }

    method PutBytes(b: seq<byte>)
      requires Valid()
      modifies this, data
      ensures Valid() && (data == old(data) || fresh(data)) && pos == old(pos) + |b|
      ensures Contents() == Overwrite(old(Contents()), old(pos), b)
    {
      EnsureCap(|b|);
      Store(b);
    }

    method PutByte(v: byte)
      requires Valid()
      modifies this, data
      ensures Valid() && (data == old(data) || fresh(data)) && pos == old(pos) + 1
      ensures Contents() == Overwrite(old(Contents()), old(pos), [v])
    {
      PutBytes([v]);
    }

    /** put_short_be, put_int_be and put_long_be for n = 2, 4 and 8. */
    method PutBigEndian(v: nat, n: nat)
      requires Valid()
      modifies this, data
      ensures Valid() && (data == old(data) || fresh(data)) && pos == old(pos) + n
      ensures Contents() == Overwrite(old(Contents()), old(pos), BigEndian(v, n))
    {
      PutBytes(BigEndian(v, n));
    }

    method Seek(npos: nat)
      requires Valid() && npos <= len
      modifies this`pos
      ensures Valid() && pos == npos && Contents() == old(Contents())
    {
      pos := npos;
    }
  }
}
