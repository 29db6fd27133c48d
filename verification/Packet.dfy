/** The growing packet buffer with room reserved in front for its length prefix. */
module Packets {
  import opened Bytes
  import opened Varint
  import Framing

  class Packet {
    var store: array<byte>
    var rbeg: nat    // the data starts here; the bytes before it are reserved
    var pos: nat
    var len: nat
    var cap: nat

    ghost predicate Valid()
      reads this
    {
      rbeg + cap <= store.Length && rbeg + len <= store.Length && pos <= len && pos <= cap
    }

    ghost function Contents(): seq<byte>
      requires Valid()
      reads this, store
    {
      store[..][rbeg..rbeg + len]
    }

    constructor (initCap: nat := 16, reserve: nat := 5)
      ensures Valid() && fresh(store) && Contents() == [] && pos == 0 && rbeg == reserve && cap == initCap && len <= cap
    {
      store := new byte[reserve + initCap](_ => 0);
      cap, len, pos, rbeg := initCap, 0, 0, reserve;
    }

    method Expand(newCap: nat)
      requires Valid() && (newCap > cap ==> len <= newCap)
      modifies this
      ensures Valid() && (store == old(store) || fresh(store)) && cap >= newCap && cap >= old(cap)
      ensures Contents() == old(Contents()) && pos == old(pos) && rbeg == old(rbeg) && len == old(len)
    {
      if cap >= newCap {
        return;
      }
      var narr := new byte[rbeg + newCap](_ => 0);
      forall i | 0 <= i < len {
        narr[rbeg + i] := store[rbeg + i];
      }
      cap := newCap;
      store := narr;
    }

    /** The growth check at the head of every put. */
    method Ensure(n: nat, newCap: nat)
      requires Valid() && cap + n <= newCap && len <= newCap
      modifies this
      ensures Valid() && (store == old(store) || fresh(store)) && pos + n <= cap && cap >= old(cap)
      ensures Contents() == old(Contents()) && pos == old(pos) && rbeg == old(rbeg) && len == old(len)
    {
      if pos + n > cap {
        Expand(newCap);
      }
    }

    /** Moves past the bytes b that were just written over the store's former contents. */
    method Advance(n: nat, ghost before: seq<byte>, ghost b: seq<byte>)
      requires Valid() && n == |b| && pos + n <= cap
      requires StoredAt(before, rbeg + pos, b, store[..])
      modifies this`pos, this`len
      ensures Valid() && pos == old(pos) + n && (old(len) <= cap ==> len <= cap)
      ensures Contents() == Overwrite(before[rbeg..rbeg + old(len)], old(pos), b)
    {
      WindowStored(before, store[..], rbeg, pos, b, len);
      pos := pos + n;
      if pos > len {
        len := pos;
      }
    }

    method WriteBytes(bytes: seq<byte>)
      requires Valid() && pos + |bytes| <= cap
      modifies this`pos, this`len, store
      ensures Valid() && pos == old(pos) + |bytes| && (old(len) <= cap ==> len <= cap)
      ensures Contents() == Overwrite(old(Contents()), old(pos), bytes)
    {
      ghost var before, contents := store[..], Contents();
      assert contents == before[rbeg..rbeg + len];
      Blit(store, rbeg + pos, bytes);
      Advance(|bytes|, before, bytes);
    }

    method WriteDigits(val: nat)
      requires Valid() && pos + |Encode(val)| <= cap
      modifies this`pos, this`len, store
      ensures Valid() && pos == old(pos) + |Encode(val)| && (old(len) <= cap ==> len <= cap)
      ensures Contents() == Overwrite(old(Contents()), old(pos), Encode(val))
    {
      ghost var before, digits := store[..], Encode(val);
      var n := WriteVarint(store, rbeg + pos, val);
      Advance(n, before, digits);
    }

    /** One growth step always makes enough room. */
    method PutBytes(bytes: seq<byte>)
      requires Valid() && len <= cap + |bytes|
      modifies this, store
      ensures Valid() && (store == old(store) || fresh(store)) && pos == old(pos) + |bytes| && rbeg == old(rbeg)
      ensures Contents() == Overwrite(old(Contents()), old(pos), bytes)
      ensures old(len) <= old(cap) ==> len <= cap
    {
      Ensure(|bytes|, cap * 11 / 10 + |bytes|);
      WriteBytes(bytes);
    }

    method PutVarint(val: int)
      requires Valid() && len <= cap && -TWO31 <= val < TWO31
      modifies this, store
      ensures Valid() && (store == old(store) || fresh(store)) && rbeg == old(rbeg) && len <= cap
      ensures var e := Encode(Unsigned32(val));
        pos == old(pos) + |e| && Contents() == Overwrite(old(Contents()), old(pos), e)
    {
      Ensure(5, cap * 16 / 10 + 5);
      EncodeFits(Unsigned32(val));
      WriteDigits(Unsigned32(val));
    }

    /** Makes reserved bytes part of the contents and moves to their beginning. */
    method UseReserved(count: nat)
      requires Valid() && count <= rbeg
      modifies this
      ensures Valid() && pos == 0 && rbeg == old(rbeg) - count && cap == old(cap) && store == old(store)
      ensures len == old(len) + count && Contents()[count..] == old(Contents())
    {
      rbeg := rbeg - count;
      len := len + count;
      pos := 0;
    }

    /** Puts the length of the contents in front of them. */
    method PutLen()
      requires Valid() && len <= cap && rbeg >= 5 && len < TWO32
      modifies this, store
      ensures Valid() && Contents() == Framing.Frame(old(Contents()))
    {
      var a := new byte[5](_ => 0);
      ghost var blank := a[..];
      EncodeFits(len);
      ghost var body := Contents();
      var vl := WriteVarint(a, 0, len);
      StoredFront(blank, 0, Encode(len), a[..]);
      assert a[..vl] == a[..][..vl] == Encode(len);
      UseReserved(vl);
      OverwriteFront(Contents(), a[..vl], body);
      PutBytes(a[..vl]);
    }
  }
}
