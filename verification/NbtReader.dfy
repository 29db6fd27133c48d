/** The recursive-descent reader over a (data, avail) cursor. */
module NbtReader {
  import opened Bytes
  import opened ByteBuffers
  import opened NbtFormat

  datatype Outcome<T> = Done(value: T) | Failed(error: Error)

  /** An outcome and a cursor position that agree with the parser function. */
  ghost predicate Agrees<T>(r: Outcome<T>, left: seq<byte>, expected: Read<T>) {
    match expected
    case Ok(v, rest) => r == Done(v) && left == rest
    case Err(e) => r == Failed(e)
  }

  ghost function After<T>(done: seq<T>, r: Read<seq<T>>): Read<seq<T>> {
    match r
    case Ok(v, rest) => Ok(done + v, rest)
    case Err(e) => Err(e)
  }

  lemma AfterNone<T>(r: Read<seq<T>>)
    ensures After([], r) == r
  {
    if r.Ok? { assert [] + r.value == r.value; }
  }

  lemma AfterOne<T>(done: seq<T>, x: T, r: Read<seq<T>>)
    ensures After(done, After([x], r)) == After(done + [x], r)
  {
    if r.Ok? { assert done + ([x] + r.value) == done + [x] + r.value; }
  }

  lemma SubSlice(s: seq<byte>, d: nat, n: nat, a: nat)
    requires d + n <= |s| && a + 4 <= n
    ensures s[d..][..n][a..][..4] == s[d + a..d + a + 4]
  {
    var x := s[d..][..n][a..];
    assert forall i :: 0 <= i < 4 ==> x[i] == s[d + a + i];
  }

  lemma NextInt(block: seq<byte>, i: nat, n: nat, vals: seq<nat>, v: nat)
    requires |block| == 4 * (i + n) && n > 0 && v == FromBigEndian(block[4 * i..][..4])
    ensures vals + ReadInts(block[4 * i..], n) == vals + [v] + ReadInts(block[4 * (i + 1)..], n - 1)
  {
    assert block[4 * i..][4..] == block[4 * (i + 1)..];
  }

  class Cursor {
    const bytes: seq<byte>
    var data: nat
    var avail: int

    /** data and avail move in step and avail never goes negative. */
    ghost predicate Valid()
      reads this
    {
      data <= |bytes| && avail == |bytes| - data
    }

    ghost function Left(): seq<byte>
      requires Valid()
      reads this
    {
      bytes[data..]
    }

    constructor (bytes: seq<byte>)
      ensures Valid() && Left() == bytes && this.bytes == bytes
    {
      this.bytes, data, avail := bytes, 0, |bytes|;
    }

    method Advance(n: nat)
      requires Valid() && n <= avail
      modifies this
      ensures Valid() && Left() == old(Left())[n..] && avail == old(avail) - n
    {
      data := data + n;
      avail := avail - n;
    }

    method Word(n: nat) returns (r: Outcome<nat>)
      requires Valid()
      modifies this
      ensures Valid() && avail <= old(avail) && Agrees(r, Left(), ReadWord(old(Left()), n))
    {
      if avail < n {
        return Failed(UnexpectedEof);
      }
      r := Done(FromBigEndian(bytes[data..data + n]));
      assert bytes[data..data + n] == Left()[..n];
      Advance(n);
    }

    method Block(n: int) returns (r: Outcome<seq<byte>>)
      requires Valid()
      modifies this
      ensures Valid() && avail <= old(avail) && Agrees(r, Left(), ReadBlock(old(Left()), n))
    {
      if n < 0 {
        return Failed(UndefinedLength);
      }
      if avail < n {
        return Failed(UnexpectedEof);
      }
      r := Done(bytes[data..data + n]);
      assert bytes[data..data + n] == Left()[..n];
      Advance(n);
    }

    method IntArrayPayload() returns (r: Outcome<Tag>)
      requires Valid()
      modifies this
      ensures Valid() && avail <= old(avail) && Agrees(r, Left(), ReadIntArray(old(Left())))
    {
      var u := Word(4);
      if u.Failed? {
        return Failed(u.error);
      }
      var len := Signed(u.value, TWO32);
      if len < 0 || 4 * len >= TWO31 {
        return Failed(UndefinedLength);
      }
      if avail < 4 * len {
        return Failed(UnexpectedEof);
      }
      var vals := Ints(len);
      Advance(4 * len);
      r := Done(IntArray(vals));
    }

    /** The loop over the array, which reads ahead of the cursor. */
    method Ints(len: nat) returns (vals: seq<nat>)
      requires Valid() && 4 * len <= avail
      ensures vals == ReadInts(Left()[..4 * len], len)
    {
      ghost var block := Left()[..4 * len];
      vals := [];
      var i := 0;
      while i < len
        invariant 0 <= i <= len
        invariant ReadInts(block, len) == vals + ReadInts(block[4 * i..], len - i)
      {
        var v := FromBigEndian(bytes[data + 4 * i..data + 4 * i + 4]);
        SubSlice(bytes, data, 4 * len, 4 * i);
        NextInt(block, i, len - i, vals, v);
        vals := vals + [v];
        i := i + 1;
      }
      assert vals + [] == vals;
    }

    method ListElements(id: byte, count: nat) returns (r: Outcome<seq<Tag>>)
      requires Valid()
      modifies this
      ensures Valid() && avail <= old(avail) && Agrees(r, Left(), ReadList(old(Left()), id, count))
      decreases avail, 4
    {
      var lst: seq<Tag> := [];
      var i := 0;
      ghost var goal := ReadList(Left(), id, count);
      AfterNone(goal);
      while i < count
        invariant 0 <= i <= count && Valid() && avail <= old(avail)
        invariant goal == After(lst, ReadList(Left(), id, count - i))
      {
        var tag := PayloadOf(id);
        if tag.Failed? {
          return Failed(tag.error);
        }
        AfterOne(lst, tag.value, ReadList(Left(), id, count - i - 1));
        lst := lst + [tag.value];
        i := i + 1;
      }
      assert lst + [] == lst;
      r := Done(lst);
    }

    method CompoundEntries() returns (r: Outcome<seq<Entry>>)
      requires Valid()
      modifies this
      ensures Valid() && avail <= old(avail) && Agrees(r, Left(), ReadEntries(old(Left()), []))
      decreases avail, 2
    {
      var comp: seq<Entry> := [];
      while true
        invariant Valid() && avail <= old(avail)
        invariant ReadEntries(old(Left()), []) == ReadEntries(Left(), comp)
        decreases avail
      {
        if avail == 0 {
          return Failed(UnexpectedEof);
        }
        if bytes[data] == 0 {
          Advance(1);
          return Done(comp);
        }
        var tag := NamedTagOf();
        if tag.Failed? {
          return Failed(tag.error);
        }
        comp := Put(comp, tag.value);
      }
    }

    method NamedTagOf() returns (r: Outcome<Entry>)
      requires Valid() && avail > 0
      modifies this
      ensures Valid() && avail < old(avail) && Agrees(r, Left(), ReadTag(old(Left())))
      decreases avail, 1
    {
      var id := bytes[data];
      Advance(1);
      var slen := Word(2);
      if slen.Failed? {
        return Failed(slen.error);
      }
      var name := Block(Signed(slen.value, TWO16));
      if name.Failed? {
        return Failed(name.error);
      }
      var tag := PayloadOf(id);
      if tag.Failed? {
        return Failed(tag.error);
      }
      r := Done(Entry(CString(name.value), tag.value));
    }

    method ScalarPayload(n: nat, make: nat -> Tag) returns (r: Outcome<Tag>)
      requires Valid() && n > 0
      modifies this
      ensures Valid() && avail <= old(avail) && Agrees(r, Left(), ReadScalar(old(Left()), n, make))
    {
      var u := Word(n);
      r := if u.Failed? then Failed(u.error) else Done(make(u.value));
    }

    method PayloadOf(id: byte) returns (r: Outcome<Tag>)
      requires Valid()
      modifies this
      ensures Valid() && avail <= old(avail) && Agrees(r, Left(), ReadPayload(old(Left()), id))
      decreases avail, 3
    {
      match id
      case 1 => r := ScalarPayload(1, (u: nat) => Byte(u));
      case 2 => r := ScalarPayload(2, (u: nat) => Short(u));
      case 3 => r := ScalarPayload(4, (u: nat) => Int(u));
      case 4 => r := ScalarPayload(8, (u: nat) => Long(u));
      case 5 => r := ScalarPayload(4, (u: nat) => Float(u));
      case 6 => r := ScalarPayload(8, (u: nat) => Double(u));
      case 7 =>
        var u := Word(4);
        if u.Failed? {
          return Failed(u.error);
        }
        var block := Block(Signed(u.value, TWO32));
        r := if block.Failed? then Failed(block.error) else Done(ByteArray(block.value));
      case 8 =>
        var u := Word(2);
        if u.Failed? {
          return Failed(u.error);
        }
        var block := Block(u.value);
        r := if block.Failed? then Failed(block.error) else Done(String(CString(block.value)));
      case 9 =>
        if avail < 5 {
          return Failed(UnexpectedEof);
        }
        var tagid := bytes[data];
        var count := Signed(FromBigEndian(bytes[data + 1..data + 5]), TWO32);
        assert bytes[data + 1..data + 5] == Left()[1..5];
        Advance(5);
        var elems := ListElements(tagid, if count < 0 then 0 else count);
        r := if elems.Failed? then Failed(elems.error) else Done(List(0, elems.value));
      case 10 =>
        var entries := CompoundEntries();
        r := if entries.Failed? then Failed(entries.error) else Done(Compound(entries.value));
      case 11 => r := IntArrayPayload();
      case _ => r := Failed(InvalidId);
    }

    method Raw() returns (r: Outcome<Entry>)
      requires Valid()
      modifies this
      ensures Valid() && Agrees(r, Left(), ReadRaw(old(Left())))
    {
      if avail == 0 {
        return Failed(NotCompound);
      }
      r := NamedTagOf();
      if r.Done? && !r.value.tag.Compound? {
        r := Failed(NotCompound);
      }
    }
  }
}
