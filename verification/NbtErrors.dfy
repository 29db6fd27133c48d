/** What the reader does with input that no writer produced, and the bytes of the format. */
module NbtErrors {
  import opened Bytes
  import opened ByteBuffers
  import opened NbtFormat

  // ---------------------------------------------------------------- cut-off input

  /** Reading the same input with more behind it: unless the input ended too early, the result is
      the same with that much more left over. */
  predicate Grows<T(==)>(r: Read<T>, r': Read<T>, more: seq<byte>) {
    r == Err(UnexpectedEof) ||
    r' == match r
          case Ok(v, rest) => Ok(v, rest + more)
          case Err(e) => Err(e)
  }

  lemma Longer(data: seq<byte>, n: nat, more: seq<byte>)
    requires n <= |data|
    ensures (data + more)[..n] == data[..n] && (data + more)[n..] == data[n..] + more
  {
  }

  lemma WordGrows(data: seq<byte>, n: nat, more: seq<byte>)
    ensures Grows(ReadWord(data, n), ReadWord(data + more, n), more)
  {
    if n <= |data| { Longer(data, n, more); }
  }

  lemma BlockGrows(data: seq<byte>, n: int, more: seq<byte>)
    ensures Grows(ReadBlock(data, n), ReadBlock(data + more, n), more)
  {
    if 0 <= n <= |data| { Longer(data, n, more); }
  }

  lemma ScalarGrows(data: seq<byte>, n: nat, make: nat -> Tag, more: seq<byte>)
    requires n > 0
    ensures Grows(ReadScalar(data, n, make), ReadScalar(data + more, n, make), more)
  {
    WordGrows(data, n, more);
  }

  lemma ByteArrayGrows(data: seq<byte>, more: seq<byte>)
    ensures Grows(ReadByteArray(data), ReadByteArray(data + more), more)
  {
    WordGrows(data, 4, more);
    var w := ReadWord(data, 4);
    if w.Ok? { BlockGrows(w.rest, Signed(w.value, TWO32), more); }
  }

  lemma StringGrows(data: seq<byte>, more: seq<byte>)
    ensures Grows(ReadString(data), ReadString(data + more), more)
  {
    WordGrows(data, 2, more);
    var w := ReadWord(data, 2);
    if w.Ok? { BlockGrows(w.rest, w.value, more); }
  }

  lemma IntArrayGrows(data: seq<byte>, more: seq<byte>)
    ensures Grows(ReadIntArray(data), ReadIntArray(data + more), more)
  {
    WordGrows(data, 4, more);
    var w := ReadWord(data, 4);
    if w.Ok? { BlockGrows(w.rest, 4 * Signed(w.value, TWO32), more); }
  }

  lemma {:induction false} PayloadGrows(data: seq<byte>, id: byte, more: seq<byte>)
    ensures Grows(ReadPayload(data, id), ReadPayload(data + more, id), more)
    decreases |data|, 3
  {
    match id
    case 1 => ScalarGrows(data, 1, (u: nat) => Byte(u), more);
    case 2 => ScalarGrows(data, 2, (u: nat) => Short(u), more);
    case 3 => ScalarGrows(data, 4, (u: nat) => Int(u), more);
    case 4 => ScalarGrows(data, 8, (u: nat) => Long(u), more);
    case 5 => ScalarGrows(data, 4, (u: nat) => Float(u), more);
    case 6 => ScalarGrows(data, 8, (u: nat) => Double(u), more);
    case 7 => ByteArrayGrows(data, more);
    case 8 => StringGrows(data, more);
    case 9 =>
      if |data| >= 5 {
        Longer(data, 5, more);
        assert (data + more)[1..5] == data[1..5];
        var count := Signed(FromBigEndian(data[1..5]), TWO32);
        ListGrows(data[5..], data[0], if count < 0 then 0 else count, more);
      }
    case 10 => EntriesGrow(data, [], more);
    case 11 => IntArrayGrows(data, more);
    case _ =>
  }

  lemma {:induction false} ListGrows(data: seq<byte>, id: byte, count: nat, more: seq<byte>)
    ensures Grows(ReadList(data, id, count), ReadList(data + more, id, count), more)
    decreases |data|, 4
  {
    if count > 0 {
      PayloadGrows(data, id, more);
      var r := ReadPayload(data, id);
      if r.Ok? { ListGrows(r.rest, id, count - 1, more); }
    }
  }

  lemma {:induction false} EntriesGrow(data: seq<byte>, entries: seq<Entry>, more: seq<byte>)
    ensures Grows(ReadEntries(data, entries), ReadEntries(data + more, entries), more)
    decreases |data|, 2
  {
    if data != [] {
      Longer(data, 1, more);
      assert (data + more)[0] == data[0];
      if data[0] != 0 {
        TagGrows(data, more);
        var r := ReadTag(data);
        if r.Ok? { EntriesGrow(r.rest, Put(entries, r.value), more); }
      }
    }
  }

  lemma {:induction false} TagGrows(data: seq<byte>, more: seq<byte>)
    requires data != []
    ensures Grows(ReadTag(data), ReadTag(data + more), more)
    decreases |data|, 1
  {
    Longer(data, 1, more);
    WordGrows(data[1..], 2, more);
    var w := ReadWord(data[1..], 2);
    if w.Ok? {
      BlockGrows(w.rest, Signed(w.value, TWO16), more);
      var b := ReadBlock(w.rest, Signed(w.value, TWO16));
      if b.Ok? { PayloadGrows(b.rest, data[0], more); }
    }
  }

  /** The payload of a well-formed tree cut off anywhere is reported as ending too early. */
  lemma CutOffPayload(t: Tag, k: nat)
    requires WellFormed(t) && k < |Payload(t)|
    ensures ReadPayload(Payload(t)[..k], Id(t)) == Err(UnexpectedEof)
  {
    var s := Payload(t);
    PayloadGrows(s[..k], Id(t), s[k..]);
    assert s[..k] + s[k..] == s && s + [] == s;
    PayloadRoundTrip(t, []);
  }

  /** So is a named compound, unless nothing of it is there. */
  lemma CutOffCompound(name: seq<byte>, t: Tag, k: nat)
    requires WellFormed(t) && GoodName(name) && t.Compound? && 0 < k < |NamedTag(name, t)|
    ensures ReadRaw(NamedTag(name, t)[..k]) == Err(UnexpectedEof)
  {
    var s := NamedTag(name, t);
    TagGrows(s[..k], s[k..]);
    assert s[..k] + s[k..] == s && s + [] == s;
    RawRoundTrip(name, t, []);
  }

  // ------------------------------------------------------------------ other errors

  /** Only the eleven ids of the format are read, whatever the input. */
  lemma IdsOfTheFormat(data: seq<byte>, id: byte)
    ensures ReadPayload(data, id) == Err(InvalidId) || 1 <= id <= 11
    ensures id == 0 || id > 11 ==> ReadPayload(data, id) == Err(InvalidId)
    ensures ReadPayload(data, id).Ok? ==> Id(ReadPayload(data, id).value) == id
  {
  }

  /** A root that is no compound is refused, however well-formed it is. */
  lemma RootIsCompound(name: seq<byte>, t: Tag, rest: seq<byte>)
    requires WellFormed(t) && GoodName(name)
    ensures ReadRaw(NamedTag(name, t) + rest) ==
      if t.Compound? then Ok(Entry(name, Erase(t)), rest) else Err(NotCompound)
    ensures ReadRaw([]) == Err(NotCompound)
  {
    TagBack(Entry(name, t), rest);
    PayloadRoundTrip(t, rest);
  }

  /** A list whose count is negative is empty. */
  lemma NegativeCount(kind: byte, count: nat, rest: seq<byte>)
    requires TWO31 <= count < TWO32
    ensures ReadPayload([kind] + BigEndian(count, 4) + rest, 9) == Ok(List(0, []), rest)
  {
    PowersOf256();
    BigEndianRoundTrip(count, 4);
    ListHeader(kind, BigEndian(count, 4), [], rest);
    assert [kind] + BigEndian(count, 4) + [] + rest == [kind] + BigEndian(count, 4) + rest;
    assert [] + rest == rest;
  }

  function Lookup(entries: seq<Entry>, name: seq<byte>): Read<Tag> {
    if entries == [] then Err(NotCompound)
    else if entries[0].name == name then Ok(entries[0].tag, [])
    else Lookup(entries[1..], name)
  }

  /** Of two entries with one name the later one counts, and no other is touched. */
  lemma {:induction false} LaterCounts(entries: seq<Entry>, e: Entry, name: seq<byte>)
    ensures Lookup(Put(entries, e), name) == if name == e.name then Ok(e.tag, []) else Lookup(entries, name)
  {
    if entries != [] && entries[0].name != e.name {
      LaterCounts(entries[1..], e, name);
    }
  }

  /** A name or string is read up to its first NUL. */
  lemma {:induction false} CutAtNul(s: seq<byte>, more: seq<byte>)
    requires NoNul(s)
    ensures CString(s + [0] + more) == s
  {
    if s == [] {
      assert s + [0] + more == [0] + more;
    } else {
      CutAtNul(s[1..], more);
      assert (s + [0] + more)[1..] == s[1..] + [0] + more;
    }
  }

  // --------------------------------------------------------------- bytes of the format

  lemma BigEndianTwo(v: nat)
    ensures BigEndian(v, 2) == [v / 256 % 256, v % 256]
  {
    assert BigEndian(v / 256 / 256, 0) == [];
    assert BigEndian(v / 256, 1) == [v / 256 % 256];
  }

  lemma BigEndianFour(v: nat)
    ensures BigEndian(v, 4) == [v / 256 / 256 / 256 % 256, v / 256 / 256 % 256, v / 256 % 256, v % 256]
  {
    BigEndianTwo(v / 256 / 256);
    assert BigEndian(v / 256, 3) == BigEndian(v / 256 / 256, 2) + [v / 256 % 256];
    assert BigEndian(v, 4) == BigEndian(v / 256, 3) + [v % 256];
  }

  lemma BigEndianOf(v: nat)
    ensures BigEndian(v, 2) == [v / 256 % 256, v % 256]
    ensures BigEndian(v, 4) == [v / 256 / 256 / 256 % 256, v / 256 / 256 % 256, v / 256 % 256, v % 256]
  {
    BigEndianTwo(v);
    BigEndianFour(v);
  }

  /** The ids of the format and the sizes of its fields. */
  lemma IdsAndSizes(v: nat, bytes: seq<byte>, elems: seq<Tag>, entries: seq<Entry>, ints: seq<nat>)
    ensures Id(Byte(v)) == 1 && |Payload(Byte(v))| == 1 && Id(Short(v)) == 2 && |Payload(Short(v))| == 2
    ensures Id(Int(v)) == 3 && |Payload(Int(v))| == 4 && Id(Long(v)) == 4 && |Payload(Long(v))| == 8
    ensures Id(Float(v)) == 5 && |Payload(Float(v))| == 4 && Id(Double(v)) == 6 && |Payload(Double(v))| == 8
    ensures Id(ByteArray(bytes)) == 7 && |Payload(ByteArray(bytes))| == 4 + |bytes|
    ensures Id(String(bytes)) == 8 && |Payload(String(bytes))| == 2 + |bytes|
    ensures Id(List(1, elems)) == 9 && Id(Compound(entries)) == 10
    ensures Id(IntArray(ints)) == 11 && |Payload(IntArray(ints))| == 4 + 4 * |ints|
  {
  }

  const GREETING := Entry([115], String([104, 105]))
  const SHORTS := Entry([108], List(2, [Short(258)]))
  const INTS := Entry([97], IntArray([16909060]))

  lemma StringBytes()
    ensures NamedTag(GREETING.name, GREETING.tag) == [8, 0, 1, 115, 0, 2, 104, 105]
  {
    BigEndianOf(1);
    BigEndianOf(2);
  }

  lemma ListBytes()
    ensures NamedTag(SHORTS.name, SHORTS.tag) == [9, 0, 1, 108, 2, 0, 0, 0, 1, 1, 2]
  {
    BigEndianOf(1);
    BigEndianOf(258);
    assert Payloads([Short(258)]) == BigEndian(258, 2);
  }

  lemma IntArrayBytes()
    ensures NamedTag(INTS.name, INTS.tag) == [11, 0, 1, 97, 0, 0, 0, 1, 1, 2, 3, 4]
  {
    BigEndianOf(1);
    BigEndianOf(16909060);
    assert Ints([16909060]) == BigEndian(16909060, 4);
  }

  lemma NamedThree(a: Entry, b: Entry, c: Entry)
    ensures Named([a, b, c]) == NamedTag(a.name, a.tag) + NamedTag(b.name, b.tag) + NamedTag(c.name, c.tag)
  {
    assert [a, b, c][1..] == [b, c] && [b, c][1..] == [c];
    assert Named([c]) == NamedTag(c.name, c.tag);
    assert Named([b, c]) == NamedTag(b.name, b.tag) + Named([c]);
  }

  lemma RootBytes(entries: seq<Entry>)
    ensures NamedTag([114], Compound(entries)) == [10, 0, 1, 114] + Named(entries) + [0]
  {
    BigEndianOf(1);
    assert Header(10, [114]) == [10, 0, 1, 114];
    Reassociate([10, 0, 1, 114], Named(entries), [0]);
  }

  /** A named compound of a string, a list of shorts and an int array, byte by byte. */
  lemma FormatExample()
    ensures NamedTag([114], Compound([GREETING, SHORTS, INTS])) ==
      [10, 0, 1, 114] + (
        [8, 0, 1, 115, 0, 2, 104, 105] +
        [9, 0, 1, 108, 2, 0, 0, 0, 1, 1, 2] +
        [11, 0, 1, 97, 0, 0, 0, 1, 1, 2, 3, 4]) +
      [0]
  {
    RootBytes([GREETING, SHORTS, INTS]);
    StringBytes();
    ListBytes();
    IntArrayBytes();
    NamedThree(GREETING, SHORTS, INTS);
  }
}
