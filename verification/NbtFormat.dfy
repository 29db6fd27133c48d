/** Named binary tags: the trees, their encoding, and the parser as a function from bytes to a
    tag and the bytes left over. */
module NbtFormat {
  import opened Bytes
  import opened ByteBuffers

  datatype Tag =
    | Byte(b: nat)
    | Short(s: nat)
    | Int(i: nat)
    | Long(l: nat)
    | Float(f: nat)     // floating-point values as their bit patterns
    | Double(d: nat)
    | ByteArray(bytes: seq<byte>)
    | String(chars: seq<byte>)
    | List(kind: byte, elems: seq<Tag>)
    | Compound(entries: seq<Entry>)
    | IntArray(ints: seq<nat>)

  datatype Entry = Entry(name: seq<byte>, tag: Tag)

  function Id(t: Tag): byte {
    match t
    case Byte(_) => 1
    case Short(_) => 2
    case Int(_) => 3
    case Long(_) => 4
    case Float(_) => 5
    case Double(_) => 6
    case ByteArray(_) => 7
    case String(_) => 8
    case List(_, _) => 9
    case Compound(_) => 10
    case IntArray(_) => 11
  }

  function Ints(ints: seq<nat>): (s: seq<byte>)
    ensures |s| == 4 * |ints|
  {
    if ints == [] then [] else BigEndian(ints[0], 4) + Ints(ints[1..])
  }

  /** The bytes of a tag without its header. */
  function Payload(t: Tag): seq<byte>
    decreases t, 1
  {
    match t
    case Byte(b) => BigEndian(b, 1)
    case Short(s) => BigEndian(s, 2)
    case Int(i) => BigEndian(i, 4)
    case Long(l) => BigEndian(l, 8)
    case Float(f) => BigEndian(f, 4)
    case Double(d) => BigEndian(d, 8)
    case ByteArray(bytes) => BigEndian(|bytes|, 4) + bytes
    case String(chars) => BigEndian(|chars|, 2) + chars
    case List(kind, elems) => [kind] + BigEndian(|elems|, 4) + Payloads(elems)
    case Compound(entries) => Named(entries) + [0]
    case IntArray(ints) => BigEndian(|ints|, 4) + Ints(ints)
  }

  function Payloads(elems: seq<Tag>): seq<byte>
    decreases elems, 0
  {
    if elems == [] then [] else Payload(elems[0]) + Payloads(elems[1..])
  }

  function Header(id: byte, name: seq<byte>): seq<byte> {
    [id] + BigEndian(|name|, 2) + name
  }

  function Named(entries: seq<Entry>): seq<byte>
    decreases entries, 0
  {
    if entries == [] then []
    else Header(Id(entries[0].tag), entries[0].name) + Payload(entries[0].tag) + Named(entries[1..])
  }

  function NamedTag(name: seq<byte>, t: Tag): seq<byte> {
    Header(Id(t), name) + Payload(t)
  }

  predicate NoNul(s: seq<byte>) {
    forall i :: 0 <= i < |s| ==> s[i] != 0
  }

  /** The trees the format can carry. */
  ghost predicate WellFormed(t: Tag)
    decreases t
  {
    match t
    case Byte(b) => b < 256
    case Short(s) => s < TWO16
    case Int(i) => i < TWO32
    case Long(l) => l < TWO64
    case Float(f) => f < TWO32
    case Double(d) => d < TWO64
    case ByteArray(bytes) => |bytes| < TWO31
    case String(chars) => |chars| < TWO16 && NoNul(chars)
    case List(kind, elems) =>
      |elems| < TWO31 && forall i :: 0 <= i < |elems| ==> Id(elems[i]) == kind && WellFormed(elems[i])
    case Compound(entries) =>
      && (forall i :: 0 <= i < |entries| ==> GoodName(entries[i].name) && WellFormed(entries[i].tag))
      && (forall i, j :: 0 <= i < j < |entries| ==> entries[i].name != entries[j].name)
    case IntArray(ints) => 4 * |ints| < TWO31 && forall i :: 0 <= i < |ints| ==> ints[i] < TWO32
  }

  predicate GoodName(name: seq<byte>) {
    |name| < TWO16 / 2 && NoNul(name)
  }

  /** The reader does not keep the element type of a list. */
  function Erase(t: Tag): Tag
    decreases t, 1
  {
    match t
    case List(_, elems) => List(0, EraseAll(elems))
    case Compound(entries) => Compound(EraseEntries(entries))
    case _ => t
  }

  function EraseAll(elems: seq<Tag>): seq<Tag>
    decreases elems, 0
  {
    if elems == [] then [] else [Erase(elems[0])] + EraseAll(elems[1..])
  }

  function EraseEntries(entries: seq<Entry>): seq<Entry>
    decreases entries, 0
  {
    if entries == [] then []
    else [Entry(entries[0].name, Erase(entries[0].tag))] + EraseEntries(entries[1..])
  }

  // ------------------------------------------------------------------- parsing

  /** UndefinedLength: a negative or overflowing length field, where the source's behaviour is
      not defined. */
  datatype Error = UnexpectedEof | InvalidId | NotCompound | UndefinedLength

  datatype Read<T> = Ok(value: T, rest: seq<byte>) | Err(error: Error)

  function Signed(u: nat, modulus: nat): int {
    if u < modulus / 2 then u else u - modulus
  }

  /** The C string that a byte block holds. */
  function CString(s: seq<byte>): seq<byte> {
    if s == [] || s[0] == 0 then [] else [s[0]] + CString(s[1..])
  }

  function ReadWord(data: seq<byte>, n: nat): (r: Read<nat>)
    ensures r.Ok? ==> n <= |data| && r.rest == data[n..]
  {
    if |data| < n then Err(UnexpectedEof) else Ok(FromBigEndian(data[..n]), data[n..])
  }

  function ReadBlock(data: seq<byte>, n: int): (r: Read<seq<byte>>)
    ensures r.Ok? ==> 0 <= n <= |data| && r.rest == data[n..]
  {
    if n < 0 then Err(UndefinedLength)
    else if |data| < n then Err(UnexpectedEof)
    else Ok(data[..n], data[n..])
  }

  function ReadInts(data: seq<byte>, n: nat): seq<nat>
    requires 4 * n <= |data|
  {
    if n == 0 then [] else [FromBigEndian(data[..4])] + ReadInts(data[4..], n - 1)
  }

  /** std::unordered_map's operator[] assignment: the order of entries is never observed. */
  function Put(entries: seq<Entry>, e: Entry): seq<Entry> {
    if entries == [] then [e]
    else if entries[0].name == e.name then [e] + entries[1..]
    else [entries[0]] + Put(entries[1..], e)
  }

  function ReadByteArray(data: seq<byte>): (r: Read<Tag>)
    ensures r.Ok? ==> |r.rest| < |data|
  {
    match ReadWord(data, 4)
    case Err(e) => Err(e)
    case Ok(u, rest) =>
      match ReadBlock(rest, Signed(u, TWO32))
      case Err(e) => Err(e)
      case Ok(block, rest') => Ok(ByteArray(block), rest')
  }

  function ReadString(data: seq<byte>): (r: Read<Tag>)
    ensures r.Ok? ==> |r.rest| < |data|
  {
    match ReadWord(data, 2)
    case Err(e) => Err(e)
    case Ok(u, rest) =>
      match ReadBlock(rest, u)
      case Err(e) => Err(e)
      case Ok(block, rest') => Ok(String(CString(block)), rest')
  }

  function ReadIntArray(data: seq<byte>): (r: Read<Tag>)
    ensures r.Ok? ==> |r.rest| < |data|
  {
    match ReadWord(data, 4)
    case Err(e) => Err(e)
    case Ok(u, rest) =>
      var n := Signed(u, TWO32);
      if n < 0 || 4 * n >= TWO31 then Err(UndefinedLength)
      else match ReadBlock(rest, 4 * n)
      case Err(e) => Err(e)
      case Ok(block, rest') => Ok(IntArray(ReadInts(block, n)), rest')
  }

  function ReadScalar(data: seq<byte>, n: nat, make: nat -> Tag): (r: Read<Tag>)
    requires n > 0
    ensures r.Ok? ==> |r.rest| < |data|
  {
    match ReadWord(data, n)
    case Err(e) => Err(e)
    case Ok(u, rest) => Ok(make(u), rest)
  }

  /** _read_payload.  Every success consumes at least one byte, which bounds the recursion. */
  function ReadPayload(data: seq<byte>, id: byte): (r: Read<Tag>)
    ensures r.Ok? ==> |r.rest| < |data|
    decreases |data|, 3
  {
    match id
    case 1 => ReadScalar(data, 1, (u: nat) => Byte(u))
    case 2 => ReadScalar(data, 2, (u: nat) => Short(u))
    case 3 => ReadScalar(data, 4, (u: nat) => Int(u))
    case 4 => ReadScalar(data, 8, (u: nat) => Long(u))
    case 5 => ReadScalar(data, 4, (u: nat) => Float(u))
    case 6 => ReadScalar(data, 8, (u: nat) => Double(u))
    case 7 => ReadByteArray(data)
    case 8 => ReadString(data)
    case 9 =>
      if |data| < 5 then Err(UnexpectedEof)
      else
        var count := Signed(FromBigEndian(data[1..5]), TWO32);
        (match ReadList(data[5..], data[0], if count < 0 then 0 else count)
         case Err(e) => Err(e)
         case Ok(elems, rest) => Ok(List(0, elems), rest))
    case 10 =>
      (match ReadEntries(data, [])
       case Err(e) => Err(e)
       case Ok(entries, rest) => Ok(Compound(entries), rest))
    case 11 => ReadIntArray(data)
    case _ => Err(InvalidId)
  }

  function ReadList(data: seq<byte>, id: byte, count: nat): (r: Read<seq<Tag>>)
    ensures r.Ok? ==> |r.rest| <= |data|
    decreases |data|, 4
  {
    if count == 0 then Ok([], data)
    else match ReadPayload(data, id)
      case Err(e) => Err(e)
      case Ok(tag, rest) =>
        match ReadList(rest, id, count - 1)
        case Err(e) => Err(e)
        case Ok(tags, rest') => Ok([tag] + tags, rest')
  }

  /** The loop of _read_payload_compound, entries being what the map holds so far. */
  function ReadEntries(data: seq<byte>, entries: seq<Entry>): (r: Read<seq<Entry>>)
    ensures r.Ok? ==> |r.rest| < |data|
    decreases |data|, 2
  {
    if data == [] then Err(UnexpectedEof)
    else if data[0] == 0 then Ok(entries, data[1..])
    else match ReadTag(data)
      case Err(e) => Err(e)
      case Ok(entry, rest) => ReadEntries(rest, Put(entries, entry))
  }

  /** _read_tag on input that is not empty. */
  function ReadTag(data: seq<byte>): (r: Read<Entry>)
    requires data != []
    ensures r.Ok? ==> |r.rest| < |data|
    decreases |data|, 1
  {
    match ReadWord(data[1..], 2)
    case Err(e) => Err(e)
    case Ok(u, rest) =>
      match ReadBlock(rest, Signed(u, TWO16))
      case Err(e) => Err(e)
      case Ok(name, rest') =>
        match ReadPayload(rest', data[0])
        case Err(e) => Err(e)
        case Ok(tag, rest'') => Ok(Entry(CString(name), tag), rest'')
  }

  function ReadRaw(data: seq<byte>): Read<Entry> {
    if data == [] then Err(NotCompound)
    else match ReadTag(data)
      case Err(e) => Err(e)
      case Ok(entry, rest) => if entry.tag.Compound? then Ok(entry, rest) else Err(NotCompound)
  }

  // ---------------------------------------------------------------- round trips

  lemma {:induction false} CStringWhole(s: seq<byte>)
    requires NoNul(s)
    ensures CString(s) == s
  {
    if s != [] { CStringWhole(s[1..]); }
  }

  lemma ReadWordBack(v: nat, n: nat, rest: seq<byte>)
    requires v < Pow256(n)
    ensures ReadWord(BigEndian(v, n) + rest, n) == Ok(v, rest)
  {
    BigEndianRoundTrip(v, n);
    var data := BigEndian(v, n) + rest;
    assert data[..n] == BigEndian(v, n) && data[n..] == rest;
  }

  lemma ReadBlockBack(s: seq<byte>, rest: seq<byte>)
    ensures ReadBlock(s + rest, |s|) == Ok(s, rest)
  {
    assert (s + rest)[..|s|] == s && (s + rest)[|s|..] == rest;
  }

  lemma {:induction false} ReadIntsBack(ints: seq<nat>)
    requires forall i :: 0 <= i < |ints| ==> ints[i] < TWO32
    ensures ReadInts(Ints(ints), |ints|) == ints
  {
    if ints != [] {
      PowersOf256();
      ReadIntsBack(ints[1..]);
      ReadWordBack(ints[0], 4, Ints(ints[1..]));
    }
  }

  lemma ScalarBack(t: Tag, rest: seq<byte>)
    requires WellFormed(t) && Id(t) <= 6
    ensures ReadPayload(Payload(t) + rest, Id(t)) == Ok(t, rest)
  {
    PowersOf256();
    assert Pow256(1) == 256;
    match t
    case Byte(b) => ReadWordBack(b, 1, rest);
    case Short(v) => ReadWordBack(v, 2, rest);
    case Int(v) => ReadWordBack(v, 4, rest);
    case Long(v) => ReadWordBack(v, 8, rest);
    case Float(v) => ReadWordBack(v, 4, rest);
    case Double(v) => ReadWordBack(v, 8, rest);
  }

  lemma ByteArrayBack(bytes: seq<byte>, rest: seq<byte>)
    requires |bytes| < TWO31
    ensures ReadByteArray(Payload(ByteArray(bytes)) + rest) == Ok(ByteArray(bytes), rest)
  {
    PowersOf256();
    assert Payload(ByteArray(bytes)) + rest == BigEndian(|bytes|, 4) + (bytes + rest);
    ReadWordBack(|bytes|, 4, bytes + rest);
    ReadBlockBack(bytes, rest);
  }

  lemma StringBack(chars: seq<byte>, rest: seq<byte>)
    requires |chars| < TWO16 && NoNul(chars)
    ensures ReadString(Payload(String(chars)) + rest) == Ok(String(chars), rest)
  {
    PowersOf256();
    assert Payload(String(chars)) + rest == BigEndian(|chars|, 2) + (chars + rest);
    ReadWordBack(|chars|, 2, chars + rest);
    ReadBlockBack(chars, rest);
    CStringWhole(chars);
  }

  lemma IntArrayBack(ints: seq<nat>, rest: seq<byte>)
    requires WellFormed(IntArray(ints))
    ensures ReadIntArray(Payload(IntArray(ints)) + rest) == Ok(IntArray(ints), rest)
  {
    PowersOf256();
    assert Payload(IntArray(ints)) + rest == BigEndian(|ints|, 4) + (Ints(ints) + rest);
    ReadWordBack(|ints|, 4, Ints(ints) + rest);
    ReadBlockBack(Ints(ints), rest);
    ReadIntsBack(ints);
  }

  /** Where the parts of a list's payload lie. */
  lemma ListHeader(kind: byte, n: seq<byte>, elems: seq<byte>, rest: seq<byte>)
    requires |n| == 4
    ensures var data := [kind] + n + elems + rest;
      |data| >= 5 && data[0] == kind && data[1..5] == n && data[5..] == elems + rest
  {
  }

  /** The header of a list is read back if its elements are. */
  lemma ListBack(kind: byte, elems: seq<Tag>, rest: seq<byte>, read: seq<Tag>)
    requires |elems| < TWO31
    requires ReadList(Payloads(elems) + rest, kind, |elems|) == Ok(read, rest)
    ensures ReadPayload(Payload(List(kind, elems)) + rest, 9) == Ok(List(0, read), rest)
  {
    PowersOf256();
    BigEndianRoundTrip(|elems|, 4);
    ListHeader(kind, BigEndian(|elems|, 4), Payloads(elems), rest);
  }

  lemma CompoundBack(entries: seq<Entry>, rest: seq<byte>, read: seq<Entry>)
    requires ReadEntries(Named(entries) + ([0] + rest), []) == Ok([] + read, rest)
    ensures ReadPayload(Payload(Compound(entries)) + rest, 10) == Ok(Compound(read), rest)
  {
    assert Payload(Compound(entries)) + rest == Named(entries) + ([0] + rest);
    assert [] + read == read;
  }

  /** Reading an encoded payload gives the tree back and leaves exactly what followed it. */
  lemma {:induction false} PayloadRoundTrip(t: Tag, rest: seq<byte>)
    requires WellFormed(t)
    ensures ReadPayload(Payload(t) + rest, Id(t)) == Ok(Erase(t), rest)
    decreases t, 1
  {
    match t
    case List(kind, elems) =>
      ListRoundTrip(kind, elems, rest);
      ListBack(kind, elems, rest, EraseAll(elems));
    case Compound(entries) =>
      EntriesRoundTrip(entries, [], rest);
      CompoundBack(entries, rest, EraseEntries(entries));
    case ByteArray(bytes) => ByteArrayBack(bytes, rest);
    case String(chars) => StringBack(chars, rest);
    case IntArray(ints) => IntArrayBack(ints, rest);
    case _ => ScalarBack(t, rest);
  }

  lemma {:induction false} ListRoundTrip(kind: byte, elems: seq<Tag>, rest: seq<byte>)
    requires forall i :: 0 <= i < |elems| ==> Id(elems[i]) == kind && WellFormed(elems[i])
    ensures ReadList(Payloads(elems) + rest, kind, |elems|) == Ok(EraseAll(elems), rest)
    decreases elems, 0
  {
    if elems == [] {
      assert Payloads(elems) + rest == rest;
    } else {
      var more := Payloads(elems[1..]) + rest;
      ElementSplit(elems, rest);
      PayloadRoundTrip(elems[0], more);
      ListRoundTrip(kind, elems[1..], rest);
    }
  }

  lemma ElementSplit(elems: seq<Tag>, rest: seq<byte>)
    requires elems != []
    ensures Payloads(elems) + rest == Payload(elems[0]) + (Payloads(elems[1..]) + rest)
  {
  }

  ghost predicate Absent(entries: seq<Entry>, name: seq<byte>) {
    forall i :: 0 <= i < |entries| ==> entries[i].name != name
  }

  lemma {:induction false} PutNew(entries: seq<Entry>, e: Entry)
    requires Absent(entries, e.name)
    ensures Put(entries, e) == entries + [e]
  {
    if entries != [] {
      PutNew(entries[1..], e);
      assert entries + [e] == [entries[0]] + (entries[1..] + [e]);
    }
  }

  /** Entries that can be written and then put one after the other in a map holding held. */
  ghost predicate Writable(entries: seq<Entry>, held: seq<Entry>) {
    && (forall i :: 0 <= i < |entries| ==> GoodName(entries[i].name) && WellFormed(entries[i].tag))
    && (forall i, j :: 0 <= i < j < |entries| ==> entries[i].name != entries[j].name)
    && (forall i :: 0 <= i < |entries| ==> Absent(held, entries[i].name))
  }

  lemma WritableTail(entries: seq<Entry>, held: seq<Entry>, tag: Tag)
    requires entries != [] && Writable(entries, held)
    ensures Writable(entries[1..], held + [Entry(entries[0].name, tag)])
  {
  }

  lemma {:induction false} EntriesRoundTrip(entries: seq<Entry>, held: seq<Entry>, rest: seq<byte>)
    requires Writable(entries, held)
    ensures ReadEntries(Named(entries) + ([0] + rest), held) == Ok(held + EraseEntries(entries), rest)
    decreases entries, 0
  {
    if entries == [] {
      assert Named(entries) + ([0] + rest) == [0] + rest;
      assert ([0] + rest)[1..] == rest && held + [] == held;
    } else {
      var e, tail := entries[0], entries[1..];
      var e' := Entry(e.name, Erase(e.tag));
      var more := Named(tail) + ([0] + rest);
      NamedSplit(entries, [0] + rest);
      PayloadRoundTrip(e.tag, more);
      EntryStep(e, e'.tag, held, more);
      WritableTail(entries, held, e'.tag);
      EntriesRoundTrip(tail, held + [e'], rest);
      assert held + [e'] + EraseEntries(tail) == held + ([e'] + EraseEntries(tail));
    }
  }

  lemma NamedSplit(entries: seq<Entry>, rest: seq<byte>)
    requires entries != []
    ensures Named(entries) + rest == NamedTag(entries[0].name, entries[0].tag) + (Named(entries[1..]) + rest)
  {
  }

  /** One round of the compound loop: read an entry and put it in the map. */
  lemma EntryStep(e: Entry, tag: Tag, held: seq<Entry>, more: seq<byte>)
    requires GoodName(e.name) && Absent(held, e.name)
    requires ReadPayload(Payload(e.tag) + more, Id(e.tag)) == Ok(tag, more)
    ensures ReadEntries(NamedTag(e.name, e.tag) + more, held) == ReadEntries(more, held + [Entry(e.name, tag)])
  {
    TagBack(e, more);
    PutNew(held, Entry(e.name, tag));
  }

  /** The header is read back, leaving the payload. */
  lemma TagBack(e: Entry, more: seq<byte>)
    requires GoodName(e.name)
    ensures var data := NamedTag(e.name, e.tag) + more;
      data != [] && data[0] == Id(e.tag) != 0 &&
      ReadTag(data) == match ReadPayload(Payload(e.tag) + more, Id(e.tag))
                       case Err(x) => Err(x)
                       case Ok(tag, rest) => Ok(Entry(e.name, tag), rest)
  {
    var data := NamedTag(e.name, e.tag) + more;
    PowersOf256();
    assert data[1..] == BigEndian(|e.name|, 2) + (e.name + (Payload(e.tag) + more));
    ReadWordBack(|e.name|, 2, e.name + (Payload(e.tag) + more));
    ReadBlockBack(e.name, Payload(e.tag) + more);
    CStringWhole(e.name);
  }

  /** Every well-formed compound is read back from its encoding, whatever follows. */
  lemma RawRoundTrip(name: seq<byte>, t: Tag, rest: seq<byte>)
    requires WellFormed(t) && GoodName(name) && t.Compound?
    ensures ReadRaw(NamedTag(name, t) + rest) == Ok(Entry(name, Erase(t)), rest)
  {
    TagBack(Entry(name, t), rest);
    PayloadRoundTrip(t, rest);
  }
}
