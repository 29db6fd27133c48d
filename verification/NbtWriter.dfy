/** The writer: a stack of open lists and compounds over a byte buffer.  A list's length is
    not known when its header is written; end_list goes back and fills it in. */
module NbtWriter {
  import opened Bytes
  import opened ByteBuffers
  import opened NbtFormat

  datatype Frame = Frame(isList: bool, lenPos: nat, len: nat)

  /** What was written so far and the frames still open, the innermost last. */
  datatype Written = Written(bytes: seq<byte>, frames: seq<Frame>)

  const ROOT := Written([], [Frame(false, 0, 0)])

  function Top(frames: seq<Frame>): Frame
    requires frames != []
  {
    frames[|frames| - 1]
  }

  function BumpBy(frames: seq<Frame>, n: nat): seq<Frame>
    requires frames != []
  {
    frames[|frames| - 1 := Top(frames).(len := Top(frames).len + n)]
  }

  function Bump(frames: seq<Frame>): seq<Frame>
    requires frames != []
  {
    BumpBy(frames, 1)
  }

  function Pop(frames: seq<Frame>): seq<Frame>
    requires frames != []
  {
    frames[..|frames| - 1]
  }

  /** Counts a new element and, outside lists, writes its header. */
  function Lead(w: Written, id: byte, name: seq<byte>): Written
    requires w.frames != []
  {
    Written(w.bytes + if Top(w.frames).isList then [] else Header(id, name), Bump(w.frames))
  }

  function PutLeaf(w: Written, name: seq<byte>, t: Tag): Written
    requires w.frames != []
  {
    var l := Lead(w, Id(t), name);
    l.(bytes := l.bytes + Payload(t))
  }

  function StartList(w: Written, name: seq<byte>, kind: byte): Written
    requires w.frames != []
  {
    var l := Lead(w, 9, name);
    Written(l.bytes + [kind] + BigEndian(0, 4), l.frames + [Frame(true, |l.bytes| + 1, 0)])
  }

  predicate CanEndList(w: Written) {
    |w.frames| >= 2 && Top(w.frames).isList && Top(w.frames).lenPos + 4 <= |w.bytes|
  }

  function EndList(w: Written): Written
    requires CanEndList(w)
  {
    Written(Overwrite(w.bytes, Top(w.frames).lenPos, BigEndian(Top(w.frames).len, 4)), Pop(w.frames))
  }

  function StartCompound(w: Written, name: seq<byte>): Written
    requires w.frames != []
  {
    var l := Lead(w, 10, name);
    l.(frames := l.frames + [Frame(false, 0, 0)])
  }

  function EndCompound(w: Written): Written
    requires |w.frames| >= 2
  {
    Written(w.bytes + [0], Pop(w.frames))
  }

  // -------------------------------------------------------------- length slots

  /** Every open list's length slot lies in the buffer, disjoint from and after the slots of
      the lists around it. */
  ghost predicate SlotsOk(w: Written) {
    && w.frames != []
    && (forall i :: 0 <= i < |w.frames| && w.frames[i].isList ==> w.frames[i].lenPos + 4 <= |w.bytes|)
    && (forall i, j :: 0 <= i < j < |w.frames| && w.frames[i].isList && w.frames[j].isList ==>
          w.frames[i].lenPos + 4 <= w.frames[j].lenPos)
  }

  datatype Op =
    | OpPut(name: seq<byte>, leaf: Tag)
    | OpStartList(name: seq<byte>, kind: byte)
    | OpEndList
    | OpStartCompound(name: seq<byte>)
    | OpEndCompound

  /** Calls that the current frames allow. */
  predicate Allowed(w: Written, op: Op) {
    match op
    case OpEndList => |w.frames| >= 2 && Top(w.frames).isList
    case OpEndCompound => |w.frames| >= 2 && !Top(w.frames).isList
    case _ => true
  }

  function Apply(w: Written, op: Op): Written
    requires w.frames != [] && Allowed(w, op) && (op.OpEndList? ==> CanEndList(w))
  {
    match op
    case OpPut(name, leaf) => PutLeaf(w, name, leaf)
    case OpStartList(name, kind) => StartList(w, name, kind)
    case OpEndList => EndList(w)
    case OpStartCompound(name) => StartCompound(w, name)
    case OpEndCompound => EndCompound(w)
  }

  /** One call keeps the slots sound. */
  lemma ApplyKeepsSlots(w: Written, op: Op)
    requires SlotsOk(w) && Allowed(w, op)
    ensures op.OpEndList? ==> CanEndList(w)
    ensures SlotsOk(Apply(w, op)) && |Apply(w, op).bytes| >= |w.bytes|
  {
  }

  /** end_list changes its own slot and nothing else, in particular no other open slot. */
  lemma EndListChangesOnlyItsSlot(w: Written, k: nat)
    requires SlotsOk(w) && CanEndList(w) && k < |w.bytes|
    requires !(Top(w.frames).lenPos <= k < Top(w.frames).lenPos + 4)
    ensures |EndList(w).bytes| == |w.bytes| && EndList(w).bytes[k] == w.bytes[k]
    ensures EndList(w).bytes[Top(w.frames).lenPos..Top(w.frames).lenPos + 4] == BigEndian(Top(w.frames).len, 4)
  {
  }

  // ------------------------------------------------------------------ any sequence

  /** Every call is allowed where it is made. */
  ghost predicate Runs(ops: seq<Op>)
    decreases |ops|, 0
  {
    ops == [] || (Runs(ops[..|ops| - 1]) && Allowed(Run(ops[..|ops| - 1]), ops[|ops| - 1]))
  }

  ghost function Run(ops: seq<Op>): (w: Written)
    requires Runs(ops)
    ensures SlotsOk(w)
    decreases |ops|, 1
  {
    if ops == [] then ROOT
    else
      var w := Run(ops[..|ops| - 1]);
      ApplyKeepsSlots(w, ops[|ops| - 1]);
      Apply(w, ops[|ops| - 1])
  }

  predicate Opens(op: Op) { op.OpStartList? || op.OpStartCompound? }

  predicate Closes(op: Op) { op.OpEndList? || op.OpEndCompound? }

  /** Lists and compounds open after the calls, the root included. */
  function Depth(ops: seq<Op>): int {
    if ops == [] then 1
    else
      var op := ops[|ops| - 1];
      Depth(ops[..|ops| - 1]) + if Opens(op) then 1 else if Closes(op) then -1 else 0
  }

  /** Elements started, since it was opened, in the list or compound open at depth d. */
  function Started(ops: seq<Op>, d: nat): nat {
    if ops == [] then 0
    else
      var before, op := ops[..|ops| - 1], ops[|ops| - 1];
      if Opens(op) && Depth(before) == d then 0
      else if !Closes(op) && Depth(before) == d + 1 then Started(before, d) + 1
      else Started(before, d)
  }

  /** The frames count what was started in each open list or compound. */
  ghost predicate Counted(ops: seq<Op>, frames: seq<Frame>) {
    |frames| == Depth(ops) && forall d :: 0 <= d < |frames| ==> frames[d].len == Started(ops, d)
  }

  lemma CountedNext(ops: seq<Op>, w: Written)
    requires ops != [] && SlotsOk(w) && Counted(ops[..|ops| - 1], w.frames) && Allowed(w, ops[|ops| - 1])
    requires ops[|ops| - 1].OpEndList? ==> CanEndList(w)
    ensures Counted(ops, Apply(w, ops[|ops| - 1]).frames)
  {
  }

  /** At every point of every sequence of calls, balanced or not, each open list's slot lies in
      the buffer, disjoint from the others, and each frame's len is the number of elements
      started in it so far. */
  lemma {:induction false} RunCounts(ops: seq<Op>)
    requires Runs(ops)
    ensures SlotsOk(Run(ops)) && Counted(ops, Run(ops).frames)
    decreases |ops|
  {
    if ops != [] {
      var before := ops[..|ops| - 1];
      RunCounts(before);
      ApplyKeepsSlots(Run(before), ops[|ops| - 1]);
      CountedNext(ops, Run(before));
    }
  }

  lemma SlotWritten(w: Written)
    requires CanEndList(w)
    ensures var at := Top(w.frames).lenPos;
      |EndList(w).bytes| == |w.bytes| && EndList(w).bytes[at..at + 4] == BigEndian(Top(w.frames).len, 4)
  {
  }

  /** So end_list writes the number of elements that were started in the list. */
  lemma EndListWritesCount(ops: seq<Op>)
    requires ops != [] && Runs(ops) && ops[|ops| - 1].OpEndList?
    ensures var before := ops[..|ops| - 1];
      var at := Top(Run(before).frames).lenPos;
      && at + 4 <= |Run(ops).bytes| == |Run(before).bytes| && Depth(before) >= 2
      && Run(ops).bytes[at..at + 4] == BigEndian(Started(before, Depth(before) - 1), 4)
  {
    var before := ops[..|ops| - 1];
    RunCounts(before);
    ApplyKeepsSlots(Run(before), ops[|ops| - 1]);
    SlotWritten(Run(before));
  }

  // ----------------------------------------------------------- balanced sequences

  lemma PopBumped(frames: seq<Frame>, top: Frame, n: nat)
    ensures Pop(BumpBy(frames + [top], n)) == frames && |BumpBy(frames + [top], n)| == |frames| + 1
  {
  }

  /** The writer calls that a tree stands for.  They leave the frames as they found them but
      for one more element in the innermost. */
  function WriteTree(w: Written, name: seq<byte>, t: Tag): (r: Written)
    requires SlotsOk(w)
    ensures SlotsOk(r) && r.frames == Bump(w.frames) && |r.bytes| >= |w.bytes|
    decreases t, 1
  {
    match t
    case List(kind, elems) =>
      ApplyKeepsSlots(w, OpStartList(name, kind));
      var e := WriteElements(StartList(w, name, kind), elems);
      ApplyKeepsSlots(e, OpEndList);
      PopBumped(Bump(w.frames), Top(StartList(w, name, kind).frames), |elems|);
      EndList(e)
    case Compound(entries) =>
      ApplyKeepsSlots(w, OpStartCompound(name));
      var e := WriteEntries(StartCompound(w, name), entries);
      ApplyKeepsSlots(e, OpEndCompound);
      PopBumped(Bump(w.frames), Frame(false, 0, 0), |entries|);
      EndCompound(e)
    case _ =>
      ApplyKeepsSlots(w, OpPut(name, t));
      PutLeaf(w, name, t)
  }

  function WriteElements(w: Written, elems: seq<Tag>): (r: Written)
    requires SlotsOk(w)
    ensures SlotsOk(r) && r.frames == BumpBy(w.frames, |elems|) && |r.bytes| >= |w.bytes|
    decreases elems, 0
  {
    if elems == [] then w
    else WriteElements(WriteTree(w, [], elems[0]), elems[1..])
  }

  function WriteEntries(w: Written, entries: seq<Entry>): (r: Written)
    requires SlotsOk(w)
    ensures SlotsOk(r) && r.frames == BumpBy(w.frames, |entries|) && |r.bytes| >= |w.bytes|
    decreases entries, 0
  {
    if entries == [] then w
    else WriteEntries(WriteTree(w, entries[0].name, entries[0].tag), entries[1..])
  }

  function Encoded(w: Written, name: seq<byte>, t: Tag): seq<byte>
    requires w.frames != []
  {
    if Top(w.frames).isList then Payload(t) else NamedTag(name, t)
  }

  /** The stack machine that patches lengths afterwards writes what the encoder that knows them
      in advance does. */
  lemma {:induction false} TreeIsEncoded(w: Written, name: seq<byte>, t: Tag)
    requires SlotsOk(w)
    ensures WriteTree(w, name, t).bytes == w.bytes + Encoded(w, name, t)
    decreases t, 1
  {
    match t
    case List(kind, elems) =>
      ApplyKeepsSlots(w, OpStartList(name, kind));
      ElementsAreEncoded(StartList(w, name, kind), elems);
      ListIsEncoded(w, name, kind, elems);
    case Compound(entries) =>
      ApplyKeepsSlots(w, OpStartCompound(name));
      EntriesAreEncoded(StartCompound(w, name), entries);
      CompoundIsEncoded(w, name, entries);
    case _ =>
      LeadEncoded(w, name, t);
  }

  /** Closing a list whose header and elements are in place. */
  lemma ListClosed(l: seq<byte>, kind: byte, n: nat, elems: seq<byte>, e: Written)
    requires CanEndList(e) && Top(e.frames).lenPos == |l| + 1 && Top(e.frames).len == n
    requires e.bytes == l + [kind] + BigEndian(0, 4) + elems
    ensures EndList(e).bytes == l + ([kind] + BigEndian(n, 4) + elems)
  {
    PatchLength(l + [kind], 0, n, elems);
  }

  lemma ListIsEncoded(w: Written, name: seq<byte>, kind: byte, elems: seq<Tag>)
    requires SlotsOk(w) && SlotsOk(StartList(w, name, kind))
    requires var s := StartList(w, name, kind); WriteElements(s, elems).bytes == s.bytes + Payloads(elems)
    ensures var t := List(kind, elems); WriteTree(w, name, t).bytes == w.bytes + Encoded(w, name, t)
  {
    var s := StartList(w, name, kind);
    var e := WriteElements(s, elems);
    ApplyKeepsSlots(e, OpEndList);
    ListClosed(Lead(w, 9, name).bytes, kind, |elems|, Payloads(elems), e);
    LeadEncoded(w, name, List(kind, elems));
  }

  lemma CompoundIsEncoded(w: Written, name: seq<byte>, entries: seq<Entry>)
    requires SlotsOk(w) && SlotsOk(StartCompound(w, name))
    requires var s := StartCompound(w, name); WriteEntries(s, entries).bytes == s.bytes + Named(entries)
    ensures var t := Compound(entries); WriteTree(w, name, t).bytes == w.bytes + Encoded(w, name, t)
  {
    var l := Lead(w, 10, name).bytes;
    assert l + Named(entries) + [0] == l + (Named(entries) + [0]);
    LeadEncoded(w, name, Compound(entries));
  }

  lemma LeadEncoded(w: Written, name: seq<byte>, t: Tag)
    requires w.frames != []
    ensures Lead(w, Id(t), name).bytes + Payload(t) == w.bytes + Encoded(w, name, t)
  {
  }

  /** Filling in a four-byte slot between what precedes and what follows it. */
  lemma PatchLength(before: seq<byte>, was: nat, n: nat, after: seq<byte>)
    ensures Overwrite(before + BigEndian(was, 4) + after, |before|, BigEndian(n, 4)) == before + BigEndian(n, 4) + after
  {
  }

  lemma ElementFirst(before: seq<byte>, elems: seq<Tag>)
    requires elems != []
    ensures before + Payload(elems[0]) + Payloads(elems[1..]) == before + Payloads(elems)
  {
    Reassociate(before, Payload(elems[0]), Payloads(elems[1..]));
  }

  lemma EntryFirst(before: seq<byte>, entries: seq<Entry>)
    requires entries != []
    ensures before + NamedTag(entries[0].name, entries[0].tag) + Named(entries[1..]) == before + Named(entries)
  {
    Reassociate(before, NamedTag(entries[0].name, entries[0].tag), Named(entries[1..]));
  }

  lemma {:induction false} ElementsAreEncoded(w: Written, elems: seq<Tag>)
    requires SlotsOk(w) && Top(w.frames).isList
    ensures WriteElements(w, elems).bytes == w.bytes + Payloads(elems)
    decreases elems, 0
  {
    if elems != [] {
      TreeIsEncoded(w, [], elems[0]);
      ElementsAreEncoded(WriteTree(w, [], elems[0]), elems[1..]);
      ElementFirst(w.bytes, elems);
    }
  }

  lemma {:induction false} EntriesAreEncoded(w: Written, entries: seq<Entry>)
    requires SlotsOk(w) && !Top(w.frames).isList
    ensures WriteEntries(w, entries).bytes == w.bytes + Named(entries)
    decreases entries, 0
  {
    if entries != [] {
      var e := entries[0];
      TreeIsEncoded(w, e.name, e.tag);
      EntriesAreEncoded(WriteTree(w, e.name, e.tag), entries[1..]);
      EntryFirst(w.bytes, entries);
    }
  }

  /** Reading what the writer calls for a tree have written gives the tree back. */
  lemma WriterReaderRoundTrip(name: seq<byte>, t: Tag, rest: seq<byte>)
    requires WellFormed(t) && GoodName(name) && t.Compound?
    ensures ReadRaw(WriteTree(ROOT, name, t).bytes + rest) == Ok(Entry(name, Erase(t)), rest)
  {
    TreeIsEncoded(ROOT, name, t);
    assert [] + NamedTag(name, t) == NamedTag(name, t);
    RawRoundTrip(name, t, rest);
  }

  // ------------------------------------------------------------ the buffer writer

  lemma IntFirst(before: seq<byte>, ints: seq<nat>)
    requires ints != []
    ensures before + Ints(ints) == before + BigEndian(ints[0], 4) + Ints(ints[1..])
  {
    Reassociate(before, BigEndian(ints[0], 4), Ints(ints[1..]));
  }

  class Writer {
    const buf: ByteBuffer
    var frms: seq<Frame>

    ghost predicate Valid()
      reads this, buf
    {
      buf.Valid() && buf.pos == buf.len && frms != []
    }

    ghost function View(): Written
      requires Valid()
      reads this, buf, buf.data
    {
      Written(buf.Contents(), frms)
    }

    constructor ()
      ensures Valid() && fresh(buf) && fresh(buf.data) && View() == ROOT
    {
      buf := new ByteBuffer();
      frms := [Frame(false, 0, 0)];
    }

    method Append(b: seq<byte>)
      requires Valid()
      modifies buf, buf.data
      ensures Valid() && (buf.data == old(buf.data) || fresh(buf.data))
      ensures buf.Contents() == old(buf.Contents()) + b
    {
      buf.PutBytes(b);
      assert old(buf.Contents())[..old(buf.pos)] == old(buf.Contents());
    }

    method AppendByte(v: byte)
      requires Valid()
      modifies buf, buf.data
      ensures Valid() && (buf.data == old(buf.data) || fresh(buf.data))
      ensures buf.Contents() == old(buf.Contents()) + [v]
    {
      buf.PutByte(v);
      assert old(buf.Contents())[..old(buf.pos)] == old(buf.Contents());
    }

    method Begin(id: byte, name: seq<byte>)
      requires Valid()
      modifies this, buf, buf.data
      ensures Valid() && (buf.data == old(buf.data) || fresh(buf.data))
      ensures View() == Lead(old(View()), id, name)
    {
      frms := frms[|frms| - 1 := frms[|frms| - 1].(len := frms[|frms| - 1].len + 1)];
      if !frms[|frms| - 1].isList {
        AppendByte(id);
        Append(BigEndian(|name|, 2));
        Append(name);
        assert old(buf.Contents()) + [id] + BigEndian(|name|, 2) + name == old(buf.Contents()) + Header(id, name);
      } else {
        assert old(buf.Contents()) + [] == old(buf.Contents());
      }
    }

    /** put_byte, put_short, put_int, put_long, put_float and put_double. */
    method PutNumber(t: Tag, v: nat, n: nat, name: seq<byte>)
      requires Valid() && Id(t) <= 6 && Payload(t) == BigEndian(v, n)
      modifies this, buf, buf.data
      ensures Valid() && (buf.data == old(buf.data) || fresh(buf.data))
      ensures View() == PutLeaf(old(View()), name, t)
    {
      Begin(Id(t), name);
      Append(BigEndian(v, n));
    }

    method PutByteArray(arr: seq<byte>, name: seq<byte>)
      requires Valid()
      modifies this, buf, buf.data
      ensures Valid() && (buf.data == old(buf.data) || fresh(buf.data))
      ensures View() == PutLeaf(old(View()), name, ByteArray(arr))
    {
      Begin(7, name);
      ghost var b := buf.Contents();
      Append(BigEndian(|arr|, 4));
      Append(arr);
      assert b + BigEndian(|arr|, 4) + arr == b + Payload(ByteArray(arr));
    }

    method PutString(val: seq<byte>, name: seq<byte>)
      requires Valid()
      modifies this, buf, buf.data
      ensures Valid() && (buf.data == old(buf.data) || fresh(buf.data))
      ensures View() == PutLeaf(old(View()), name, String(val))
    {
      Begin(8, name);
      ghost var b := buf.Contents();
      Append(BigEndian(|val|, 2));
      Append(val);
      assert b + BigEndian(|val|, 2) + val == b + Payload(String(val));
    }

    method PutIntArray(arr: seq<nat>, name: seq<byte>)
      requires Valid()
      modifies this, buf, buf.data
      ensures Valid() && (buf.data == old(buf.data) || fresh(buf.data))
      ensures View() == PutLeaf(old(View()), name, IntArray(arr))
    {
      Begin(11, name);
      ghost var b := buf.Contents();
      Append(BigEndian(|arr|, 4));
      AppendInts(arr);
      Reassociate(b, BigEndian(|arr|, 4), Ints(arr));
    }

    method AppendInts(arr: seq<nat>)
      requires Valid()
      modifies buf, buf.data
      ensures Valid() && (buf.data == old(buf.data) || fresh(buf.data))
      ensures buf.Contents() == old(buf.Contents()) + Ints(arr)
    {
      for i := 0 to |arr|
        invariant Valid() && (buf.data == old(buf.data) || fresh(buf.data))
        invariant buf.Contents() + Ints(arr[i..]) == old(buf.Contents()) + Ints(arr)
      {
        IntFirst(buf.Contents(), arr[i..]);
        assert arr[i..][1..] == arr[i + 1..];
        Append(BigEndian(arr[i], 4));
      }
      assert buf.Contents() + [] == buf.Contents();
    }

    method BeginList(kind: byte, name: seq<byte>)
      requires Valid()
      modifies this, buf, buf.data
      ensures Valid() && (buf.data == old(buf.data) || fresh(buf.data))
      ensures View() == StartList(old(View()), name, kind)
    {
      Begin(9, name);
      AppendByte(kind);
      var lenPos := buf.pos;
      Append(BigEndian(0, 4));
      frms := frms + [Frame(true, lenPos, 0)];
    }

    method FinishList()
      requires Valid() && CanEndList(View())
      modifies this, buf, buf.data
      ensures Valid() && (buf.data == old(buf.data) || fresh(buf.data))
      ensures View() == EndList(old(View()))
    {
      var frm := frms[|frms| - 1];
      frms := frms[..|frms| - 1];
      var ppos := buf.pos;
      buf.Seek(frm.lenPos);
      buf.PutBigEndian(frm.len, 4);
      buf.Seek(ppos);
    }

    method BeginCompound(name: seq<byte>)
      requires Valid()
      modifies this, buf, buf.data
      ensures Valid() && (buf.data == old(buf.data) || fresh(buf.data))
      ensures View() == StartCompound(old(View()), name)
    {
      Begin(10, name);
      frms := frms + [Frame(false, 0, 0)];
    }

    method FinishCompound()
      requires Valid() && |frms| >= 2
      modifies this, buf, buf.data
      ensures Valid() && (buf.data == old(buf.data) || fresh(buf.data))
      ensures View() == EndCompound(old(View()))
    {
      frms := frms[..|frms| - 1];
      AppendByte(0);
    }
  }
}
