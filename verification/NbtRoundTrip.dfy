/** The writer's calls for a whole tree, and reading back what they wrote. */
module NbtRoundTrip {
  import opened Bytes
  import opened ByteBuffers
  import opened NbtFormat
  import opened NbtWriter
  import opened NbtReader

  /** The balanced sequence of calls that a tree stands for. */
  method PutTree(w: Writer, name: seq<byte>, t: Tag)
    requires w.Valid() && SlotsOk(w.View())
    modifies w, w.buf, w.buf.data
    ensures w.Valid() && (w.buf.data == old(w.buf.data) || fresh(w.buf.data))
    ensures w.View() == WriteTree(old(w.View()), name, t)
    decreases t, 1
  {
    match t
    case List(kind, elems) => PutList(w, name, kind, elems);
    case Compound(entries) => PutCompound(w, name, entries);
    case _ => PutScalar(w, name, t);
  }

  method PutScalar(w: Writer, name: seq<byte>, t: Tag)
    requires w.Valid() && !t.List? && !t.Compound?
    modifies w, w.buf, w.buf.data
    ensures w.Valid() && (w.buf.data == old(w.buf.data) || fresh(w.buf.data))
    ensures w.View() == PutLeaf(old(w.View()), name, t)
  {
    match t
    case Byte(v) => w.PutNumber(t, v, 1, name);
    case Short(v) => w.PutNumber(t, v, 2, name);
    case Int(v) => w.PutNumber(t, v, 4, name);
    case Long(v) => w.PutNumber(t, v, 8, name);
    case Float(v) => w.PutNumber(t, v, 4, name);
    case Double(v) => w.PutNumber(t, v, 8, name);
    case ByteArray(bytes) => w.PutByteArray(bytes, name);
    case String(chars) => w.PutString(chars, name);
    case IntArray(ints) => w.PutIntArray(ints, name);
  }

  lemma ListSteps(w: Written, name: seq<byte>, kind: byte, elems: seq<Tag>)
    requires SlotsOk(w)
    ensures var s := StartList(w, name, kind);
      SlotsOk(s) && CanEndList(WriteElements(s, elems))
      && WriteTree(w, name, List(kind, elems)) == EndList(WriteElements(s, elems))
  {
    ApplyKeepsSlots(w, OpStartList(name, kind));
    ApplyKeepsSlots(WriteElements(StartList(w, name, kind), elems), OpEndList);
  }

  lemma CompoundSteps(w: Written, name: seq<byte>, entries: seq<Entry>)
    requires SlotsOk(w)
    ensures var s := StartCompound(w, name);
      SlotsOk(s) && |WriteEntries(s, entries).frames| >= 2
      && WriteTree(w, name, Compound(entries)) == EndCompound(WriteEntries(s, entries))
  {
    ApplyKeepsSlots(w, OpStartCompound(name));
    var s := StartCompound(w, name);
    assert |WriteEntries(s, entries).frames| == |s.frames| == |w.frames| + 1;
  }

  method PutList(w: Writer, name: seq<byte>, kind: byte, elems: seq<Tag>)
    requires w.Valid() && SlotsOk(w.View())
    modifies w, w.buf, w.buf.data
    ensures w.Valid() && (w.buf.data == old(w.buf.data) || fresh(w.buf.data))
    ensures w.View() == WriteTree(old(w.View()), name, List(kind, elems))
    decreases elems, 1
  {
    ListSteps(w.View(), name, kind, elems);
    w.BeginList(kind, name);
    PutElements(w, elems);
    w.FinishList();
  }

  method PutCompound(w: Writer, name: seq<byte>, entries: seq<Entry>)
    requires w.Valid() && SlotsOk(w.View())
    modifies w, w.buf, w.buf.data
    ensures w.Valid() && (w.buf.data == old(w.buf.data) || fresh(w.buf.data))
    ensures w.View() == WriteTree(old(w.View()), name, Compound(entries))
    decreases entries, 1
  {
    CompoundSteps(w.View(), name, entries);
    w.BeginCompound(name);
    PutEntries(w, entries);
    w.FinishCompound();
  }

  method PutElements(w: Writer, elems: seq<Tag>)
    requires w.Valid() && SlotsOk(w.View())
    modifies w, w.buf, w.buf.data
    ensures w.Valid() && (w.buf.data == old(w.buf.data) || fresh(w.buf.data))
    ensures w.View() == WriteElements(old(w.View()), elems)
    decreases elems, 0
  {
    if elems != [] {
      PutTree(w, [], elems[0]);
      PutElements(w, elems[1..]);
    }
  }

  method PutEntries(w: Writer, entries: seq<Entry>)
    requires w.Valid() && SlotsOk(w.View())
    modifies w, w.buf, w.buf.data
    ensures w.Valid() && (w.buf.data == old(w.buf.data) || fresh(w.buf.data))
    ensures w.View() == WriteEntries(old(w.View()), entries)
    decreases entries, 0
  {
    if entries != [] {
      PutTree(w, entries[0].name, entries[0].tag);
      PutEntries(w, entries[1..]);
    }
  }

  /** A compound written by a new writer and read by a new reader comes back. */
  method WriteThenRead(name: seq<byte>, t: Tag) returns (r: Outcome<Entry>)
    requires WellFormed(t) && GoodName(name) && t.Compound?
    ensures r == Done(Entry(name, Erase(t)))
  {
    var w := new Writer();
    PutTree(w, name, t);
    WriterReaderRoundTrip(name, t, []);
    var bytes := w.buf.data[..w.buf.len];
    assert bytes == w.buf.Contents() == WriteTree(ROOT, name, t).bytes;
    assert bytes + [] == bytes;
    var cursor := new Cursor(bytes);
    r := cursor.Raw();
  }
}
