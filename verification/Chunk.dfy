/** Packed block storage of a 16x256x16 chunk: ids and metadata share 16-bit words, light
    levels share bytes, sub-chunks are allocated on first use, and a height per column is
    kept up to date without rescanning the column on every change. */
module Chunk {
  import opened Bytes

  // ------------------------------------------------------------- packing laws

  type Word = w: nat | w < TWO16

  // Masks and shifts as arithmetic: x & 15 is x % 16, x >> 4 is x / 16, x << 4 is 16 * x,
  // and joining two bit fields that do not overlap with | is +.

  function IdOf(w: Word): Word { w / 16 }

  function MetaOf(w: Word): Word { w % 16 }

  function WithId(w: Word, id: Word): Word
    requires id < 4096
  {
    w % 16 + 16 * id
  }

  function WithMeta(w: Word, meta: Word): Word
    requires meta < 16
  {
    w - w % 16 + meta
  }

  lemma PackingIsIndependent(w: Word, id: Word, meta: Word)
    requires id < 4096 && meta < 16
    ensures IdOf(WithId(w, id)) == id && MetaOf(WithId(w, id)) == MetaOf(w)
    ensures IdOf(WithMeta(w, meta)) == IdOf(w) && MetaOf(WithMeta(w, meta)) == meta
    ensures IdOf(16 * id + meta) == id && MetaOf(16 * id + meta) == meta
  {
  }

  /** Light of an even or odd cell out of the byte the two share. */
  function NibbleOf(b: byte, odd: bool): byte {
    if odd then b / 16 else b % 16
  }

  function WithNibble(b: byte, odd: bool, v: byte): byte
    requires v < 16
  {
    if odd then b % 16 + 16 * v else b - b % 16 + v
  }

  lemma NibblesAreIndependent(b: byte, odd: bool, v: byte)
    requires v < 16
    ensures NibbleOf(WithNibble(b, odd, v), odd) == v
    ensures NibbleOf(WithNibble(b, odd, v), !odd) == NibbleOf(b, !odd)
  {
  }

  /** A word is the id above four bits of metadata; of two cells sharing a byte the one with the
      even index has the low half. */
  lemma HalvesInOrder(w: Word, b: byte)
    ensures w == 16 * IdOf(w) + MetaOf(w) && MetaOf(w) < 16
    ensures b == 16 * NibbleOf(b, true) + NibbleOf(b, false) && NibbleOf(b, false) < 16
  {
  }

  // ------------------------------------------------------------------ cells

  datatype Cell = Cell(x: nat, y: nat, z: nat)

  predicate InChunk(c: Cell) { c.x < 16 && c.y < 256 && c.z < 16 }

  function Sub(c: Cell): nat { c.y / 16 }

  function Index(c: Cell): nat { (c.y % 16) * 256 + c.z * 16 + c.x }

  lemma IndexParts(c: Cell)
    requires InChunk(c)
    ensures Index(c) / 256 == c.y % 16 && Index(c) / 16 % 16 == c.z && Index(c) % 16 == c.x
    ensures c.y == 16 * Sub(c) + c.y % 16 && Sub(c) < 16 && Index(c) < 4096
  {
    var high := c.y % 16 * 16 + c.z;
    assert Index(c) == 16 * high + c.x;
    assert Index(c) / 16 == high && high / 16 == c.y % 16;
  }

  lemma HalfIndex(i: nat, j: nat)
    requires i / 2 == j / 2 && i % 2 == j % 2
    ensures i == j
  {
  }

  lemma IndexInjective(c: Cell, d: Cell)
    requires InChunk(c) && InChunk(d)
    ensures Sub(c) < 16 && Index(c) < 4096
    ensures Sub(c) == Sub(d) && Index(c) == Index(d) ==> c == d
    ensures Sub(c) == Sub(d) && Index(c) / 2 == Index(d) / 2 && Index(c) % 2 == Index(d) % 2 ==> c == d
  {
    IndexParts(c);
    IndexParts(d);
    if Index(c) / 2 == Index(d) / 2 && Index(c) % 2 == Index(d) % 2 {
      HalfIndex(Index(c), Index(d));
    }
  }

  lemma ColumnInjective(i: nat, k: nat, x: nat, z: nat)
    requires i < 16 && k < 16 && x < 16 && z < 16
    ensures 0 <= k * 16 + i < 256 && (k * 16 + i == z * 16 + x ==> i == x && k == z)
  {
  }

  // ------------------------------------------------------------------ storage

  class SubChunk {
    const types: array<Word>
    const sl: array<byte>
    const bl: array<byte>

    constructor ()
      ensures fresh(types) && fresh(sl) && fresh(bl)
      ensures Shaped()
      ensures forall i :: 0 <= i < 4096 ==> types[i] == 0
      ensures forall i :: 0 <= i < 2048 ==> sl[i] == 0 && bl[i] == 0
    {
      types := new Word[4096](_ => 0);
      sl := new byte[2048](_ => 0);
      bl := new byte[2048](_ => 0);
    }

    ghost predicate Shaped() {
      types.Length == 4096 && sl.Length == 2048 && bl.Length == 2048 && sl != bl
    }
  }

  class Chunk {
    const subs: array<SubChunk?>
    const hmap: array<int>
    const solid: Word -> bool
    ghost var Repr: set<object>

    ghost predicate Owned(s: SubChunk)
      reads this
    {
      s in Repr && s.types in Repr && s.sl in Repr && s.bl in Repr && s.Shaped()
    }

    ghost predicate Apart(s: SubChunk, r: SubChunk) {
      s != r && s.types != r.types && s.sl != r.sl && s.sl != r.bl && s.bl != r.sl && s.bl != r.bl
    }

    ghost predicate Shaped()
      reads this, Repr
    {
      && this in Repr && subs in Repr && hmap in Repr
      && subs.Length == 16 && hmap.Length == 256
      && (forall i :: 0 <= i < 16 && subs[i] != null ==> Owned(subs[i]))
      && (forall i, j :: 0 <= i < j < 16 && subs[i] != null && subs[j] != null ==> Apart(subs[i], subs[j]))
    }

    // What the chunk holds at a cell, absent sub-chunks reading as zero.

    ghost function WordAt(c: Cell): Word
      requires Shaped() && InChunk(c)
      reads this, Repr
    {
      if subs[Sub(c)] == null then 0 else subs[Sub(c)].types[Index(c)]
    }

    ghost function Id(c: Cell): Word
      requires Shaped() && InChunk(c)
      reads this, Repr
    {
      IdOf(WordAt(c))
    }

    ghost function Meta(c: Cell): Word
      requires Shaped() && InChunk(c)
      reads this, Repr
    {
      MetaOf(WordAt(c))
    }

    ghost function Sky(c: Cell): byte
      requires Shaped() && InChunk(c)
      reads this, Repr
    {
      if subs[Sub(c)] == null then 0
      else NibbleOf(subs[Sub(c)].sl[Index(c) / 2], Index(c) % 2 == 1)
    }

    ghost function BlockLight(c: Cell): byte
      requires Shaped() && InChunk(c)
      reads this, Repr
    {
      if subs[Sub(c)] == null then 0
      else NibbleOf(subs[Sub(c)].bl[Index(c) / 2], Index(c) % 2 == 1)
    }

    /** Column (x, z) is as high as one plus its highest solid opaque block. */
    ghost predicate HeightOk(x: nat, z: nat)
      requires Shaped() && x < 16 && z < 16
      reads this, Repr
    {
      var h := hmap[z * 16 + x];
      && 0 <= h <= 256
      && (h > 0 ==> solid(Id(Cell(x, h - 1, z))))
      && forall y :: h <= y < 256 ==> !solid(Id(Cell(x, y, z)))
    }

    ghost predicate Valid()
      reads this, Repr
    {
      Shaped() && forall x, z :: 0 <= x < 16 && 0 <= z < 16 ==> HeightOk(x, z)
    }

    constructor (solid: Word -> bool)
      requires !solid(0)
      ensures Valid() && fresh(Repr) && this.solid == solid
      ensures forall c :: InChunk(c) ==> WordAt(c) == 0 && Sky(c) == 0 && BlockLight(c) == 0
    {
      this.subs := new SubChunk?[16](_ => null);
      this.hmap := new int[256](_ => 0);
      this.solid := solid;
      new;
      Repr := {this, subs, hmap};
    }

    /** Allocates sub-chunk sy if it is missing; nothing observable changes. */
    method Touch(sy: nat) returns (sub: SubChunk)
      requires Shaped() && sy < 16
      modifies this, subs
      ensures Shaped() && fresh(Repr - old(Repr)) && old(Repr) <= Repr
      ensures sub == subs[sy] && unchanged(hmap) && (old(Valid()) ==> Valid())
      ensures forall c :: InChunk(c) ==>
        WordAt(c) == old(WordAt(c)) && Sky(c) == old(Sky(c)) && BlockLight(c) == old(BlockLight(c))
    {
      if subs[sy] == null {
        Allocate(sy);
      }
      sub := subs[sy];
    }

    method Allocate(sy: nat)
      requires Shaped() && sy < 16 && subs[sy] == null
      modifies this, subs
      ensures Shaped() && fresh(Repr - old(Repr)) && old(Repr) <= Repr
      ensures subs[sy] != null && unchanged(hmap) && (old(Valid()) ==> Valid())
      ensures forall c :: InChunk(c) ==>
        WordAt(c) == old(WordAt(c)) && Sky(c) == old(Sky(c)) && BlockLight(c) == old(BlockLight(c))
    {
      var s := new SubChunk();
      subs[sy] := s;
      Repr := Repr + {s, s.types, s.sl, s.bl};
      forall x, z | 0 <= x < 16 && 0 <= z < 16 && old(HeightOk(x, z)) ensures HeightOk(x, z) {
      }
    }

    /** Writes one height entry: no block changes, and other columns stay right. */
    method PutHeight(x: nat, z: nat, h: int)
      requires Shaped() && x < 16 && z < 16
      modifies hmap
      ensures Shaped() && hmap[z * 16 + x] == h
      ensures forall c :: InChunk(c) ==>
        WordAt(c) == old(WordAt(c)) && Sky(c) == old(Sky(c)) && BlockLight(c) == old(BlockLight(c))
      ensures forall i, k :: 0 <= i < 16 && 0 <= k < 16 && (i, k) != (x, z) && old(HeightOk(i, k)) ==> HeightOk(i, k)
    {
      ColumnInjective(x, z, x, z);
      hmap[z * 16 + x] := h;
      forall i, k | 0 <= i < 16 && 0 <= k < 16 && (i, k) != (x, z) && old(HeightOk(i, k)) ensures HeightOk(i, k) {
        ColumnInjective(i, k, x, z);
      }
    }

    method GetId(x: nat, y: nat, z: nat) returns (id: Word)
      requires Shaped() && InChunk(Cell(x, y, z))
      ensures id == Id(Cell(x, y, z))
    {
      var sub := subs[y / 16];
      if sub == null {
        return 0;
      }
      IndexInjective(Cell(x, y, z), Cell(x, y, z));
      id := sub.types[(y % 16) * 256 + z * 16 + x] / 16;
    }

    /** Looks downwards from a row above which the column is known to be clear. */
    method RecalcHeightAt(x: nat, z: nat, from: int)
      requires Shaped() && x < 16 && z < 16 && -1 <= from < 256
      requires forall y :: from < y < 256 ==> !solid(Id(Cell(x, y, z)))
      modifies hmap
      ensures Shaped() && HeightOk(x, z)
      ensures forall c :: InChunk(c) ==>
        WordAt(c) == old(WordAt(c)) && Sky(c) == old(Sky(c)) && BlockLight(c) == old(BlockLight(c))
      ensures forall i, k :: 0 <= i < 16 && 0 <= k < 16 && (i, k) != (x, z) && old(HeightOk(i, k)) ==> HeightOk(i, k)
    {
      var h := HighestSolid(x, z, from);
      PutHeight(x, z, h + 1);
    }

    /** The highest solid row at or below one above which the column is clear, or -1. */
    method HighestSolid(x: nat, z: nat, from: int) returns (h: int)
      requires Shaped() && x < 16 && z < 16 && -1 <= from < 256
      requires forall y :: from < y < 256 ==> !solid(Id(Cell(x, y, z)))
      ensures -1 <= h <= from && (h >= 0 ==> solid(Id(Cell(x, h, z))))
      ensures forall y :: h < y < 256 ==> !solid(Id(Cell(x, y, z)))
    {
      h := from;
      while h >= 0
        invariant -1 <= h <= from
        invariant forall y :: h < y < 256 ==> !solid(Id(Cell(x, y, z)))
      {
        var id := GetId(x, h, z);
        if solid(id) {
          break;
        }
        h := h - 1;
      }
    }

    /** The heightmap part of set_id and set_id_and_meta: the column was as high as its entry
        says before the block at row y became id. */
    method UpdateHeight(x: nat, y: nat, z: nat, id: Word)
      requires Shaped() && InChunk(Cell(x, y, z)) && Id(Cell(x, y, z)) == id
      requires var h := hmap[z * 16 + x]; 0 <= h <= 256 && (h > 0 && h - 1 != y ==> solid(Id(Cell(x, h - 1, z))))
      requires forall r :: hmap[z * 16 + x] <= r < 256 && r != y ==> !solid(Id(Cell(x, r, z)))
      modifies hmap
      ensures Shaped() && HeightOk(x, z)
      ensures forall c :: InChunk(c) ==>
        WordAt(c) == old(WordAt(c)) && Sky(c) == old(Sky(c)) && BlockLight(c) == old(BlockLight(c))
      ensures forall i, k :: 0 <= i < 16 && 0 <= k < 16 && (i, k) != (x, z) && old(HeightOk(i, k)) ==> HeightOk(i, k)
    {
      if solid(id) {
        if y >= hmap[z * 16 + x] {
          PutHeight(x, z, y + 1);
        }
      } else if hmap[z * 16 + x] == y + 1 {
        RecalcHeightAt(x, z, y - 1);
      }
    }

    /** Overwrites the word of one cell. */
    method StoreWord(c: Cell, w: Word)
      requires Shaped() && InChunk(c) && subs[Sub(c)] != null
      modifies subs[Sub(c)].types
      ensures Shaped() && unchanged(hmap)
      ensures forall x, z | 0 <= x < 16 && 0 <= z < 16 && old(HeightOk(x, z)) &&
        ((x, z) != (c.x, c.z) || IdOf(w) == old(Id(c))) :: HeightOk(x, z)
      ensures forall d :: InChunk(d) ==>
        WordAt(d) == (if d == c then w else old(WordAt(d))) &&
        Sky(d) == old(Sky(d)) && BlockLight(d) == old(BlockLight(d))
    {
      IndexInjective(c, c);
      subs[Sub(c)].types[Index(c)] := w;
      forall d | InChunk(d) ensures WordAt(d) == if d == c then w else old(WordAt(d)) {
        IndexInjective(c, d);
      }
      forall x, z | 0 <= x < 16 && 0 <= z < 16 && old(HeightOk(x, z)) &&
          ((x, z) != (c.x, c.z) || IdOf(w) == old(Id(c)))
        ensures HeightOk(x, z)
      {
      }
    }

    /** Overwrites one cell's half of a sky-light byte. */
    method StoreSky(c: Cell, v: byte)
      requires Shaped() && InChunk(c) && subs[Sub(c)] != null && v < 16
      modifies subs[Sub(c)].sl
      ensures Shaped() && unchanged(hmap) && (old(Valid()) ==> Valid())
      ensures forall d :: InChunk(d) ==>
        WordAt(d) == old(WordAt(d)) && BlockLight(d) == old(BlockLight(d)) &&
        Sky(d) == (if d == c then v else old(Sky(d)))
    {
      StoreSkyByte(c, v);
      forall x, z | 0 <= x < 16 && 0 <= z < 16 && old(HeightOk(x, z)) ensures HeightOk(x, z) {
      }
    }

    method StoreSkyByte(c: Cell, v: byte)
      requires Shaped() && InChunk(c) && subs[Sub(c)] != null && v < 16
      modifies subs[Sub(c)].sl
      ensures Shaped() && unchanged(hmap)
      ensures forall d :: InChunk(d) ==>
        WordAt(d) == old(WordAt(d)) && BlockLight(d) == old(BlockLight(d)) &&
        Sky(d) == (if d == c then v else old(Sky(d)))
    {
      IndexInjective(c, c);
      var a, odd := subs[Sub(c)].sl, Index(c) % 2 == 1;
      a[Index(c) / 2] := WithNibble(a[Index(c) / 2], odd, v);
      forall d | InChunk(d) ensures Sky(d) == if d == c then v else old(Sky(d)) {
        IndexInjective(c, d);
        NibblesAreIndependent(old(a[Index(c) / 2]), odd, v);
      }
    }

    /** Overwrites one cell's half of a block-light byte. */
    method StoreBlockLight(c: Cell, v: byte)
      requires Shaped() && InChunk(c) && subs[Sub(c)] != null && v < 16
      modifies subs[Sub(c)].bl
      ensures Shaped() && unchanged(hmap) && (old(Valid()) ==> Valid())
      ensures forall d :: InChunk(d) ==>
        WordAt(d) == old(WordAt(d)) && Sky(d) == old(Sky(d)) &&
        BlockLight(d) == (if d == c then v else old(BlockLight(d)))
    {
      StoreBlockLightByte(c, v);
      forall x, z | 0 <= x < 16 && 0 <= z < 16 && old(HeightOk(x, z)) ensures HeightOk(x, z) {
      }
    }

    method StoreBlockLightByte(c: Cell, v: byte)
      requires Shaped() && InChunk(c) && subs[Sub(c)] != null && v < 16
      modifies subs[Sub(c)].bl
      ensures Shaped() && unchanged(hmap)
      ensures forall d :: InChunk(d) ==>
        WordAt(d) == old(WordAt(d)) && Sky(d) == old(Sky(d)) &&
        BlockLight(d) == (if d == c then v else old(BlockLight(d)))
    {
      IndexInjective(c, c);
      var a, odd := subs[Sub(c)].bl, Index(c) % 2 == 1;
      a[Index(c) / 2] := WithNibble(a[Index(c) / 2], odd, v);
      forall d | InChunk(d) ensures BlockLight(d) == if d == c then v else old(BlockLight(d)) {
        IndexInjective(c, d);
        NibblesAreIndependent(old(a[Index(c) / 2]), odd, v);
      }
    }

    /** Stores a word and brings the height of its column up to date. */
    method StoreBlock(c: Cell, w: Word)
      requires Valid() && InChunk(c) && subs[Sub(c)] != null
      modifies subs[Sub(c)].types, hmap
      ensures Valid()
      ensures forall d :: InChunk(d) ==>
        WordAt(d) == (if d == c then w else old(WordAt(d))) &&
        Sky(d) == old(Sky(d)) && BlockLight(d) == old(BlockLight(d))
    {
      assert HeightOk(c.x, c.z);
      StoreWord(c, w);
      UpdateHeight(c.x, c.y, c.z, IdOf(w));
    }

    method SetId(x: nat, y: nat, z: nat, id: Word)
      requires Valid() && InChunk(Cell(x, y, z)) && id < 4096
      modifies Repr
      ensures Valid() && fresh(Repr - old(Repr))
      ensures forall c :: InChunk(c) ==>
        Id(c) == (if c == Cell(x, y, z) then id else old(Id(c))) && Meta(c) == old(Meta(c)) &&
        Sky(c) == old(Sky(c)) && BlockLight(c) == old(BlockLight(c))
    {
      var at := Cell(x, y, z);
      var sub := Touch(y / 16);
      IndexInjective(at, at);
      PackingIsIndependent(sub.types[Index(at)], id, 0);
      StoreBlock(at, WithId(sub.types[Index(at)], id));
    }

    method SetMeta(x: nat, y: nat, z: nat, meta: Word)
      requires Valid() && InChunk(Cell(x, y, z)) && meta < 16
      modifies Repr
      ensures Valid() && fresh(Repr - old(Repr))
      ensures forall c :: InChunk(c) ==>
        Meta(c) == (if c == Cell(x, y, z) then meta else old(Meta(c))) && Id(c) == old(Id(c)) &&
        Sky(c) == old(Sky(c)) && BlockLight(c) == old(BlockLight(c))
    {
      var at := Cell(x, y, z);
      var sub := Touch(y / 16);
      IndexInjective(at, at);
      PackingIsIndependent(sub.types[Index(at)], 0, meta);
      StoreWord(at, WithMeta(sub.types[Index(at)], meta));
    }

    method SetIdAndMeta(x: nat, y: nat, z: nat, id: Word, meta: Word)
      requires Valid() && InChunk(Cell(x, y, z)) && id < 4096 && meta < 16
      modifies Repr
      ensures Valid() && fresh(Repr - old(Repr))
      ensures forall c :: InChunk(c) ==>
        Id(c) == (if c == Cell(x, y, z) then id else old(Id(c))) &&
        Meta(c) == (if c == Cell(x, y, z) then meta else old(Meta(c))) &&
        Sky(c) == old(Sky(c)) && BlockLight(c) == old(BlockLight(c))
    {
      var at := Cell(x, y, z);
      var sub := Touch(y / 16);
      PackingIsIndependent(0, id, meta);
      StoreBlock(at, 16 * id + meta);
    }

    method SetSkyLight(x: nat, y: nat, z: nat, v: byte)
      requires Valid() && InChunk(Cell(x, y, z)) && v < 16
      modifies Repr
      ensures Valid() && fresh(Repr - old(Repr))
      ensures forall c :: InChunk(c) ==>
        Sky(c) == (if c == Cell(x, y, z) then v else old(Sky(c))) &&
        Id(c) == old(Id(c)) && Meta(c) == old(Meta(c)) && BlockLight(c) == old(BlockLight(c))
    {
      var sub := Touch(y / 16);
      StoreSky(Cell(x, y, z), v);
    }

    method SetBlockLight(x: nat, y: nat, z: nat, v: byte)
      requires Valid() && InChunk(Cell(x, y, z)) && v < 16
      modifies Repr
      ensures Valid() && fresh(Repr - old(Repr))
      ensures forall c :: InChunk(c) ==>
        BlockLight(c) == (if c == Cell(x, y, z) then v else old(BlockLight(c))) &&
        Id(c) == old(Id(c)) && Meta(c) == old(Meta(c)) && Sky(c) == old(Sky(c))
    {
      var sub := Touch(y / 16);
      StoreBlockLight(Cell(x, y, z), v);
    }

    /** These getters allocate a missing sub-chunk, which no reader can tell. */
    method GetMeta(x: nat, y: nat, z: nat) returns (meta: Word)
      requires Valid() && InChunk(Cell(x, y, z))
      modifies this, subs
      ensures Valid() && fresh(Repr - old(Repr)) && meta == old(Meta(Cell(x, y, z)))
      ensures forall c :: InChunk(c) ==>
        WordAt(c) == old(WordAt(c)) && Sky(c) == old(Sky(c)) && BlockLight(c) == old(BlockLight(c))
    {
      var sub := Touch(y / 16);
      ghost var c := Cell(x, y, z);
      IndexInjective(c, c);
      assert WordAt(c) == old(WordAt(c));
      meta := sub.types[(y % 16) * 256 + z * 16 + x] % 16;
      assert meta == WordAt(c) % 16;
    }

    method GetSkyLight(x: nat, y: nat, z: nat) returns (v: byte)
      requires Valid() && InChunk(Cell(x, y, z))
      modifies this, subs
      ensures Valid() && fresh(Repr - old(Repr)) && v == old(Sky(Cell(x, y, z)))
      ensures forall c :: InChunk(c) ==>
        WordAt(c) == old(WordAt(c)) && Sky(c) == old(Sky(c)) && BlockLight(c) == old(BlockLight(c))
    {
      var sub := Touch(y / 16);
      var index := (y % 16) * 256 + z * 16 + x;
      IndexInjective(Cell(x, y, z), Cell(x, y, z));
      v := if index % 2 == 1 then sub.sl[index / 2] / 16 else sub.sl[index / 2] % 16;
    }

    method GetBlockLight(x: nat, y: nat, z: nat) returns (v: byte)
      requires Valid() && InChunk(Cell(x, y, z))
      modifies this, subs
      ensures Valid() && fresh(Repr - old(Repr)) && v == old(BlockLight(Cell(x, y, z)))
      ensures forall c :: InChunk(c) ==>
        WordAt(c) == old(WordAt(c)) && Sky(c) == old(Sky(c)) && BlockLight(c) == old(BlockLight(c))
    {
      var sub := Touch(y / 16);
      var index := (y % 16) * 256 + z * 16 + x;
      IndexInjective(Cell(x, y, z), Cell(x, y, z));
      v := if index % 2 == 1 then sub.bl[index / 2] / 16 else sub.bl[index / 2] % 16;
    }
  }
}
