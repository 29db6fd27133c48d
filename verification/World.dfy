/** The chunk map of a world and the neighbour links that index it.  A link must always be
    what a lookup of the adjacent position would return. */
module World {
  import opened Bytes

  /** An int whose neighbours on both sides are ints too. */
  predicate Coordinate(a: int) {
    -TWO31 < a < TWO31 - 1
  }

  /** The low word is the unsigned x, the high word the unsigned z. */
  function Key(x: int, z: int): (k: nat)
    ensures k < TWO32 * TWO32
  {
    x % TWO32 + (z % TWO32) * TWO32
  }

  lemma UnsignedInjective(a: int, b: int)
    requires -TWO31 <= a < TWO31 && -TWO31 <= b < TWO31
    requires a % TWO32 == b % TWO32
    ensures a == b
  {
    assert a % TWO32 == if a < 0 then a + TWO32 else a;
    assert b % TWO32 == if b < 0 then b + TWO32 else b;
  }

  /** No two 32-bit coordinate pairs share a key. */
  lemma KeyInjective(x: int, z: int, x': int, z': int)
    requires -TWO31 <= x < TWO31 && -TWO31 <= z < TWO31
    requires -TWO31 <= x' < TWO31 && -TWO31 <= z' < TWO31
    ensures Key(x, z) == Key(x', z') <==> x == x' && z == z'
  {
    if Key(x, z) == Key(x', z') {
      var lo, hi, lo', hi' := x % TWO32, z % TWO32, x' % TWO32, z' % TWO32;
      assert lo + hi * TWO32 == lo' + hi' * TWO32;
      assert hi == hi' && lo == lo';
      UnsignedInjective(x, x');
      UnsignedInjective(z, z');
    }
  }

  class Chunk {
    const x: int
    const z: int
    var east: Chunk?
    var west: Chunk?
    var south: Chunk?
    var north: Chunk?

    constructor (x: int, z: int)
      ensures this.x == x && this.z == z
    {
      this.x, this.z := x, z;
      east, west, south, north := null, null, null, null;
    }
  }

  class World {
    const width: int
    const depth: int
    const edge: Chunk
    var chunks: map<nat, Chunk>

    constructor (width: int, depth: int)
      ensures Valid() && chunks == map[] && this.width == width && this.depth == depth && fresh(edge)
    {
      this.width, this.depth := width, depth;
      this.edge := new Chunk(0, 0);
      this.chunks := map[];
    }

    predicate OutOfBounds(x: int, z: int) {
      || (width > -1 && (x < 0 || x >= width / 16))
      || (depth > -1 && (z < 0 || z >= depth / 16))
    }

    /** The world, width by depth blocks, has the block column (bx, bz); a negative number is no
        bound. */
    predicate HasColumn(bx: int, bz: int) {
      (width < 0 || 0 <= bx < width) && (depth < 0 || 0 <= bz < depth)
    }

    /** A chunk is in bounds if and only if all its block columns are in the world. */
    lemma BoundsInBlocks(x: int, z: int)
      ensures !OutOfBounds(x, z) <==> forall bx, bz | bx / 16 == x && bz / 16 == z :: HasColumn(bx, bz)
    {
      if forall bx, bz | bx / 16 == x && bz / 16 == z :: HasColumn(bx, bz) {
        assert (16 * x) / 16 == x && (16 * x + 15) / 16 == x && (16 * z) / 16 == z && (16 * z + 15) / 16 == z;
        assert HasColumn(16 * x, 16 * z) && HasColumn(16 * x + 15, 16 * z + 15);
      }
    }

    predicate Placeable(x: int, z: int) {
      Coordinate(x) && Coordinate(z) && !OutOfBounds(x, z)
    }

    function LookupIn(filed: map<nat, Chunk>, x: int, z: int): Chunk? {
      if OutOfBounds(x, z) then edge
      else if Key(x, z) in filed then filed[Key(x, z)]
      else null
    }

    function Lookup(x: int, z: int): Chunk?
      reads this
    {
      LookupIn(chunks, x, z)
    }

    lemma LookupAfter(filed: map<nat, Chunk>, ch: Chunk, x: int, z: int)
      requires Placeable(ch.x, ch.z) && -TWO31 <= x < TWO31 && -TWO31 <= z < TWO31
      ensures LookupIn(filed[Key(ch.x, ch.z) := ch], x, z) ==
        if (x, z) == (ch.x, ch.z) then ch else LookupIn(filed, x, z)
    {
      KeyInjective(x, z, ch.x, ch.z);
    }

    /** A chunk linked before another was filed is linked but for that position after. */
    lemma LinkedAfter(filed: map<nat, Chunk>, ch: Chunk, c: Chunk)
      requires Placeable(ch.x, ch.z) && Coordinate(c.x) && Coordinate(c.z)
      requires chunks == filed[Key(ch.x, ch.z) := ch]
      requires c.east == LookupIn(filed, c.x + 1, c.z) && c.west == LookupIn(filed, c.x - 1, c.z)
      requires c.south == LookupIn(filed, c.x, c.z + 1) && c.north == LookupIn(filed, c.x, c.z - 1)
      ensures LinkedBut(c, ch.x, ch.z)
    {
      LookupAfter(filed, ch, c.x + 1, c.z);
      LookupAfter(filed, ch, c.x - 1, c.z);
      LookupAfter(filed, ch, c.x, c.z + 1);
      LookupAfter(filed, ch, c.x, c.z - 1);
    }

    ghost predicate Stored(c: Chunk)
      reads this
    {
      Key(c.x, c.z) in chunks && chunks[Key(c.x, c.z)] == c
    }

    /** Every chunk is filed under its own in-bounds position. */
    ghost predicate Filed()
      reads this
    {
      forall k :: k in chunks ==>
        var c := chunks[k];
        k == Key(c.x, c.z) && Placeable(c.x, c.z) && c != edge
    }

    // A chunk's link one way is what a lookup that way gives.

    ghost predicate EastRight(c: Chunk) reads this, c`east { c.east == Lookup(c.x + 1, c.z) }

    ghost predicate WestRight(c: Chunk) reads this, c`west { c.west == Lookup(c.x - 1, c.z) }

    ghost predicate SouthRight(c: Chunk) reads this, c`south { c.south == Lookup(c.x, c.z + 1) }

    ghost predicate NorthRight(c: Chunk) reads this, c`north { c.north == Lookup(c.x, c.z - 1) }

    ghost predicate Linked(c: Chunk)
      reads this, c
    {
      EastRight(c) && WestRight(c) && SouthRight(c) && NorthRight(c)
    }

    ghost predicate Valid()
      reads this, chunks.Values
    {
      Filed() && forall k {:trigger Linked(chunks[k])} :: k in chunks ==> Linked(chunks[k])
    }

    /** Links between stored chunks are symmetric. */
    lemma LinksAreSymmetric(a: Chunk, b: Chunk)
      requires Valid() && Stored(a) && Stored(b)
      ensures a.east == b <==> b.west == a
      ensures a.south == b <==> b.north == a
    {
      assert chunks[Key(a.x, a.z)] == a && chunks[Key(b.x, b.z)] == b;
      FacingLookups(a, b);
      assert Linked(chunks[Key(a.x, a.z)]) && Linked(chunks[Key(b.x, b.z)]);
    }

    /** Linked, except possibly where a link should lead to position (x, z). */
    ghost predicate LinkedBut(c: Chunk, x: int, z: int)
      reads this, c
    {
      && (EastRight(c) || (c.x + 1, c.z) == (x, z)) && (WestRight(c) || (c.x - 1, c.z) == (x, z))
      && (SouthRight(c) || (c.x, c.z + 1) == (x, z)) && (NorthRight(c) || (c.x, c.z - 1) == (x, z))
    }

    method GetChunk(x: int, z: int) returns (c: Chunk?)
      ensures c == Lookup(x, z)
    {
      if width > -1 && (x < 0 || x >= width / 16) {
        return edge;
      }
      if depth > -1 && (z < 0 || z >= depth / 16) {
        return edge;
      }
      c := if Key(x, z) in chunks then chunks[Key(x, z)] else null;
    }

    /** A lookup finds a filed chunk at its own position and nowhere else. */
    lemma LookupFinds(c: Chunk, x: int, z: int)
      requires Filed() && Stored(c) && -TWO31 <= x < TWO31 && -TWO31 <= z < TWO31
      ensures Lookup(x, z) == c <==> (c.x, c.z) == (x, z)
    {
      assert chunks[Key(c.x, c.z)] == c;
      KeyInjective(x, z, c.x, c.z);
      if Lookup(x, z) == c {
        assert Key(x, z) in chunks && chunks[Key(x, z)] == c;
      }
    }

    /** Two filed chunks find each other in opposite directions. */
    lemma FacingLookups(c: Chunk, d: Chunk)
      requires Filed() && Stored(c) && Stored(d)
      ensures (c.x + 1, c.z) == (d.x, d.z) <==> Lookup(c.x + 1, c.z) == d
      ensures (c.x - 1, c.z) == (d.x, d.z) <==> Lookup(c.x - 1, c.z) == d
      ensures (c.x, c.z + 1) == (d.x, d.z) <==> Lookup(c.x, c.z + 1) == d
      ensures (c.x, c.z - 1) == (d.x, d.z) <==> Lookup(c.x, c.z - 1) == d
      ensures (c.x + 1, c.z) == (d.x, d.z) <==> Lookup(d.x - 1, d.z) == c
      ensures (c.x - 1, c.z) == (d.x, d.z) <==> Lookup(d.x + 1, d.z) == c
      ensures (c.x, c.z + 1) == (d.x, d.z) <==> Lookup(d.x, d.z - 1) == c
      ensures (c.x, c.z - 1) == (d.x, d.z) <==> Lookup(d.x, d.z + 1) == c
    {
      assert chunks[Key(c.x, c.z)] == c && chunks[Key(d.x, d.z)] == d;
      LookupFinds(d, c.x + 1, c.z);
      LookupFinds(d, c.x - 1, c.z);
      LookupFinds(d, c.x, c.z + 1);
      LookupFinds(d, c.x, c.z - 1);
      LookupFinds(c, d.x + 1, d.z);
      LookupFinds(c, d.x - 1, d.z);
      LookupFinds(c, d.x, d.z + 1);
      LookupFinds(c, d.x, d.z - 1);
    }

    // The four steps of set_chunk_neighbours: each links ch one way, and with it every other chunk
    // has its link the other way right.

    method LinkEast(ch: Chunk)
      requires Filed() && Stored(ch)
      requires forall k {:trigger WestRight(chunks[k])} | k in chunks && chunks[k] != ch ::
        WestRight(chunks[k]) || (chunks[k].x - 1, chunks[k].z) == (ch.x, ch.z)
      modifies ch`east, edge`west, chunks.Values`west
      ensures EastRight(ch) && ch.west == old(ch.west)
      ensures forall k {:trigger WestRight(chunks[k])} | k in chunks && chunks[k] != ch :: WestRight(chunks[k])
    {
      FacingLookups(ch, ch);
      var nch := GetChunk(ch.x + 1, ch.z);
      ch.east := nch;
      if nch != null {
        nch.west := ch;
      }
      forall k | k in chunks && chunks[k] != ch ensures WestRight(chunks[k]) {
        FacingLookups(chunks[k], ch);
        assert old(WestRight(chunks[k])) || (chunks[k].x - 1, chunks[k].z) == (ch.x, ch.z);
      }
    }

    method LinkWest(ch: Chunk)
      requires Filed() && Stored(ch)
      requires forall k {:trigger EastRight(chunks[k])} | k in chunks && chunks[k] != ch ::
        EastRight(chunks[k]) || (chunks[k].x + 1, chunks[k].z) == (ch.x, ch.z)
      modifies ch`west, edge`east, chunks.Values`east
      ensures WestRight(ch) && ch.east == old(ch.east)
      ensures forall k {:trigger EastRight(chunks[k])} | k in chunks && chunks[k] != ch :: EastRight(chunks[k])
    {
      FacingLookups(ch, ch);
      var nch := GetChunk(ch.x - 1, ch.z);
      ch.west := nch;
      if nch != null {
        nch.east := ch;
      }
      forall k | k in chunks && chunks[k] != ch ensures EastRight(chunks[k]) {
        FacingLookups(chunks[k], ch);
        assert old(EastRight(chunks[k])) || (chunks[k].x + 1, chunks[k].z) == (ch.x, ch.z);
      }
    }

    method LinkSouth(ch: Chunk)
      requires Filed() && Stored(ch)
      requires forall k {:trigger NorthRight(chunks[k])} | k in chunks && chunks[k] != ch ::
        NorthRight(chunks[k]) || (chunks[k].x, chunks[k].z - 1) == (ch.x, ch.z)
      modifies ch`south, edge`north, chunks.Values`north
      ensures SouthRight(ch) && ch.north == old(ch.north)
      ensures forall k {:trigger NorthRight(chunks[k])} | k in chunks && chunks[k] != ch :: NorthRight(chunks[k])
    {
      FacingLookups(ch, ch);
      var nch := GetChunk(ch.x, ch.z + 1);
      ch.south := nch;
      if nch != null {
        nch.north := ch;
      }
      forall k | k in chunks && chunks[k] != ch ensures NorthRight(chunks[k]) {
        FacingLookups(chunks[k], ch);
        assert old(NorthRight(chunks[k])) || (chunks[k].x, chunks[k].z - 1) == (ch.x, ch.z);
      }
    }

    method LinkNorth(ch: Chunk)
      requires Filed() && Stored(ch)
      requires forall k {:trigger SouthRight(chunks[k])} | k in chunks && chunks[k] != ch ::
        SouthRight(chunks[k]) || (chunks[k].x, chunks[k].z + 1) == (ch.x, ch.z)
      modifies ch`north, edge`south, chunks.Values`south
      ensures NorthRight(ch) && ch.south == old(ch.south)
      ensures forall k {:trigger SouthRight(chunks[k])} | k in chunks && chunks[k] != ch :: SouthRight(chunks[k])
    {
      FacingLookups(ch, ch);
      var nch := GetChunk(ch.x, ch.z - 1);
      ch.north := nch;
      if nch != null {
        nch.south := ch;
      }
      forall k | k in chunks && chunks[k] != ch ensures SouthRight(chunks[k]) {
        FacingLookups(chunks[k], ch);
        assert old(SouthRight(chunks[k])) || (chunks[k].x, chunks[k].z + 1) == (ch.x, ch.z);
      }
    }

    /** Links a chunk that was just filed with its four neighbours, both ways. */
    method SetChunkNeighbours(ch: Chunk)
      requires Filed() && Stored(ch)
      requires forall k {:trigger LinkedBut(chunks[k], ch.x, ch.z)} ::
        k in chunks && chunks[k] != ch ==> LinkedBut(chunks[k], ch.x, ch.z)
      modifies ch, edge, chunks.Values
      ensures Valid()
    {
      forall k | k in chunks && chunks[k] != ch
        ensures WestRight(chunks[k]) || (chunks[k].x - 1, chunks[k].z) == (ch.x, ch.z)
        ensures EastRight(chunks[k]) || (chunks[k].x + 1, chunks[k].z) == (ch.x, ch.z)
        ensures NorthRight(chunks[k]) || (chunks[k].x, chunks[k].z - 1) == (ch.x, ch.z)
        ensures SouthRight(chunks[k]) || (chunks[k].x, chunks[k].z + 1) == (ch.x, ch.z)
      {
        assert LinkedBut(chunks[k], ch.x, ch.z);
      }
      LinkEast(ch);
      label East:
      LinkWest(ch);
      label West:
      LinkSouth(ch);
      label South:
      LinkNorth(ch);
      forall k | k in chunks ensures Linked(chunks[k]) {
        var c := chunks[k];
        if c != ch {
          assert old@East(WestRight(c)) && old@West(EastRight(c)) && old@South(NorthRight(c)) && SouthRight(c);
          assert WestRight(c) && EastRight(c) && NorthRight(c);
        } else {
          assert old@East(EastRight(ch)) && old@West(WestRight(ch)) && old@South(SouthRight(ch)) && NorthRight(ch);
          assert EastRight(ch) && WestRight(ch) && SouthRight(ch);
        }
      }
    }

    /** Files a chunk, replacing (the source frees it) whatever was at its position. */
    method PutChunk(ch: Chunk)
      requires Valid() && Placeable(ch.x, ch.z) && ch != edge && !Stored(ch)
      modifies this`chunks, ch, edge, chunks.Values
      ensures Valid() && chunks == old(chunks)[Key(ch.x, ch.z) := ch]
    {
      ghost var filed := chunks;
      chunks := chunks[Key(ch.x, ch.z) := ch];
      forall k | k in chunks && chunks[k] != ch ensures LinkedBut(chunks[k], ch.x, ch.z) {
        assert old(Linked(chunks[k]));
        LinkedAfter(filed, ch, chunks[k]);
      }
      SetChunkNeighbours(ch);
    }

    /** Returns the chunk at a position, filing the one the provider loaded or a new one. */
    method LoadChunk(x: int, z: int, loaded: Chunk?) returns (c: Chunk)
      requires Valid() && Coordinate(x) && Coordinate(z)
      requires loaded != null ==> loaded.x == x && loaded.z == z && loaded != edge && !Stored(loaded)
      modifies this`chunks, edge, chunks.Values, if loaded == null then {} else {loaded}
      ensures Valid() && Lookup(x, z) == c
      ensures OutOfBounds(x, z) || Key(x, z) in old(chunks) ==> c == old(Lookup(x, z)) && chunks == old(chunks)
      ensures !(OutOfBounds(x, z) || Key(x, z) in old(chunks)) ==> chunks == old(chunks)[Key(x, z) := c]
      ensures !(OutOfBounds(x, z) || Key(x, z) in old(chunks)) && loaded != null ==> c == loaded
    {
      if OutOfBounds(x, z) {
        return edge;
      }
      if Key(x, z) in chunks {
        return chunks[Key(x, z)];
      }
      if loaded != null {
        c := loaded;
      } else {
        c := new Chunk(x, z);
      }
      PutChunk(c);
    }
  }
}
