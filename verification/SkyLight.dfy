/** Sky light over a finite set of loaded chunks: what a cell's neighbours dictate to it, the
    potential that every fix lowers, and the one field in which every cell has its due.

    The proof rests on one potential.  A cell is wrong when its light differs from
    what its neighbours dictate; a wrong cell weighs 13^light + 13^dictated.  Fixing
    a cell whose larger level is m removes at least 13^m and spoils at most six
    neighbours, each by at most 2 * 13^(m-1), so the total drops whatever the order.
  */
module SkyLight {

  type Level = n: nat | n <= 15

  datatype Pos = Pos(x: int, y: int, z: int)

  /** The part of a block_info entry that lighting reads. */
  datatype Block = Block(opaqueBlock: bool, opacity: Level)

  datatype Terrain = Terrain(loaded: set<(int, int)>, block: Pos -> Block, height: (int, int) -> int)

  /** Sky light of every cell of every loaded chunk. */
  type Field = map<Pos, Level>

  predicate Loaded(t: Terrain, p: Pos) {
    0 <= p.y < 256 && (p.x / 16, p.z / 16) in t.loaded
  }

  ghost predicate Covers(t: Terrain, f: Field) {
    forall p :: p in f <==> Loaded(t, p)
  }

  predicate Transparent(t: Terrain, p: Pos) {
    !t.block(p).opaqueBlock
  }

  function LightAt(f: Field, p: Pos): Level {
    if p in f then f[p] else 0
  }

  function Max(a: Level, b: Level): Level {
    if a > b then a else b
  }

  /** The brightest of the six neighbours; above the top of the world is full sky. */
  function Incoming(f: Field, p: Pos): Level {
    var xp := LightAt(f, Pos(p.x + 1, p.y, p.z));
    var xn := LightAt(f, Pos(p.x - 1, p.y, p.z));
    var zp := LightAt(f, Pos(p.x, p.y, p.z + 1));
    var zn := LightAt(f, Pos(p.x, p.y, p.z - 1));
    Max(xp, Max(xn, Max(zp, Max(zn, Max(FromAbove(f, p), FromBelow(f, p))))))
  }

  function FromAbove(f: Field, p: Pos): Level {
    if p.y == 255 then 15 else LightAt(f, Pos(p.x, p.y + 1, p.z))
  }

  function FromBelow(f: Field, p: Pos): Level {
    if p.y == 0 then 0 else LightAt(f, Pos(p.x, p.y - 1, p.z))
  }

  /** The value calc_sl gives a cell. */
  function Spread(t: Terrain, f: Field, p: Pos): Level {
    if p.y >= t.height(p.x, p.z) then 15
    else if Incoming(f, p) == 0 then 0
    else Incoming(f, p) - 1
  }

  /** What the neighbours, or the block itself when it is opaque, dictate. */
  function Dictated(t: Terrain, f: Field, p: Pos): Level {
    if Transparent(t, p) then Spread(t, f, p) else 15 - t.block(p).opacity
  }

  predicate Right(t: Terrain, f: Field, p: Pos)
    requires p in f
  {
    f[p] == Dictated(t, f, p)
  }

  ghost predicate Consistent(t: Terrain, f: Field) {
    forall p :: p in f ==> Right(t, f, p)
  }

  predicate Adjacent(p: Pos, q: Pos) {
    || q == Pos(p.x - 1, p.y, p.z) || q == Pos(p.x + 1, p.y, p.z)
    || q == Pos(p.x, p.y, p.z - 1) || q == Pos(p.x, p.y, p.z + 1)
    || q == Pos(p.x, p.y - 1, p.z) || q == Pos(p.x, p.y + 1, p.z)
  }

  function Abs(a: int): nat { if a < 0 then -a else a }

  /** One step along one axis. */
  lemma AdjacentIsNext(p: Pos, q: Pos)
    ensures Adjacent(p, q) <==> Abs(p.x - q.x) + Abs(p.y - q.y) + Abs(p.z - q.z) == 1
  {
  }

  /** A neighbour's light, the sky above the top being full and below the bottom there being none. */
  function Given(f: Field, q: Pos): Level {
    if q.y > 255 then 15 else if q.y < 0 then 0 else LightAt(f, q)
  }

  /** The incoming light is the brightest that any neighbour gives. */
  lemma IncomingIsBrightest(f: Field, p: Pos)
    requires 0 <= p.y < 256
    ensures forall q :: Adjacent(p, q) ==> Given(f, q) <= Incoming(f, p)
    ensures exists q :: Adjacent(p, q) && Given(f, q) == Incoming(f, p)
  {
    var xp, xn := Pos(p.x + 1, p.y, p.z), Pos(p.x - 1, p.y, p.z);
    var zp, zn := Pos(p.x, p.y, p.z + 1), Pos(p.x, p.y, p.z - 1);
    var yp, yn := Pos(p.x, p.y + 1, p.z), Pos(p.x, p.y - 1, p.z);
    assert Given(f, yp) == FromAbove(f, p) && Given(f, yn) == FromBelow(f, p);
    var m := Incoming(f, p);
    var q := if Given(f, xp) == m then xp else if Given(f, xn) == m then xn else if Given(f, zp) == m then zp
             else if Given(f, zn) == m then zn else if Given(f, yp) == m then yp else yn;
    assert Adjacent(p, q) && Given(f, q) == m;
  }

  // ---------------------------------------------------------------- potential

  function Pow13(n: nat): (r: nat)
    ensures r >= 1
  {
    if n == 0 then 1 else 13 * Pow13(n - 1)
  }

  lemma {:induction false} Pow13Monotone(m: nat, n: nat)
    requires m <= n
    ensures Pow13(m) <= Pow13(n)
    decreases n - m
  {
    if m < n {
      Pow13Monotone(m, n - 1);
    }
  }

  function Weight(t: Terrain, f: Field, p: Pos): nat {
    WeightOf(LightAt(f, p), Dictated(t, f, p))
  }

  ghost function Pick(s: set<Pos>): (p: Pos)
    requires s != {}
    ensures p in s
  {
    var p :| p in s; p
  }

  ghost function Sum(w: Pos -> nat, s: set<Pos>): nat {
    if s == {} then 0 else
      var p := Pick(s);
      w(p) + Sum(w, s - {p})
  }

  /** Total weight of the wrong cells; zero exactly when the field is consistent. */
  ghost function Potential(t: Terrain, f: Field): nat {
    Sum(p => Weight(t, f, p), f.Keys)
  }

  function If(b: bool, n: nat): nat {
    if b then n else 0
  }

  function Neighbours(c: Pos): seq<Pos> {
    [Pos(c.x - 1, c.y, c.z), Pos(c.x + 1, c.y, c.z), Pos(c.x, c.y, c.z - 1),
     Pos(c.x, c.y, c.z + 1), Pos(c.x, c.y - 1, c.z), Pos(c.x, c.y + 1, c.z)]
  }

  /** n for every one of the cells qs that is in s. */
  function Lost(s: set<Pos>, qs: seq<Pos>, n: nat): nat {
    if qs == [] then 0 else If(qs[0] in s, n) + Lost(s, qs[1..], n)
  }

  lemma {:induction false} LostSplit(s: set<Pos>, qs: seq<Pos>, n: nat, p: Pos)
    requires p in s && forall i, j :: 0 <= i < j < |qs| ==> qs[i] != qs[j]
    ensures Lost(s, qs, n) == Lost(s - {p}, qs, n) + If(p in qs, n)
  {
    if qs != [] {
      LostSplit(s, qs[1..], n, p);
      assert p in qs <==> p == qs[0] || p in qs[1..];
    }
  }

  lemma {:induction false} LostAtMost(s: set<Pos>, qs: seq<Pos>, n: nat)
    ensures Lost(s, qs, n) <= |qs| * n
  {
    if qs != [] {
      LostAtMost(s, qs[1..], n);
    }
  }

  lemma NeighboursAreAdjacent(c: Pos, p: Pos)
    ensures p in Neighbours(c) <==> Adjacent(c, p)
    ensures forall i, j :: 0 <= i < j < 6 ==> Neighbours(c)[i] != Neighbours(c)[j]
  {
  }

  /** Sums of two weightings that differ by a gain at c and a bounded loss next to it. */
  lemma {:induction false} SumChange(w: Pos -> nat, w': Pos -> nat, c: Pos, gain: nat, loss: nat, s: set<Pos>)
    requires w'(c) + gain <= w(c)
    requires forall p :: p in s && p != c ==> w'(p) <= w(p) + If(Adjacent(c, p), loss)
    ensures Sum(w', s) + If(c in s, gain) <= Sum(w, s) + Lost(s, Neighbours(c), loss)
    decreases |s|
  {
    if s != {} {
      var p := Pick(s);
      var r := s - {p};
      SumChange(w, w', c, gain, loss, r);
      NeighboursAreAdjacent(c, p);
      LostSplit(s, Neighbours(c), loss, p);
    }
  }

  /** Two levels that are equal or both at most m; taking the maximum keeps this. */
  predicate Close(a: Level, b: Level, m: Level) {
    a == b || (a <= m && b <= m)
  }

  lemma MaxClose(a: Level, b: Level, c: Level, d: Level, m: Level)
    requires Close(a, c, m) && Close(b, d, m)
    ensures Close(Max(a, b), Max(c, d), m)
  {
  }

  lemma ThreeClose(a: Level, b: Level, c: Level, a': Level, b': Level, c': Level, m: Level)
    requires Close(a, a', m) && Close(b, b', m) && Close(c, c', m)
    ensures Close(Max(a, Max(b, c)), Max(a', Max(b', c')), m)
  {
    MaxClose(b, c, b', c', m);
    MaxClose(a, Max(b, c), a', Max(b', c'), m);
  }

  function FromSides(f: Field, p: Pos): Level {
    Max(LightAt(f, Pos(p.x + 1, p.y, p.z)), Max(LightAt(f, Pos(p.x - 1, p.y, p.z)), LightAt(f, Pos(p.x, p.y, p.z + 1))))
  }

  function FromRest(f: Field, p: Pos): Level {
    Max(LightAt(f, Pos(p.x, p.y, p.z - 1)), Max(FromAbove(f, p), FromBelow(f, p)))
  }

  lemma IncomingParts(f: Field, p: Pos)
    ensures Incoming(f, p) == Max(FromSides(f, p), FromRest(f, p))
  {
  }

  lemma SidesClose(f: Field, f': Field, p: Pos, m: Level)
    requires forall q :: Adjacent(p, q) ==> Close(LightAt(f, q), LightAt(f', q), m)
    ensures Close(FromSides(f, p), FromSides(f', p), m)
  {
    var xp, xn, zp := Pos(p.x + 1, p.y, p.z), Pos(p.x - 1, p.y, p.z), Pos(p.x, p.y, p.z + 1);
    assert Adjacent(p, xp) && Adjacent(p, xn) && Adjacent(p, zp);
    ThreeClose(LightAt(f, xp), LightAt(f, xn), LightAt(f, zp), LightAt(f', xp), LightAt(f', xn), LightAt(f', zp), m);
  }

  lemma RestClose(f: Field, f': Field, p: Pos, m: Level)
    requires forall q :: Adjacent(p, q) ==> Close(LightAt(f, q), LightAt(f', q), m)
    ensures Close(FromRest(f, p), FromRest(f', p), m)
  {
    var zn := Pos(p.x, p.y, p.z - 1);
    assert Adjacent(p, zn) && Adjacent(p, Pos(p.x, p.y + 1, p.z)) && Adjacent(p, Pos(p.x, p.y - 1, p.z));
    ThreeClose(LightAt(f, zn), FromAbove(f, p), FromBelow(f, p),
      LightAt(f', zn), FromAbove(f', p), FromBelow(f', p), m);
  }

  lemma IncomingClose(f: Field, f': Field, p: Pos, m: Level)
    requires forall q :: Adjacent(p, q) ==> Close(LightAt(f, q), LightAt(f', q), m)
    ensures Close(Incoming(f, p), Incoming(f', p), m)
  {
    SidesClose(f, f', p, m);
    RestClose(f, f', p, m);
    MaxClose(FromSides(f, p), FromRest(f, p), FromSides(f', p), FromRest(f', p), m);
    IncomingParts(f, p);
    IncomingParts(f', p);
  }

  lemma IncomingAfter(f: Field, c: Pos, b: Level, p: Pos)
    requires c in f
    ensures p == c || !Adjacent(c, p) ==> Incoming(f[c := b], p) == Incoming(f, p)
    ensures Incoming(f[c := b], p) != Incoming(f, p) ==>
      Incoming(f, p) <= Max(f[c], b) && Incoming(f[c := b], p) <= Max(f[c], b)
  {
    forall q ensures LightAt(f[c := b], q) == if q == c then b else LightAt(f, q) {
    }
    IncomingClose(f, f[c := b], p, Max(f[c], b));
    if p == c || !Adjacent(c, p) {
      IncomingSame(f, f[c := b], p);
    }
  }

  /** A cell whose neighbours keep their light keeps its due. */
  lemma IncomingSame(f: Field, f': Field, p: Pos)
    requires forall q :: Adjacent(p, q) ==> LightAt(f, q) == LightAt(f', q)
    ensures Incoming(f, p) == Incoming(f', p)
  {
  }

  lemma DictatedAfter(t: Terrain, f: Field, c: Pos, b: Level, p: Pos)
    requires c in f && f[c] != b
    ensures p == c || !Adjacent(c, p) || !Transparent(t, p) ==>
      Dictated(t, f[c := b], p) == Dictated(t, f, p)
    ensures Dictated(t, f[c := b], p) != Dictated(t, f, p) ==>
      Dictated(t, f, p) < Max(f[c], b) && Dictated(t, f[c := b], p) < Max(f[c], b)
  {
    IncomingAfter(f, c, b, p);
  }

  function WeightOf(now: Level, due: Level): nat {
    if now == due then 0 else Pow13(now) + Pow13(due)
  }

  lemma SpoiltWeight(now: Level, due: Level, due': Level, m: Level, near: bool)
    requires due == due' || (near && due < m && due' < m)
    requires m > 0
    ensures WeightOf(now, due') <= WeightOf(now, due) + If(near, 2 * Pow13(m - 1))
  {
    if due != due' {
      Pow13Monotone(due, m - 1);
      Pow13Monotone(due', m - 1);
    }
  }

  lemma WeightAfter(t: Terrain, f: Field, c: Pos, b: Level, p: Pos)
    requires c in f && f[c] != b && p != c
    ensures Weight(t, f[c := b], p) <=
      Weight(t, f, p) + If(Adjacent(c, p), 2 * Pow13(Max(f[c], b) - 1))
  {
    assert LightAt(f[c := b], p) == LightAt(f, p);
    DictatedAfter(t, f, c, b, p);
    SpoiltWeight(LightAt(f, p), Dictated(t, f, p), Dictated(t, f[c := b], p), Max(f[c], b), Adjacent(c, p));
  }

  lemma WeightOfFixed(t: Terrain, f: Field, c: Pos)
    requires c in f && !Right(t, f, c)
    ensures var b := Dictated(t, f, c);
      && Weight(t, f[c := b], c) == 0
      && Weight(t, f, c) >= Pow13(Max(f[c], b))
  {
    DictatedAfter(t, f, c, Dictated(t, f, c), c);
  }

  /** A gain of 13^m outweighs what at most six neighbours can lose. */
  lemma GainOutweighs(s: set<Pos>, c: Pos, m: nat)
    requires m > 0
    ensures Lost(s, Neighbours(c), 2 * Pow13(m - 1)) < Pow13(m)
  {
    LostAtMost(s, Neighbours(c), 2 * Pow13(m - 1));
  }

  /** Giving any wrong cell the level dictated to it lowers the potential. */
  lemma FixDrops(t: Terrain, f: Field, c: Pos)
    requires c in f && !Right(t, f, c)
    ensures Potential(t, f[c := Dictated(t, f, c)]) < Potential(t, f)
  {
    var b := Dictated(t, f, c);
    var m, f' := Max(f[c], b), f[c := b];
    var w, w' := p => Weight(t, f, p), p => Weight(t, f', p);
    WeightOfFixed(t, f, c);
    forall p | p in f.Keys && p != c
      ensures w'(p) <= w(p) + If(Adjacent(c, p), 2 * Pow13(m - 1))
    {
      WeightAfter(t, f, c, b, p);
    }
    SumChange(w, w', c, Pow13(m), 2 * Pow13(m - 1), f.Keys);
    GainOutweighs(f.Keys, c, m);
    assert f'.Keys == f.Keys;
  }

  // ------------------------------------------------------ the consistent field

  /** Cells that only pass light on. */
  predicate Carrier(t: Terrain, p: Pos) {
    Transparent(t, p) && p.y < t.height(p.x, p.z)
  }

  /** The light a cell has whatever its neighbours hold. */
  function Own(t: Terrain, p: Pos): Level {
    if !Transparent(t, p) then 15 - t.block(p).opacity
    else if p.y >= t.height(p.x, p.z) then 15
    else if p.y == 255 then 14
    else 0
  }

  /** A path of loaded cells along which at least k light arrives at its first cell,
      one level being lost on each step through a carrier. */
  ghost predicate Beam(t: Terrain, path: seq<Pos>, k: nat) {
    |path| >= 1 && Loaded(t, path[0]) &&
    if |path| == 1 then Own(t, path[0]) >= k
    else Carrier(t, path[0]) && Adjacent(path[0], path[1]) && Beam(t, path[1..], k + 1)
  }

  /** At least k is the best source level minus distance over all paths to p. */
  ghost predicate Lit(t: Terrain, p: Pos, k: nat) {
    exists path :: |path| >= 1 && path[0] == p && Beam(t, path, k)
  }

  lemma IncomingFromNeighbour(f: Field, p: Pos, q: Pos)
    requires Adjacent(p, q) && q in f && 0 <= q.y < 256
    ensures Incoming(f, p) >= f[q]
  {
  }

  lemma {:induction false} BeamArrives(t: Terrain, f: Field, path: seq<Pos>, k: nat)
    requires Covers(t, f) && Consistent(t, f) && Beam(t, path, k)
    ensures f[path[0]] >= k
    decreases |path|
  {
    var p := path[0];
    assert Right(t, f, p);
    if |path| == 1 {
      assert Transparent(t, p) && p.y == 255 ==> Incoming(f, p) == 15;
    } else {
      BeamArrives(t, f, path[1..], k + 1);
      IncomingFromNeighbour(f, p, path[1]);
    }
  }

  /** Some neighbour, or the sky above the top, supplies the brightest incoming light. */
  lemma BrightestNeighbour(f: Field, p: Pos) returns (q: Pos)
    requires Incoming(f, p) > 0 && 0 <= p.y < 256
    ensures p.y == 255 || (Adjacent(p, q) && q in f && f[q] == Incoming(f, p))
  {
    q := p;
    var m := Incoming(f, p);
    if LightAt(f, Pos(p.x + 1, p.y, p.z)) == m { q := Pos(p.x + 1, p.y, p.z); }
    else if LightAt(f, Pos(p.x - 1, p.y, p.z)) == m { q := Pos(p.x - 1, p.y, p.z); }
    else if LightAt(f, Pos(p.x, p.y, p.z + 1)) == m { q := Pos(p.x, p.y, p.z + 1); }
    else if LightAt(f, Pos(p.x, p.y, p.z - 1)) == m { q := Pos(p.x, p.y, p.z - 1); }
    else if p.y < 255 && LightAt(f, Pos(p.x, p.y + 1, p.z)) == m { q := Pos(p.x, p.y + 1, p.z); }
    else if p.y > 0 && LightAt(f, Pos(p.x, p.y - 1, p.z)) == m { q := Pos(p.x, p.y - 1, p.z); }
  }

  lemma {:induction false} LightHasBeam(t: Terrain, f: Field, p: Pos) returns (path: seq<Pos>)
    requires Covers(t, f) && Consistent(t, f) && p in f
    ensures |path| >= 1 && path[0] == p && Beam(t, path, f[p])
    decreases 15 - f[p]
  {
    path := [p];
    assert Right(t, f, p);
    if Carrier(t, p) && Own(t, p) < f[p] {
      var q := BrightestNeighbour(f, p);
      assert p.y < 255;
      var rest := LightHasBeam(t, f, q);
      path := [p] + rest;
      assert path[1..] == rest;
    }
  }

  lemma {:induction false} BeamWeaker(t: Terrain, path: seq<Pos>, k: nat, j: nat)
    requires Beam(t, path, k) && j <= k
    ensures Beam(t, path, j)
    decreases |path|
  {
    if |path| > 1 {
      BeamWeaker(t, path[1..], k + 1, j + 1);
    }
  }

  /** A consistent field is exactly best source level minus distance, floored at 0. */
  lemma ConsistentIsBrightest(t: Terrain, f: Field, p: Pos, k: nat)
    requires Covers(t, f) && Consistent(t, f) && p in f
    ensures f[p] >= k <==> Lit(t, p, k)
  {
    if f[p] >= k {
      var path := LightHasBeam(t, f, p);
      BeamWeaker(t, path, f[p], k);
    }
    if Lit(t, p, k) {
      var path :| |path| >= 1 && path[0] == p && Beam(t, path, k);
      BeamArrives(t, f, path, k);
    }
  }

  /** There is at most one consistent field, so processing order cannot matter. */
  lemma ConsistentIsUnique(t: Terrain, f: Field, g: Field)
    requires Covers(t, f) && Consistent(t, f)
    requires Covers(t, g) && Consistent(t, g)
    ensures f == g
  {
    forall p | p in f ensures p in g && f[p] == g[p] {
      assert Loaded(t, p);
      ConsistentIsBrightest(t, f, p, f[p]);
      ConsistentIsBrightest(t, g, p, f[p]);
      ConsistentIsBrightest(t, f, p, g[p]);
      ConsistentIsBrightest(t, g, p, g[p]);
    }
    forall p | p in g ensures p in f {
      assert Loaded(t, p);
    }
  }
}
