/** Concrete chunks: where a drained queue leaves wrong light, and where it does not. */
module LightingExamples {
  import opened SkyLight
  import opened Lighting
  import opened LightingOutcome

  /** The cells of chunk (0, 0). */
  function Box(): set<Pos> {
    set x, y, z | 0 <= x < 16 && 0 <= y < 256 && 0 <= z < 16 :: Pos(x, y, z)
  }

  lemma BoxIsLoaded(t: Terrain, f: Field)
    requires t.loaded == {(0, 0)} && f.Keys == Box()
    ensures Covers(t, f)
  {
    forall p ensures p in f <==> Loaded(t, p) {
      assert p in f <==> p in Box();
      assert p in Box() <==> 0 <= p.x < 16 && 0 <= p.y < 256 && 0 <= p.z < 16;
    }
  }

  const STONE := Block(true, 15)
  const PISTON := Block(true, 0)
  const CHEST := Block(false, 15)
  const AIR := Block(false, 0)

  /** One block in column (8, 8), the height of that column being given. */
  function OneBlock(y: int, b: Block, h: int): Terrain {
    Terrain({(0, 0)}, (p: Pos) => if p == Pos(8, y, 8) then b else AIR,
      (x: int, z: int) => if x == 8 && z == 8 then h else 0)
  }

  /** Full light everywhere, as in a chunk of air. */
  function Bright(): Field { map p | p in Box() :: 15 }

  /** A piston placed nine above open ground lets all light through, so nothing is queued, and
      the nine cells below it keep a light they are not due. */
  method PistonExample() returns (t': Terrain, g: Field)
    ensures t' == OneBlock(9, PISTON, 10) && Covers(t', g)
    ensures forall p :: p in g ==> (Right(t', g, p) <==> !(p.x == 8 && p.z == 8 && p.y < 9))
  {
    var t, f, c := OneBlock(9, AIR, 0), Bright(), Pos(8, 9, 8);
    t' := OneBlock(9, PISTON, 10);
    BoxIsLoaded(t, f);
    assert Right(t', f, c);
    assert Crosses(t, t', c, Pos(8, 5, 8)) && Pos(8, 5, 8) in f;
    g := SetBlock(t, t', f, c);
    forall p | p in g ensures Right(t', g, p) <==> !(p.x == 8 && p.z == 8 && p.y < 9) {
      if p != c { WrongAfterSet(t, t', f, c, p); }
    }
  }

  /** A stone placed there instead: its light changes, and all cells come out right. */
  method StoneAboveExample() returns (t': Terrain, g: Field)
    ensures t' == OneBlock(9, STONE, 10) && Covers(t', g) && Consistent(t', g)
  {
    var t, f, c := OneBlock(9, AIR, 0), Bright(), Pos(8, 9, 8);
    t' := OneBlock(9, STONE, 10);
    BoxIsLoaded(t, f);
    assert !Right(t', f, c);
    assert CleanMove(t, t', c);
    CleanMoveIsChained(t, t', f, c);
    g := SetBlock(t, t', f, c);
  }

  const WATER := Block(true, 3)

  /** Water at height 1, and a block at height 3 above it. */
  function OverWater(b: Block, h: int): Terrain {
    Terrain({(0, 0)},
      (p: Pos) => if p == Pos(8, 1, 8) then WATER else if p == Pos(8, 3, 8) then b else AIR,
      (x: int, z: int) => if x == 8 && z == 8 then h else 0)
  }

  /** The light before: full but for the water. */
  ghost predicate LitWater(f: Field) {
    && f.Keys == Box() && Pos(8, 1, 8) in f && Pos(8, 3, 8) in f && Pos(8, 0, 8) in f && Pos(8, 2, 8) in f
    && forall p | p in f :: f[p] == if p == Pos(8, 1, 8) then 12 else 15
  }

  /** How far the drain of that example gets. */
  ghost predicate WaterKept(f: Field, g: Field, u: seq<Pos>)
    requires Pos(8, 3, 8) in f
  {
    var f1 := f[Pos(8, 3, 8) := 0];
    && (g == f1 || g == f1[Pos(8, 2, 8) := 14])
    && forall i :: 0 <= i < |u| ==> Transparent(OverWater(STONE, 4), u[i]) && u[i] != Pos(8, 0, 8)
  }

  lemma WaterLight(f: Field, g: Field, q: Pos)
    requires LitWater(f) && WaterKept(f, g, []) && q in f && Transparent(OverWater(STONE, 4), q)
    ensures q == Pos(8, 2, 8) || q == Pos(8, 0, 8) ==> Spread(OverWater(STONE, 4), g, q) == 14
    ensures q != Pos(8, 2, 8) && q != Pos(8, 0, 8) ==> Spread(OverWater(STONE, 4), g, q) == 15 == g[q]
  {
    if q == Pos(8, 2, 8) || q == Pos(8, 0, 8) {
      assert Pos(7, q.y, 8) in Box();
      assert LightAt(g, Pos(7, q.y, 8)) == 15;
    }
  }

  lemma WaterStill(f: Field, g: Field, u: seq<Pos>, r: Pos)
    requires LitWater(f) && WaterKept(f, g, u)
    ensures Still(OverWater(STONE, 4), g, r)
  {
  }

  /** Enqueueing the neighbours of the stone, or of the cell below it, changes no light and does
      not push the cell under the water. */
  lemma WaterQuiet(f: Field, g: Field, q: Pos, u: seq<Pos>, g': Field, u': seq<Pos>)
    requires LitWater(f) && WaterKept(f, g, u) && (q == Pos(8, 3, 8) || q == Pos(8, 2, 8))
    requires Enqueued(OverWater(STONE, 4), g, u, Around(q), g', u', 6)
    ensures WaterKept(f, g', u')
  {
    forall r | r in Around(q) ensures Still(OverWater(STONE, 4), g, r) {
      WaterStill(f, g, u, r);
    }
    AroundIsAdjacent(q, Pos(8, 0, 8));
  }

  lemma WaterStays(f: Field, g: Field, u: seq<Pos>, i: nat, g': Field, u': seq<Pos>)
    requires LitWater(f) && WaterKept(f, g, u) && Popped(OverWater(STONE, 4), g, u, i, g', u')
    ensures WaterKept(f, g', u')
  {
    var q, w := u[i], Without(u, i);
    assert WaterKept(f, g, w);
    if q in f {
      WaterLight(f, g, q);
      if q == Pos(8, 2, 8) && g[q] != 14 {
        assert WaterKept(f, g[q := 14], w);
        WaterQuiet(f, g[q := 14], q, w, g', u');
      }
    }
  }

  lemma WaterLasts(f: Field)
    requires LitWater(f)
    ensures Lasting(OverWater(STONE, 4), (g, u) => WaterKept(f, g, u))
  {
    var t := OverWater(STONE, 4);
    forall g, u, i, g', u' | Covers(t, g) && WaterKept(f, g, u) && Popped(t, g, u, i, g', u')
      ensures WaterKept(f, g', u')
    {
      WaterStays(f, g, u, i, g', u');
    }
  }

  lemma WaterField(f: Field)
    requires LitWater(f)
    ensures Covers(OverWater(AIR, 0), f) && Covers(OverWater(STONE, 4), f)
    ensures Consistent(OverWater(AIR, 0), f) && !Right(OverWater(STONE, 4), f, Pos(8, 3, 8))
  {
    BoxIsLoaded(OverWater(AIR, 0), f);
    BoxIsLoaded(OverWater(STONE, 4), f);
  }

  method WaterBefore() returns (f: Field)
    ensures LitWater(f)
  {
    assert Bright().Keys == Box();
    assert Pos(8, 1, 8) in Box() && Pos(8, 3, 8) in Box() && Pos(8, 0, 8) in Box() && Pos(8, 2, 8) in Box();
    f := Bright()[Pos(8, 1, 8) := 12];
  }

  /** The stone is placed and the queue drained. */
  method WaterDrained(f: Field) returns (g: Field)
    requires LitWater(f)
    ensures Covers(OverWater(STONE, 4), g) && WaterKept(f, g, [])
  {
    WaterField(f);
    WaterLasts(f);
    var m := new LightingManager(OverWater(STONE, 4), f);
    WaterPlaced(m, f);
    m.DrainInAnyOrder((g, u) => WaterKept(f, g, u));
    g := m.sl;
  }

  method WaterPlaced(m: LightingManager, f: Field)
    requires LitWater(f) && m.terrain == OverWater(STONE, 4) && m.sl == f && m.updates == [] && Covers(m.terrain, f)
    modifies m`sl, m`updates
    ensures m.Valid() && WaterKept(f, m.sl, m.updates)
  {
    WaterStart(f);
    m.EnqueueSl(Pos(8, 3, 8));
    WaterQuiet(f, WithOwn(m.terrain, f, Pos(8, 3, 8)), Pos(8, 3, 8), [], m.sl, m.updates);
    assert Pushed(m.terrain, [], m.updates);
  }

  lemma WaterStart(f: Field)
    requires LitWater(f)
    ensures var t, c := OverWater(STONE, 4), Pos(8, 3, 8);
      Loaded(t, c) && !Transparent(t, c) && !Right(t, f, c) && WaterKept(f, WithOwn(t, f, c), [])
  {
  }

  /** A stone placed above water, with a cell of air below the water.  The stone does not hold
      the light it is due and the cell below it is reached, but the water in between is right and
      passes nothing on: the cell under the water keeps 15 where it is due 14. */
  method WaterExample() returns (f: Field, t': Terrain, g: Field)
    ensures t' == OverWater(STONE, 4) && Differs(OverWater(AIR, 0), t', Pos(8, 3, 8))
    ensures Covers(OverWater(AIR, 0), f) && Consistent(OverWater(AIR, 0), f)
    ensures Follows(OverWater(AIR, 0), t', Pos(8, 3, 8))
    ensures Pos(8, 3, 8) in f && !Right(t', f, Pos(8, 3, 8))
    ensures Covers(t', g) && Pos(8, 0, 8) in g && g[Pos(8, 0, 8)] == 15 && Dictated(t', g, Pos(8, 0, 8)) == 14
  {
    f := WaterBefore();
    t' := OverWater(STONE, 4);
    WaterField(f);
    g := WaterDrained(f);
    WaterLight(f, g, Pos(8, 0, 8));
  }

  /** A stone on the ground, queued before it was placed and taken by the worker after its light
      was set: the worker gives it 14 and leaves it so. */
  method StoneExample() returns (t: Terrain, f: Field, g: Field)
    ensures t == OneBlock(0, STONE, 1) && Covers(t, f) && Consistent(t, f) && Covers(t, g)
    ensures Pos(8, 0, 8) in g && g[Pos(8, 0, 8)] == 14 && !Right(t, g, Pos(8, 0, 8))
  {
    var p := Pos(8, 0, 8);
    t := OneBlock(0, STONE, 1);
    f := Bright()[p := 0];
    assert f.Keys == Box() by { assert Bright().Keys == Box() && p in Box(); }
    BoxIsLoaded(t, f);
    assert Pos(8, 1, 8) in Box() && LightAt(f, Pos(8, 1, 8)) == 15;
    assert Spread(t, f, p) == 14;
    assert !Heard(t, f, p);
    var m := new LightingManager(t, f);
    m.updates := [p];
    assert Stale(t, [p]) == 1;
    CourseLasts(t, f, p);
    var _ := m.Drain((g, u) => Course(t, f, p, g, u));
    g := m.sl;
    CourseEnds(t, f, p, g);
  }

  // Two queued opaque cells: what is left depends on which is taken first.

  const WALLED := Pos(8, 0, 8)
  const OUTER := Pos(9, 0, 8)

  predicate InMound(p: Pos) {
    p == WALLED || p == OUTER || p == Pos(7, 0, 8) || p == Pos(8, 0, 7) || p == Pos(8, 0, 9) || p == Pos(8, 1, 8)
  }

  /** A stone walled in by five others, one of which is OUTER. */
  function Mound(): Terrain {
    Terrain({(0, 0)}, (p: Pos) => if InMound(p) then STONE else AIR,
      (x: int, z: int) => if (x, z) == (8, 8) then 2 else if InMound(Pos(x, 0, z)) then 1 else 0)
  }

  ghost predicate LitMound(f: Field) {
    && f.Keys == Box() && WALLED in f && OUTER in f
    && forall p | p in f :: f[p] == if InMound(p) then 0 else 15
  }

  lemma MoundFacts(f: Field)
    requires LitMound(f)
    ensures Covers(Mound(), f) && Consistent(Mound(), f)
    ensures f[WALLED] == f[OUTER] == 0 && !Transparent(Mound(), WALLED) && !Transparent(Mound(), OUTER)
  {
    BoxIsLoaded(Mound(), f);
  }

  lemma MoundLevels(f: Field)
    requires LitMound(f)
    ensures Spread(Mound(), f, WALLED) == 0 && Spread(Mound(), f, OUTER) == 14
    ensures Spread(Mound(), f[OUTER := 14], WALLED) == 13
  {
    assert Pos(10, 0, 8) in Box() && LightAt(f, Pos(10, 0, 8)) == 15;
  }

  lemma MoundUnheard(f: Field)
    requires LitMound(f)
    ensures !Heard(Mound(), f, OUTER)
  {
    forall q | q in f && Adjacent(OUTER, q) && Transparent(Mound(), q)
      ensures Spread(Mound(), Spoilt(Mound(), f, OUTER), q) == f[q]
    {
    }
  }

  method MoundBefore() returns (f: Field)
    ensures LitMound(f)
  {
    assert WALLED in Box() && OUTER in Box();
    f := map p | p in Box() :: if InMound(p) then 0 else 15;
  }

  /** The walled-in stone first: it sees only dark, keeps its level, and does not answer later. */
  method WalledFirst(f: Field) returns (g: Field)
    requires LitMound(f)
    ensures Covers(Mound(), g) && !Consistent(Mound(), g)
  {
    MoundFacts(f);
    MoundLevels(f);
    MoundUnheard(f);
    var m := new LightingManager(Mound(), f);
    m.updates := [WALLED, OUTER];
    m.Process(0);
    assert m.updates == [OUTER] && Stale(Mound(), [OUTER]) == 1;
    CourseLasts(Mound(), f, OUTER);
    m.DrainInAnyOrder((g, u) => Course(Mound(), f, OUTER, g, u));
    g := m.sl;
    CourseEnds(Mound(), f, OUTER, g);
  }

  /** The outer stone first: it wrongly gets 14. */
  lemma OuterTaken(f: Field, g: Field, u: seq<Pos>)
    requires LitMound(f) && Recomputed(Mound(), f, [WALLED], OUTER, g, u)
    ensures g == f[OUTER := 14] && |u| > 0 && u[0] == WALLED
    ensures forall i :: 0 < i < |u| ==> Transparent(Mound(), u[i])
  {
    MoundFacts(f);
    MoundLevels(f);
    TakenAlone(Mound(), f, [WALLED], OUTER, g, u);
    assert u[0] == [WALLED][0];
  }

  /** With q the only wrong cell, and opaque, another opaque cell p next to it that gets a wrong
      level enqueues q, which is settled and enqueues p. */
  lemma SecondAnswers(t: Terrain, f: Field, w: seq<Pos>, p: Pos, q: Pos, g: Field, v: seq<Pos>)
    requires Owed(t, f, w, {q}, NOTHING) && q in f && !Transparent(t, q) && !Right(t, f, q)
    requires p in f && p != q && Adjacent(p, q) && Spread(t, f, p) != f[p] && Recomputed(t, f, w, p, g, v)
    ensures Owed(t, g, v, {}, NOTHING)
  {
    var f2 := f[p := Spread(t, f, p)];
    AroundIsAdjacent(p, q);
    Widen(t, f, w, {q}, {p} + {p} + Around(p), NOTHING);
    ChangeOwes(t, f, w, p, Spread(t, f, p), {p}, NOTHING);
    EnqueuedOwes(t, f2, w, Around(p), g, v, 6, {p}, NOTHING);
    assert Handled(t, g, v, q);
    assert LightAt(g, q) != LightAt(f2, q);
    assert Adjacent(q, p) && Handled(t, g, v, p);
    forall r | r in g && !Right(t, g, r) ensures Accounted(t, g, v, {}, NOTHING, r) {
      assert Accounted(t, g, v, {p}, NOTHING, r);
    }
  }

  lemma MoundSpoilt(f: Field, w: seq<Pos>)
    requires LitMound(f)
    ensures Owed(Mound(), f[OUTER := 14], w, {OUTER}, NOTHING) && !Right(Mound(), f[OUTER := 14], OUTER)
  {
    MoundFacts(f);
    MoundLevels(f);
    MoundUnheard(f);
    var f1 := f[OUTER := 14];
    forall p | p in f1 && !Right(Mound(), f1, p) ensures Accounted(Mound(), f1, w, {OUTER}, NOTHING, p) {
      assert Right(Mound(), f, p);
      DictatedAfter(Mound(), f, OUTER, 14, p);
    }
  }

  /** Then the walled-in one gets 13 and answers. */
  lemma WalledTaken(f: Field, w: seq<Pos>, g: Field, v: seq<Pos>)
    requires LitMound(f) && Recomputed(Mound(), f[OUTER := 14], w, WALLED, g, v)
    requires forall i :: 0 <= i < |w| ==> Transparent(Mound(), w[i])
    ensures Kept(Mound(), g, v, {}, NOTHING)
  {
    MoundFacts(f);
    MoundLevels(f);
    MoundSpoilt(f, w);
    SecondAnswers(Mound(), f[OUTER := 14], w, WALLED, OUTER, g, v);
    RecomputedPushes(Mound(), f[OUTER := 14], w, WALLED, g, v);
  }

  method TakeBoth(m: LightingManager, f: Field)
    requires LitMound(f) && m.terrain == Mound() && m.sl == f && m.updates == [WALLED, OUTER] && m.Valid()
    modifies m`sl, m`updates
    ensures m.Valid() && Kept(Mound(), m.sl, m.updates, {}, NOTHING)
  {
    m.Process(1);
    assert Without([WALLED, OUTER], 1) == [WALLED];
    OuterTaken(f, m.sl, m.updates);
    ghost var u := m.updates;
    m.Process(0);
    assert forall i :: 0 <= i < |u| - 1 ==> Without(u, 0)[i] == u[i + 1];
    WalledTaken(f, Without(u, 0), m.sl, m.updates);
  }

  method OuterFirst(f: Field) returns (g: Field)
    requires LitMound(f)
    ensures Covers(Mound(), g) && Consistent(Mound(), g)
  {
    MoundFacts(f);
    var m := new LightingManager(Mound(), f);
    m.updates := [WALLED, OUTER];
    TakeBoth(m, f);
    KeptLasts(Mound(), {}, NOTHING);
    m.DrainInAnyOrder((g, u) => Kept(Mound(), g, u, {}, NOTHING));
    g := m.sl;
    forall p | p in g ensures Right(Mound(), g, p) {
      assert !Accounted(Mound(), g, [], {}, NOTHING, p);
    }
  }

  lemma KeptLasts(t: Terrain, stale: set<Pos>, h: Hold)
    ensures Lasting(t, (f, u) => Kept(t, f, u, stale, h))
  {
    forall f, u, i, f', u' | Covers(t, f) && Kept(t, f, u, stale, h) && Popped(t, f, u, i, f', u')
      ensures Kept(t, f', u', stale, h)
    {
      PoppedKeeps(t, f, u, i, f', u', stale, h);
    }
  }

  /** One consistent field and one queue of two opaque cells, drained in two orders: one leaves
      the field inconsistent and the other does not. */
  method OrderExample() returns (f: Field, g: Field, g': Field)
    ensures Covers(Mound(), f) && Consistent(Mound(), f) && Covers(Mound(), g) && Covers(Mound(), g')
    ensures !Consistent(Mound(), g) && Consistent(Mound(), g')
  {
    f := MoundBefore();
    MoundFacts(f);
    g := WalledFirst(f);
    g' := OuterFirst(f);
  }

  /** light_chunk under a chest, which is not opaque and so does not count toward the height but
      takes all light away: the cells below are left dark, where calc_sl gives full light. */
  method ChestExample() returns (t: Terrain, g: Field)
    ensures t == OneBlock(20, CHEST, 0) && Covers(t, g)
    ensures g[Pos(8, 10, 8)] == 0 && Spread(t, g, Pos(8, 10, 8)) == 15
  {
    t := OneBlock(20, CHEST, 0);
    var p := Pos(8, 10, 8);
    BoxIsLoaded(t, Bright());
    var m := new LightingManager(t, Bright());
    m.LightChunk(0, 0);
    g := m.sl;
    assert p in g.Keys && p in Box();
    FallingStays(t, 8, 8, 10, 20);
    assert Falling(t, 8, 8, 20) == 0;
  }

  /** Once the light is gone it stays gone. */
  lemma {:induction false} FallingStays(t: Terrain, x: int, z: int, y: int, top: int)
    requires y <= top < 255
    ensures Falling(t, x, z, top) == 0 ==> Falling(t, x, z, y) == 0
    decreases top - y
  {
    if y < top { FallingStays(t, x, z, y + 1, top); }
  }
}
