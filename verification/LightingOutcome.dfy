/** What a drained light queue leaves: the consistent field whenever every wrong cell was queued
    and no opaque one was; and, where that fails, exactly when it does not. */
module LightingOutcome {
  import opened SkyLight
  import opened Lighting

  // --------------------------------------------------------------- what is owed

  /** Cells of one column that nothing has reached yet, with the light they had then. */
  datatype Hold = Hold(cells: set<Pos>, was: Field)

  const NOTHING := Hold({}, map[])

  function Above(p: Pos): Pos { Pos(p.x, p.y + 1, p.z) }

  /** A held cell not reached yet and right below another: it will be, when that one changes. */
  predicate Excused(h: Hold, f: Field, p: Pos) {
    && p in h.cells && LightAt(f, p) == LightAt(h.was, p)
    && Above(p) in h.cells && LightAt(f, Above(p)) == LightAt(h.was, Above(p))
  }

  predicate Accounted(t: Terrain, f: Field, u: seq<Pos>, pending: set<Pos>, h: Hold, p: Pos) {
    p in pending || (p in u && Transparent(t, p)) || Excused(h, f, p)
  }

  /** Every wrong cell is waiting in the queue, about to be enqueued, or excused. */
  ghost predicate Owed(t: Terrain, f: Field, u: seq<Pos>, pending: set<Pos>, h: Hold) {
    forall p | p in f && !Right(t, f, p) :: Accounted(t, f, u, pending, h, p)
  }

  /** A cell's due changes only when a neighbour's light does. */
  lemma DueMoves(t: Terrain, f: Field, f': Field, p: Pos) returns (q: Pos)
    requires Dictated(t, f, p) != Dictated(t, f', p)
    ensures Transparent(t, p) && Adjacent(q, p) && LightAt(f', q) != LightAt(f, q)
  {
    if forall q :: Adjacent(p, q) ==> LightAt(f, q) == LightAt(f', q) {
      IncomingSame(f, f', p);
    }
    q :| Adjacent(p, q) && LightAt(f, q) != LightAt(f', q);
    AroundIsAdjacent(p, q);
  }

  /** Changing c can only spoil its neighbours, and c itself when it does not get its due. */
  lemma ChangeOwes(t: Terrain, f: Field, u: seq<Pos>, c: Pos, b: Level, pending: set<Pos>, h: Hold)
    requires c in f && f[c] != b && Owed(t, f, u, pending + {c} + Around(c), h)
    requires b == Dictated(t, f, c) || c in pending
    ensures Owed(t, f[c := b], u, pending + Around(c), h)
  {
    var f' := f[c := b];
    forall p | p in f' && !Right(t, f', p) ensures Accounted(t, f', u, pending + Around(c), h, p) {
      DictatedAfter(t, f, c, b, p);
      AroundIsAdjacent(c, p);
      AroundIsAdjacent(c, Above(p));
      assert p == c ==> p in pending;
      assert p != c && p !in Around(c) ==> Accounted(t, f, u, pending + {c} + Around(c), h, p);
      if Above(p) == c { assert Adjacent(c, p); }
    }
  }

  lemma ExcusedStays(t: Terrain, f: Field, f': Field, u': seq<Pos>, h: Hold, p: Pos)
    requires Settled(t, f, f') && Noted(t, f, f', u') && p in f && Excused(h, f, p)
    ensures f'[p] == f[p] ==> Excused(h, f', p) || Handled(t, f', u', p)
  {
    if LightAt(f', Above(p)) != LightAt(f, Above(p)) {
      assert Adjacent(Above(p), p);
    }
  }

  /** Enqueueing the cells of s leaves nothing owed but what was owed elsewhere. */
  lemma EnqueuedOwes(t: Terrain, f: Field, u: seq<Pos>, s: set<Pos>, f': Field, u': seq<Pos>, n: nat,
                     pending: set<Pos>, h: Hold)
    requires Enqueued(t, f, u, s, f', u', n) && Owed(t, f, u, pending + s, h)
    ensures Owed(t, f', u', pending, h)
  {
    forall p | p in f' && !Right(t, f', p) ensures Accounted(t, f', u', pending, h, p) {
      assert f'[p] == f[p];
      if p in s {
        assert Handled(t, f', u', p);
      } else if Right(t, f, p) {
        var q := DueMoves(t, f, f', p);
        assert Handled(t, f', u', p);
      } else {
        assert Accounted(t, f, u, pending + s, h, p);
        if Excused(h, f, p) { ExcusedStays(t, f, f', u', h, p); }
      }
    }
  }

  // ------------------------------------------------------------ what every pop keeps

  /** Every wrong cell is queued, stale or excused, and no opaque cell but a stale one is queued. */
  ghost predicate Kept(t: Terrain, f: Field, u: seq<Pos>, stale: set<Pos>, h: Hold) {
    && Owed(t, f, u, stale, h)
    && forall i :: 0 <= i < |u| ==> Transparent(t, u[i]) || u[i] in stale
  }

  lemma WithoutOwes(t: Terrain, f: Field, u: seq<Pos>, i: nat, pending: set<Pos>, h: Hold)
    requires i < |u| && Owed(t, f, u, pending, h)
    ensures Owed(t, f, Without(u, i), pending + {u[i]}, h)
  {
    WithoutFacts(t, u, i);
    forall p | p in f && !Right(t, f, p) ensures Accounted(t, f, Without(u, i), pending + {u[i]}, h, p) {
      assert Accounted(t, f, u, pending, h, p);
    }
  }

  lemma RecomputedOwes(t: Terrain, f: Field, u: seq<Pos>, p: Pos, f': Field, u': seq<Pos>, stale: set<Pos>, h: Hold)
    requires Recomputed(t, f, u, p, f', u') && Owed(t, f, u, stale + {p}, h)
    requires Transparent(t, p) || p in stale
    ensures Owed(t, f', u', stale, h)
  {
    if p in f && Spread(t, f, p) != f[p] {
      Widen(t, f, u, stale + {p}, stale + {p} + Around(p), h);
      ChangeOwes(t, f, u, p, Spread(t, f, p), stale, h);
      EnqueuedOwes(t, f[p := Spread(t, f, p)], u, Around(p), f', u', 6, stale, h);
    } else {
      forall q | q in f && !Right(t, f, q) ensures Accounted(t, f, u, stale, h, q) {
        assert Accounted(t, f, u, stale + {p}, h, q);
      }
    }
  }

  lemma Widen(t: Terrain, f: Field, u: seq<Pos>, pending: set<Pos>, more: set<Pos>, h: Hold)
    requires Owed(t, f, u, pending, h) && pending <= more
    ensures Owed(t, f, u, more, h)
  {
    forall p | p in f && !Right(t, f, p) ensures Accounted(t, f, u, more, h, p) {
      assert Accounted(t, f, u, pending, h, p);
    }
  }

  lemma RecomputedPushes(t: Terrain, f: Field, u: seq<Pos>, p: Pos, f': Field, u': seq<Pos>)
    requires Recomputed(t, f, u, p, f', u')
    ensures Pushed(t, u, u')
  {
  }

  lemma PoppedKeeps(t: Terrain, f: Field, u: seq<Pos>, i: nat, f': Field, u': seq<Pos>, stale: set<Pos>, h: Hold)
    requires Kept(t, f, u, stale, h) && Popped(t, f, u, i, f', u')
    ensures Kept(t, f', u', stale, h)
  {
    WithoutOwes(t, f, u, i, stale, h);
    RecomputedOwes(t, f, Without(u, i), u[i], f', u', stale, h);
    RecomputedPushes(t, f, Without(u, i), u[i], f', u');
  }

  // --------------------------------------------------- every wrong cell was queued

  /** The opaque cells among those queued. */
  ghost function StaleCells(t: Terrain, u: seq<Pos>): set<Pos> {
    set p | p in u && !Transparent(t, p)
  }

  ghost predicate WrongAreQueued(t: Terrain, f: Field, u: seq<Pos>) {
    forall p :: p in f && !Right(t, f, p) ==> p in u
  }

  predicate InWorld(u: seq<Pos>) {
    forall i :: 0 <= i < |u| ==> 0 <= u[i].y < 256
  }

  /** From any light, with any queue that holds every wrong cell, taken by the worker or in any
      other order: all cells end right but possibly those queued although opaque.  Without such
      cells the field is the consistent one. */
  method Relight(t: Terrain, f: Field, u: seq<Pos>, byWorker: bool) returns (g: Field)
    requires Covers(t, f) && WrongAreQueued(t, f, u) && InWorld(u)
    ensures Covers(t, g) && forall p :: p in g && p !in StaleCells(t, u) ==> Right(t, g, p)
    ensures StaleCells(t, u) == {} ==> Consistent(t, g)
  {
    ghost var stale := StaleCells(t, u);
    ghost var inv := (f: Field, u: seq<Pos>) => Kept(t, f, u, stale, NOTHING);
    var m := new LightingManager(t, f);
    m.updates := u;
    forall f, u, i, f', u' | Covers(t, f) && inv(f, u) && Popped(t, f, u, i, f', u') ensures inv(f', u') {
      PoppedKeeps(t, f, u, i, f', u', stale, NOTHING);
    }
    if byWorker {
      var _ := m.Drain(inv);
    } else {
      m.DrainInAnyOrder(inv);
    }
    g := m.sl;
    assert Kept(t, g, [], stale, NOTHING);
    forall p | p in g && p !in stale ensures Right(t, g, p) {
      assert !Accounted(t, g, [], stale, NOTHING, p);
    }
  }

  // ----------------------------------------------------------------- set_id

  /** t' is t after set_id on cell c: another block there, and perhaps another height above. */
  ghost predicate Differs(t: Terrain, t': Terrain, c: Pos) {
    && t'.loaded == t.loaded
    && (forall p | p != c :: t'.block(p) == t.block(p))
    && (forall x, z | (x, z) != (c.x, c.z) :: t'.height(x, z) == t.height(x, z))
  }

  /** A transparent cell of c's column, other than c, that changes side of the height. */
  predicate Crosses(t: Terrain, t': Terrain, c: Pos, p: Pos) {
    && p != c && (p.x, p.z) == (c.x, c.z) && Transparent(t', p)
    && (p.y >= t.height(c.x, c.z)) != (p.y >= t'.height(c.x, c.z))
  }

  ghost predicate Crossed(t: Terrain, t': Terrain, f: Field, c: Pos) {
    exists p :: p in f && Crosses(t, t', c, p)
  }

  /** Just after the block has changed, the wrong cells besides c are those that cross. */
  lemma WrongAfterSet(t: Terrain, t': Terrain, f: Field, c: Pos, p: Pos)
    requires Consistent(t, f) && Differs(t, t', c) && p in f && p != c
    ensures Right(t', f, p) <==> !Crosses(t, t', c, p)
  {
    assert Right(t, f, p) && t'.block(p) == t.block(p);
    if (p.x, p.z) != (c.x, c.z) { assert t'.height(p.x, p.z) == t.height(p.x, p.z); }
  }

  /** The one cell that set_id enqueues accounts for every wrong cell if and only if no
      transparent cell of the column changes side of the height. */
  lemma SetBlockOwes(t: Terrain, t': Terrain, f: Field, c: Pos)
    requires Consistent(t, f) && Differs(t, t', c)
    ensures Owed(t', f, [], {c}, NOTHING) <==> !Crossed(t, t', f, c)
  {
    forall p | p in f && p != c
      ensures Right(t', f, p) <==> !Crosses(t, t', c, p)
      ensures !Accounted(t', f, [], {c}, NOTHING, p)
    {
      WrongAfterSet(t, t', f, c, p);
    }
    forall p | p in f ensures p == c ==> Accounted(t', f, [], {c}, NOTHING, p) {
    }
    if Owed(t', f, [], {c}, NOTHING) {
      forall p | p in f ensures !Crosses(t, t', c, p) {
        assert p != c && !Right(t', f, p) ==> Accounted(t', f, [], {c}, NOTHING, p);
      }
    }
  }

  /** What set_id does to the height: it goes up to just above c when c is opaque now, or goes down
      from just above c. */
  predicate Follows(t: Terrain, t': Terrain, c: Pos) {
    var h, h' := t.height(c.x, c.z), t'.height(c.x, c.z);
    || h == h'
    || (h < h' == c.y + 1 && !Transparent(t', c))
    || h' < h == c.y + 1
  }

  /** Below c, with nothing but crossing cells in between. */
  ghost predicate Hangs(t: Terrain, t': Terrain, c: Pos, p: Pos) {
    && (p.x, p.z) == (c.x, c.z) && p.y < c.y
    && forall y | p.y <= y < c.y :: Crosses(t, t', c, Pos(c.x, y, c.z))
  }

  /** Every cell that crosses hangs from c. */
  ghost predicate Chained(t: Terrain, t': Terrain, f: Field, c: Pos) {
    Follows(t, t', c) && forall p | p in f && Crosses(t, t', c, p) :: Hangs(t, t', c, p)
  }

  /** The height moved only to or from just above c, and over transparent cells only. */
  predicate CleanMove(t: Terrain, t': Terrain, c: Pos) {
    var h, h' := t.height(c.x, c.z), t'.height(c.x, c.z);
    || h == h'
    || (h < h' == c.y + 1 && !Transparent(t', c) && forall y | h <= y < c.y :: Transparent(t', Pos(c.x, y, c.z)))
    || (h' < h == c.y + 1 && forall y | h' <= y < c.y :: Transparent(t', Pos(c.x, y, c.z)))
  }

  /** The height is one more than the highest opaque block, or 0 when there is none. */
  predicate TopsOut(t: Terrain, x: int, z: int) {
    var h := t.height(x, z);
    && 0 <= h <= 256
    && (h > 0 ==> !Transparent(t, Pos(x, h - 1, z)))
    && forall y | h <= y < 256 :: Transparent(t, Pos(x, y, z))
  }

  /** Where every opaque block of the column counts toward its height, every move is clean. */
  lemma HeightsMoveCleanly(t: Terrain, t': Terrain, c: Pos)
    requires Differs(t, t', c) && 0 <= c.y < 256
    requires TopsOut(t, c.x, c.z) && TopsOut(t', c.x, c.z)
    ensures CleanMove(t, t', c)
  {
    var h, h' := t.height(c.x, c.z), t'.height(c.x, c.z);
    forall y | 0 <= y < 256 && y != c.y
      ensures Transparent(t, Pos(c.x, y, c.z)) == Transparent(t', Pos(c.x, y, c.z))
    {
      assert t'.block(Pos(c.x, y, c.z)) == t.block(Pos(c.x, y, c.z));
    }
    if h < h' {
      assert h' - 1 == c.y;
    } else if h' < h {
      assert h - 1 == c.y;
    }
  }

  lemma CleanMoveIsChained(t: Terrain, t': Terrain, f: Field, c: Pos)
    requires Differs(t, t', c) && CleanMove(t, t', c)
    ensures Chained(t, t', f, c)
  {
  }

  /** Wrong under t' in every field that still holds the light it had in f. */
  predicate Untrue(t': Terrain, f: Field, p: Pos) {
    && p in f
    && if !Transparent(t', p) then f[p] != 15 - t'.block(p).opacity
       else if p.y >= t'.height(p.x, p.z) then f[p] != 15
       else f[p] == 15
  }

  lemma UntrueIsWrong(t': Terrain, f: Field, g: Field, p: Pos)
    requires Untrue(t', f, p) && p in g && g[p] == f[p]
    ensures !Right(t', g, p)
  {
  }

  /** The cells that hang from c, and c at their top. */
  ghost function Column(t: Terrain, t': Terrain, f: Field, c: Pos): Hold {
    Hold((set p | p in f && Hangs(t, t', c, p)) + {c}, f)
  }

  ghost function Crossing(t: Terrain, t': Terrain, f: Field, c: Pos): set<Pos> {
    set p | p in f && Crosses(t, t', c, p)
  }

  /** The cells that cross without hanging from c. */
  ghost function Loose(t: Terrain, t': Terrain, f: Field, c: Pos): set<Pos> {
    set p | p in f && Crosses(t, t', c, p) && !Hangs(t, t', c, p)
  }

  lemma HangingCross(t: Terrain, t': Terrain, c: Pos, p: Pos)
    requires Hangs(t, t', c, p)
    ensures Crosses(t, t', c, p) && (Above(p) == c || Hangs(t, t', c, Above(p)))
  {
    assert Crosses(t, t', c, Pos(c.x, p.y, c.z));
  }

  lemma HangingAreUntrue(t: Terrain, t': Terrain, f: Field, c: Pos, p: Pos)
    requires Consistent(t, f) && Differs(t, t', c) && c in f && !Right(t', f, c)
    requires p in f && Follows(t, t', c) && Hangs(t, t', c, p)
    ensures Untrue(t', f, p) && Untrue(t', f, c)
  {
    HangingCross(t, t', c, p);
    assert Right(t, f, p) && t'.block(p) == t.block(p);
  }

  lemma HangingAreExcused(t: Terrain, t': Terrain, f: Field, c: Pos, p: Pos)
    requires Covers(t, f) && c in f && p in f && Hangs(t, t', c, p)
    ensures Excused(Column(t, t', f, c), f, p)
  {
    HangingCross(t, t', c, p);
    assert Loaded(t, c) && Loaded(t, p) && Loaded(t, Above(p));
  }

  /** At first c is the only cell to enqueue that is wrong and does not cross. */
  lemma CrossingOwes(t: Terrain, t': Terrain, f: Field, c: Pos)
    requires Consistent(t, f) && Differs(t, t', c)
    ensures Owed(t', f, [], Crossing(t, t', f, c) + {c}, NOTHING)
  {
    forall p | p in f && !Right(t', f, p) ensures Accounted(t', f, [], Crossing(t, t', f, c) + {c}, NOTHING, p) {
      if p != c { WrongAfterSet(t, t', f, c, p); }
    }
  }

  /** At first everything but c is loose or excused. */
  lemma ColumnOwes(t: Terrain, t': Terrain, f: Field, c: Pos)
    requires Covers(t, f) && Consistent(t, f) && Differs(t, t', c) && c in f
    ensures Owed(t', f, [], Loose(t, t', f, c) + {c}, Column(t, t', f, c))
  {
    forall p | p in f && !Right(t', f, p)
      ensures Accounted(t', f, [], Loose(t, t', f, c) + {c}, Column(t, t', f, c), p)
    {
      if p != c {
        WrongAfterSet(t, t', f, c, p);
        if Hangs(t, t', c, p) { HangingAreExcused(t, t', f, c, p); }
      }
    }
  }

  /** In the end no excuse is left: the held cells would have to go up without end. */
  lemma {:induction false} NoExcuse(t': Terrain, g: Field, loose: set<Pos>, h: Hold, c: Pos, p: Pos)
    requires Owed(t', g, [], loose, h) && g.Keys == h.was.Keys
    requires forall q :: q in h.cells ==> Untrue(t', h.was, q) && q.y <= c.y && q !in loose
    requires p in g && p !in loose && !Right(t', g, p)
    ensures false
    decreases c.y - p.y
  {
    assert Accounted(t', g, [], loose, h, p);
    var q := Above(p);
    assert q in h.cells && q in g.Keys;
    UntrueIsWrong(t', h.was, g, q);
    NoExcuse(t', g, loose, h, c, q);
  }

  /** Everything in the queue is right already. */
  ghost predicate Quiet(t: Terrain, f: Field, u: seq<Pos>) {
    forall i | 0 <= i < |u| :: u[i] in f ==> Spread(t, f, u[i]) == f[u[i]]
  }

  lemma QuietStays(t: Terrain, f: Field, u: seq<Pos>, i: nat, f': Field, u': seq<Pos>)
    requires Quiet(t, f, u) && Popped(t, f, u, i, f', u')
    ensures f' == f && Quiet(t, f, u')
  {
  }

  /** What every pop keeps after set_id. */
  ghost predicate SetKept(t: Terrain, t': Terrain, f: Field, c: Pos, g: Field, u: seq<Pos>)
    requires c in f
  {
    && g.Keys == f.Keys
    && Kept(t', g, u, Crossing(t, t', f, c), NOTHING)
    && Kept(t', g, u, Loose(t, t', f, c), Column(t, t', f, c))
    && (Right(t', f, c) ==> g == f && Quiet(t', g, u))
  }

  lemma SetKeptAtFirst(t: Terrain, t': Terrain, f: Field, c: Pos, g: Field, u: seq<Pos>)
    requires Covers(t, f) && Consistent(t, f) && Differs(t, t', c) && c in f
    requires Enqueued(t', f, [], {c}, g, u, 1)
    requires Right(t', f, c) ==> g == f && u == if Transparent(t', c) then [c] else []
    ensures SetKept(t, t', f, c, g, u)
  {
    assert Pushed(t', [], u);
    CrossingOwes(t, t', f, c);
    EnqueuedOwes(t', f, [], {c}, g, u, 1, Crossing(t, t', f, c), NOTHING);
    ColumnOwes(t, t', f, c);
    EnqueuedOwes(t', f, [], {c}, g, u, 1, Loose(t, t', f, c), Column(t, t', f, c));
  }

  lemma PoppedKeys(t: Terrain, f: Field, u: seq<Pos>, i: nat, f': Field, u': seq<Pos>)
    requires Popped(t, f, u, i, f', u')
    ensures f'.Keys == f.Keys
  {
  }

  lemma SetKeptStays(t: Terrain, t': Terrain, f: Field, c: Pos, g: Field, u: seq<Pos>, i: nat, g': Field, u': seq<Pos>)
    requires c in f && SetKept(t, t', f, c, g, u) && Popped(t', g, u, i, g', u')
    ensures SetKept(t, t', f, c, g', u')
  {
    PoppedKeys(t', g, u, i, g', u');
    PoppedKeeps(t', g, u, i, g', u', Crossing(t, t', f, c), NOTHING);
    PoppedKeeps(t', g, u, i, g', u', Loose(t, t', f, c), Column(t, t', f, c));
    if Right(t', f, c) { QuietStays(t', g, u, i, g', u'); }
  }

  lemma OnlyCrossingAreWrong(t: Terrain, t': Terrain, f: Field, c: Pos, g: Field)
    requires c in f && SetKept(t, t', f, c, g, [])
    ensures forall p :: p in g && !Crosses(t, t', c, p) ==> Right(t', g, p)
  {
    forall p | p in g && !Crosses(t, t', c, p) ensures Right(t', g, p) {
      assert !Accounted(t', g, [], Crossing(t, t', f, c), NOTHING, p);
    }
  }

  lemma HangingComeRight(t: Terrain, t': Terrain, f: Field, c: Pos, g: Field, p: Pos)
    requires Consistent(t, f) && Differs(t, t', c) && c in f && !Right(t', f, c) && Follows(t, t', c)
    requires SetKept(t, t', f, c, g, []) && p in g && Hangs(t, t', c, p)
    ensures Right(t', g, p)
  {
    var h, loose := Column(t, t', f, c), Loose(t, t', f, c);
    assert p in f.Keys;
    HangingAreUntrue(t, t', f, c, p);
    forall q | q in h.cells ensures Untrue(t', h.was, q) && q.y <= c.y && q !in loose {
      if q != c { HangingAreUntrue(t, t', f, c, q); }
    }
    if !Right(t', g, p) { NoExcuse(t', g, loose, h, c, p); }
  }

  /** All that is wrong in the end are loose crossing cells, or all crossing cells if the changed
      cell was right. */
  lemma SetOutcome(t: Terrain, t': Terrain, f: Field, c: Pos, g: Field)
    requires Covers(t, f) && Consistent(t, f) && Differs(t, t', c) && c in f
    requires SetKept(t, t', f, c, g, [])
    ensures forall p :: p in g && !Crosses(t, t', c, p) ==> Right(t', g, p)
    ensures Follows(t, t', c) && !Right(t', f, c) ==>
      forall p :: p in g && Hangs(t, t', c, p) ==> Right(t', g, p)
    ensures Crossed(t, t', f, c) && Right(t', f, c) ==> g == f && !Consistent(t', g)
    ensures Chained(t, t', f, c) ==> (Consistent(t', g) <==> !Crossed(t, t', f, c) || !Right(t', f, c))
  {
    OnlyCrossingAreWrong(t, t', f, c, g);
    if Follows(t, t', c) && !Right(t', f, c) {
      forall p | p in g && Hangs(t, t', c, p) ensures Right(t', g, p) {
        HangingComeRight(t, t', f, c, g, p);
      }
    }
    if Crossed(t, t', f, c) && Right(t', f, c) {
      var p :| p in f && Crosses(t, t', c, p);
      WrongAfterSet(t, t', f, c, p);
    }
    if Chained(t, t', f, c) && (!Crossed(t, t', f, c) || !Right(t', f, c)) {
      forall p | p in g ensures Right(t', g, p) {
        assert p in f.Keys;
        if Crosses(t, t', c, p) { assert Hangs(t, t', c, p); }
      }
    }
  }

  /** world::set_id seen by the light: from a consistent field the changed cell is enqueued and
      the queue drained in any order.  Only cells that cross can be wrong then.  If the changed
      cell held the light it is due, nothing happens and all that cross are wrong.  If not, those
      that hang from it come out right; so when all of them do, the field is consistent again if
      and only if none crosses or the changed cell was not right.  Those below an opaque cell
      that does not count toward the height do not hang from it, and can stay wrong. */
  method SetBlock(t: Terrain, t': Terrain, f: Field, c: Pos) returns (g: Field)
    requires Covers(t, f) && Consistent(t, f) && Loaded(t, c) && Differs(t, t', c)
    ensures Covers(t', g)
    ensures forall p :: p in g && !Crosses(t, t', c, p) ==> Right(t', g, p)
    ensures Follows(t, t', c) && !Right(t', f, c) ==>
      forall p :: p in g && Hangs(t, t', c, p) ==> Right(t', g, p)
    ensures Crossed(t, t', f, c) && Right(t', f, c) ==> g == f && !Consistent(t', g)
    ensures Chained(t, t', f, c) ==> (Consistent(t', g) <==> !Crossed(t, t', f, c) || !Right(t', f, c))
  {
    forall p ensures p in f <==> Loaded(t', p) {
      assert p in f <==> Loaded(t, p);
    }
    var m := new LightingManager(t', f);
    m.EnqueueSl(c);
    ghost var inv := (g: Field, u: seq<Pos>) => SetKept(t, t', f, c, g, u);
    SetKeptAtFirst(t, t', f, c, m.sl, m.updates);
    forall g, u, i, g', u' | Covers(t', g) && inv(g, u) && Popped(t', g, u, i, g', u') ensures inv(g', u') {
      SetKeptStays(t, t', f, c, g, u, i, g', u');
    }
    m.DrainInAnyOrder(inv);
    g := m.sl;
    SetOutcome(t, t', f, c, g);
  }

  // ------------------------------------------------------- a queued opaque cell

  /** The field just after a queued opaque cell got a level from its neighbours. */
  function Spoilt(t: Terrain, f: Field, p: Pos): Field
    requires p in f
  {
    f[p := Spread(t, f, p)]
  }

  /** Some transparent neighbour of p is due another level once p has the wrong one. */
  ghost predicate Heard(t: Terrain, f: Field, p: Pos)
    requires p in f
  {
    exists q :: q in f && Adjacent(p, q) && Transparent(t, q) && Spread(t, Spoilt(t, f, p), q) != f[q]
  }

  /** The course of a drain from a consistent field with one opaque cell p queued: p is still to
      be taken; or p has a wrong level that nothing has answered yet; or all is accounted for,
      because p kept its level or a neighbour answers. */
  ghost predicate Course(t: Terrain, f: Field, p: Pos, g: Field, u: seq<Pos>)
    requires p in f
  {
    || (g == f && p in u && Stale(t, u) == 1)
    || (Stale(t, u) == 0 && Spread(t, f, p) != f[p] && g == Spoilt(t, f, p) && Owed(t, g, u, {p}, NOTHING))
    || (Stale(t, u) == 0 && (Spread(t, f, p) == f[p] || Heard(t, f, p)) && g.Keys == f.Keys &&
        Owed(t, g, u, {}, NOTHING))
  }

  lemma AllTransparent(t: Terrain, u: seq<Pos>)
    ensures Stale(t, u) == 0 <==> forall i :: 0 <= i < |u| ==> Transparent(t, u[i])
  {
    NoStale(t, u);
  }

  lemma ConsistentOwes(t: Terrain, f: Field, u: seq<Pos>, pending: set<Pos>)
    requires Consistent(t, f)
    ensures Owed(t, f, u, pending, NOTHING)
  {
  }

  /** Taking a transparent item from a consistent field changes nothing. */
  lemma PopTransparent(t: Terrain, f: Field, p: Pos, u: seq<Pos>, i: nat, g: Field, v: seq<Pos>)
    requires Consistent(t, f) && p in f && !Transparent(t, p) && p in u && Stale(t, u) == 1
    requires Popped(t, f, u, i, g, v) && Transparent(t, u[i])
    ensures Course(t, f, p, g, v)
  {
    WithoutFacts(t, u, i);
    assert u[i] in f ==> Right(t, f, u[i]);
  }

  /** Taking the opaque cell itself: its opaque neighbours are right, so nothing but p changes. */
  lemma PopOpaque(t: Terrain, f: Field, p: Pos, u: seq<Pos>, i: nat, g: Field, v: seq<Pos>)
    requires Consistent(t, f) && p in f && Stale(t, u) == 1
    requires Popped(t, f, u, i, g, v) && u[i] == p && !Transparent(t, p)
    ensures Course(t, f, p, g, v)
  {
    StaleAfterPop(t, f, u, i, g, v);
    var w := Without(u, i);
    if Spread(t, f, p) == f[p] {
      ConsistentOwes(t, f, v, {});
    } else {
      ConsistentOwes(t, f, w, {p} + {p});
      RecomputedOwes(t, f, w, p, g, v, {p}, NOTHING);
      TakenAlone(t, f, w, p, g, v);
    }
  }

  /** An opaque cell given another level in a consistent field: no other light changes. */
  lemma TakenAlone(t: Terrain, f: Field, w: seq<Pos>, p: Pos, g: Field, v: seq<Pos>)
    requires Consistent(t, f) && p in f && Spread(t, f, p) != f[p] && Recomputed(t, f, w, p, g, v)
    ensures g == Spoilt(t, f, p) && Pushed(t, w, v)
  {
    forall q | q in Around(p) ensures Still(t, Spoilt(t, f, p), q) {
      AroundIsAdjacent(p, q);
      assert q in f ==> Right(t, f, q);
    }
  }

  /** With p wrong and everything else accounted for, the first cell that changes is a neighbour
      of p, which is due another level than it had at first. */
  lemma FirstAnswer(t: Terrain, f: Field, p: Pos, q: Pos)
    requires Consistent(t, f) && p in f && Spread(t, f, p) != f[p] && q in f && q != p && Transparent(t, q)
    requires Spread(t, Spoilt(t, f, p), q) != f[q]
    ensures Adjacent(p, q) && Heard(t, f, p)
  {
    assert Right(t, f, q);
    DictatedAfter(t, f, p, Spread(t, f, p), q);
  }

  /** It enqueues its own neighbours, p among them, which settles p. */
  lemma AnswerOwes(t: Terrain, f1: Field, p: Pos, w: seq<Pos>, q: Pos, g: Field, v: seq<Pos>)
    requires Owed(t, f1, w, {p} + {q}, NOTHING) && Recomputed(t, f1, w, q, g, v)
    requires q in f1 && Transparent(t, q) && Spread(t, f1, q) != f1[q] && Adjacent(p, q)
    ensures Owed(t, g, v, {}, NOTHING)
  {
    AroundIsAdjacent(q, p);
    Widen(t, f1, w, {p} + {q}, {} + {q} + Around(q), NOTHING);
    ChangeOwes(t, f1, w, q, Spread(t, f1, q), {}, NOTHING);
    EnqueuedOwes(t, f1[q := Spread(t, f1, q)], w, Around(q), g, v, 6, {}, NOTHING);
  }

  lemma NoAnswerOwes(t: Terrain, f1: Field, p: Pos, w: seq<Pos>, q: Pos)
    requires Owed(t, f1, w, {p} + {q}, NOTHING) && (q in f1 ==> Right(t, f1, q))
    ensures Owed(t, f1, w, {p}, NOTHING)
  {
    forall r | r in f1 && !Right(t, f1, r) ensures Accounted(t, f1, w, {p}, NOTHING, r) {
      assert Accounted(t, f1, w, {p} + {q}, NOTHING, r);
    }
  }

  lemma PopWhileWrong(t: Terrain, f: Field, p: Pos, u: seq<Pos>, i: nat, g: Field, v: seq<Pos>)
    requires Consistent(t, f) && p in f && !Transparent(t, p) && Spread(t, f, p) != f[p] && Stale(t, u) == 0
    requires Owed(t, Spoilt(t, f, p), u, {p}, NOTHING) && Popped(t, Spoilt(t, f, p), u, i, g, v)
    ensures Course(t, f, p, g, v)
  {
    var f1, q, w := Spoilt(t, f, p), u[i], Without(u, i);
    AllTransparent(t, u);
    WithoutOwes(t, f1, u, i, {p}, NOTHING);
    StaleAfterPop(t, f1, u, i, g, v);
    PoppedKeys(t, f1, u, i, g, v);
    if q !in f1 || Spread(t, f1, q) == f1[q] {
      NoAnswerOwes(t, f1, p, w, q);
    } else {
      FirstAnswer(t, f, p, q);
      AnswerOwes(t, f1, p, w, q, g, v);
    }
  }

  lemma StaleAfterPop(t: Terrain, f: Field, u: seq<Pos>, i: nat, g: Field, v: seq<Pos>)
    requires Popped(t, f, u, i, g, v)
    ensures Stale(t, u) == Stale(t, v) + If(!Transparent(t, u[i]), 1)
  {
    WithoutFacts(t, u, i);
    RecomputedPushes(t, f, Without(u, i), u[i], g, v);
    PushedStale(t, Without(u, i), v);
  }

  lemma CourseStays(t: Terrain, f: Field, p: Pos, g: Field, u: seq<Pos>, i: nat, g': Field, u': seq<Pos>)
    requires Consistent(t, f) && p in f && !Transparent(t, p) && Course(t, f, p, g, u) && Popped(t, g, u, i, g', u')
    ensures Course(t, f, p, g', u')
  {
    if g == f && p in u && Stale(t, u) == 1 {
      if Transparent(t, u[i]) {
        PopTransparent(t, f, p, u, i, g', u');
      } else {
        OneStale(t, u, p, i);
        PopOpaque(t, f, p, u, i, g', u');
      }
    } else if Spread(t, f, p) != f[p] && g == Spoilt(t, f, p) && Owed(t, g, u, {p}, NOTHING) {
      PopWhileWrong(t, f, p, u, i, g', u');
    } else {
      AllTransparent(t, u);
      PoppedKeeps(t, g, u, i, g', u', {}, NOTHING);
      AllTransparent(t, u');
      PoppedKeys(t, g, u, i, g', u');
    }
  }

  /** When one queued item is opaque and p is an opaque item, they are the same. */
  lemma OneStale(t: Terrain, u: seq<Pos>, p: Pos, i: nat)
    requires Stale(t, u) == 1 && i < |u| && !Transparent(t, u[i]) && p in u && !Transparent(t, p)
    ensures u[i] == p
  {
    WithoutFacts(t, u, i);
    NoStale(t, Without(u, i));
  }

  lemma CourseEnds(t: Terrain, f: Field, p: Pos, g: Field)
    requires Consistent(t, f) && p in f && !Transparent(t, p) && Course(t, f, p, g, [])
    ensures Consistent(t, g) <==> Spread(t, f, p) == f[p] || Heard(t, f, p)
    ensures !Consistent(t, g) ==> g == Spoilt(t, f, p)
  {
    var f1 := Spoilt(t, f, p);
    if Spread(t, f, p) != f[p] && g == f1 && Owed(t, g, [], {p}, NOTHING) {
      assert Right(t, f, p) && !Right(t, g, p);
      forall q | q in f && Adjacent(p, q) && Transparent(t, q) ensures Spread(t, f1, q) == f[q] {
        assert !Accounted(t, g, [], {p}, NOTHING, q);
      }
    } else {
      forall q | q in g ensures Right(t, g, q) {
        assert !Accounted(t, g, [], {}, NOTHING, q);
      }
    }
  }

  lemma CourseLasts(t: Terrain, f: Field, p: Pos)
    requires Consistent(t, f) && p in f && !Transparent(t, p)
    ensures Lasting(t, (g, u) => Course(t, f, p, g, u))
  {
    forall g, u, i, g', u' | Covers(t, g) && Course(t, f, p, g, u) && Popped(t, g, u, i, g', u')
      ensures Course(t, f, p, g', u')
    {
      CourseStays(t, f, p, g, u, i, g', u');
    }
  }

  /** From a consistent field, with one opaque cell queued among transparent ones, draining in
      any order ends with the consistent field if and only if the level that cell gets from its
      neighbours is the one it has, or one of them is then due another level. */
  method DrainOpaque(t: Terrain, f: Field, p: Pos, u: seq<Pos>) returns (g: Field)
    requires Covers(t, f) && Consistent(t, f) && p in f && !Transparent(t, p)
    requires p in u && Stale(t, u) == 1 && InWorld(u)
    ensures Covers(t, g)
    ensures Consistent(t, g) <==> Spread(t, f, p) == f[p] || Heard(t, f, p)
    ensures !Consistent(t, g) ==> g == Spoilt(t, f, p)
  {
    var m := new LightingManager(t, f);
    m.updates := u;
    CourseLasts(t, f, p);
    m.DrainInAnyOrder((g, u) => Course(t, f, p, g, u));
    g := m.sl;
    CourseEnds(t, f, p, g);
  }
}
