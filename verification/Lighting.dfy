/** The worklist of lighting_manager: what each call does to the light and to the queue, and that
    draining it ends from every light field, every queue and in every order. */
module Lighting {
  import opened SkyLight

  // ----------------------------------------------------------------- the queue

  /** Queued positions whose block became opaque after they were queued. */
  function Stale(t: Terrain, updates: seq<Pos>): nat {
    if updates == [] then 0
    else If(!Transparent(t, updates[0]), 1) + Stale(t, updates[1..])
  }

  lemma {:induction false} StaleConcat(t: Terrain, a: seq<Pos>, b: seq<Pos>)
    ensures Stale(t, a + b) == Stale(t, a) + Stale(t, b)
  {
    if a == [] {
      assert a + b == b;
    } else {
      StaleConcat(t, a[1..], b);
      assert (a + b)[1..] == a[1..] + b;
    }
  }

  lemma {:induction false} NoStale(t: Terrain, a: seq<Pos>)
    ensures Stale(t, a) == 0 <==> forall p :: p in a ==> Transparent(t, p)
  {
    if a != [] {
      NoStale(t, a[1..]);
      assert a == [a[0]] + a[1..];
    }
  }

  /** Updates pushed on top of a queue, all of them for transparent cells. */
  ghost predicate Pushed(t: Terrain, before: seq<Pos>, after: seq<Pos>) {
    before <= after && forall i :: |before| <= i < |after| ==>
      Transparent(t, after[i]) && 0 <= after[i].y < 256
  }

  function Without(updates: seq<Pos>, i: nat): seq<Pos>
    requires i < |updates|
  {
    updates[..i] + updates[i + 1..]
  }

  lemma WithoutFacts(t: Terrain, updates: seq<Pos>, i: nat)
    requires i < |updates|
    ensures Stale(t, updates) == Stale(t, Without(updates, i)) + If(!Transparent(t, updates[i]), 1)
    ensures forall p :: p in updates ==> p == updates[i] || p in Without(updates, i)
    ensures (forall j :: 0 <= j < |updates| ==> 0 <= updates[j].y < 256) ==>
      forall j :: 0 <= j < |Without(updates, i)| ==> 0 <= Without(updates, i)[j].y < 256
  {
    var a, b := updates[..i], updates[i + 1..];
    assert updates == a + ([updates[i]] + b);
    StaleConcat(t, a, [updates[i]] + b);
    assert ([updates[i]] + b)[1..] == b;
    StaleConcat(t, a, b);
    forall p | p in updates ensures p == updates[i] || p in a + b {
      var j :| 0 <= j < |updates| && updates[j] == p;
      if j < i { assert a[j] == p; } else if j > i { assert b[j - i - 1] == p; }
    }
  }

  lemma PushedStale(t: Terrain, before: seq<Pos>, after: seq<Pos>)
    requires Pushed(t, before, after)
    ensures Stale(t, after) == Stale(t, before)
  {
    var more := after[|before|..];
    assert after == before + more;
    StaleConcat(t, before, more);
    NoStale(t, more);
  }

  // ------------------------------------------------------------ what a call does

  ghost function Cost(t: Terrain, f: Field, updates: seq<Pos>): nat {
    7 * Potential(t, f) + |updates|
  }

  function AlongX(p: Pos): set<Pos> { {Pos(p.x - 1, p.y, p.z)} + {Pos(p.x + 1, p.y, p.z)} }

  function AlongZ(p: Pos): set<Pos> { {Pos(p.x, p.y, p.z - 1)} + {Pos(p.x, p.y, p.z + 1)} }

  function AlongY(p: Pos): set<Pos> { {Pos(p.x, p.y - 1, p.z)} + {Pos(p.x, p.y + 1, p.z)} }

  function Around(p: Pos): set<Pos> {
    AlongX(p) + AlongZ(p) + AlongY(p)
  }

  /** A field and queue reached from another by fixes and pushes that cost at most n. */
  ghost predicate Progress(t: Terrain, f: Field, u: seq<Pos>, f': Field, u': seq<Pos>, n: nat) {
    Potential(t, f') <= Potential(t, f) && Cost(t, f', u') <= Cost(t, f, u) + n
  }

  /** Only opaque cells change, and only to the level their block dictates. */
  ghost predicate Settled(t: Terrain, f: Field, f': Field) {
    && f'.Keys == f.Keys
    && forall p | p in f :: f'[p] == f[p] || (!Transparent(t, p) && f'[p] == 15 - t.block(p).opacity)
  }

  /** A cell that has been enqueued: waiting if it is transparent, right if it is opaque. */
  ghost predicate Handled(t: Terrain, f: Field, u: seq<Pos>, p: Pos) {
    p in f ==> if Transparent(t, p) then p in u else Right(t, f, p)
  }

  /** The neighbours of every cell that changed have been enqueued. */
  ghost predicate Noted(t: Terrain, f: Field, f': Field, u': seq<Pos>) {
    forall q, r {:trigger Adjacent(q, r), LightAt(f', q)} ::
      Adjacent(q, r) && LightAt(f', q) != LightAt(f, q) ==> Handled(t, f', u', r)
  }

  /** Enqueueing p does not change any light. */
  ghost predicate Still(t: Terrain, f: Field, p: Pos) {
    p in f && !Transparent(t, p) ==> Right(t, f, p)
  }

  /** Only cells of s were pushed. */
  ghost predicate PushedFrom(u: seq<Pos>, u': seq<Pos>, s: set<Pos>) {
    forall i | |u| <= i < |u'| :: u'[i] in s
  }

  lemma PushedFromBoth(u: seq<Pos>, s: set<Pos>, u': seq<Pos>, r: set<Pos>, u'': seq<Pos>)
    requires u <= u' <= u'' && PushedFrom(u, u', s) && PushedFrom(u', u'', r)
    ensures PushedFrom(u, u'', s + r)
  {
  }

  /** What enqueueing the cells of s does, at a cost of at most n. */
  ghost predicate Enqueued(t: Terrain, f: Field, u: seq<Pos>, s: set<Pos>, f': Field, u': seq<Pos>, n: nat) {
    && Progress(t, f, u, f', u', n)
    && Pushed(t, u, u') && Settled(t, f, f') && Noted(t, f, f', u')
    && (forall p :: p in s ==> Handled(t, f', u', p))
    && ((forall p :: p in s ==> Still(t, f, p)) ==> f' == f && PushedFrom(u, u', s))
  }

  /** What calc_sl does: the cell gets what its neighbours dictate, whatever its block is, and
      when that is a change its neighbours are enqueued. */
  ghost predicate Recomputed(t: Terrain, f: Field, u: seq<Pos>, p: Pos, f': Field, u': seq<Pos>) {
    if p !in f || Spread(t, f, p) == f[p] then f' == f && u' == u
    else Enqueued(t, f[p := Spread(t, f, p)], u, Around(p), f', u', 6)
  }

  /** What taking item i off the queue and processing it does. */
  ghost predicate Popped(t: Terrain, f: Field, u: seq<Pos>, i: nat, f': Field, u': seq<Pos>) {
    i < |u| && Recomputed(t, f, Without(u, i), u[i], f', u')
  }

  lemma HandledStays(t: Terrain, f: Field, u: seq<Pos>, f': Field, u': seq<Pos>, p: Pos)
    requires Settled(t, f, f') && Pushed(t, u, u') && Handled(t, f, u, p)
    ensures Handled(t, f', u', p)
  {
  }

  lemma NotedTransitive(t: Terrain, f: Field, f': Field, u': seq<Pos>, f'': Field, u'': seq<Pos>)
    requires Settled(t, f', f'') && Pushed(t, u', u'')
    requires Noted(t, f, f', u') && Noted(t, f', f'', u'')
    ensures Noted(t, f, f'', u'')
  {
    forall q, r | Adjacent(q, r) && LightAt(f'', q) != LightAt(f, q) ensures Handled(t, f'', u'', r) {
      if LightAt(f', q) != LightAt(f, q) {
        HandledStays(t, f', u', f'', u'', r);
      }
    }
  }

  lemma EnqueuedBoth(t: Terrain, f: Field, u: seq<Pos>, s: set<Pos>, f': Field, u': seq<Pos>, n: nat,
                     r: set<Pos>, f'': Field, u'': seq<Pos>, m: nat)
    requires Enqueued(t, f, u, s, f', u', n) && Enqueued(t, f', u', r, f'', u'', m)
    ensures Enqueued(t, f, u, s + r, f'', u'', n + m)
  {
    NotedTransitive(t, f, f', u', f'', u'');
    forall p | p in s + r ensures Handled(t, f'', u'', p) {
      if p in s { HandledStays(t, f', u', f'', u'', p); }
    }
    if forall p :: p in s + r ==> Still(t, f, p) {
      StillBoth(t, f, s, r);
      PushedFromBoth(u, s, u', r, u'');
    }
  }

  lemma StillBoth(t: Terrain, f: Field, s: set<Pos>, r: set<Pos>)
    requires forall p :: p in s + r ==> Still(t, f, p)
    ensures forall p :: p in s ==> Still(t, f, p)
    ensures forall p :: p in r ==> Still(t, f, p)
  {
    assert forall p :: p in s ==> p in s + r;
    assert forall p :: p in r ==> p in s + r;
  }

  lemma EnqueuedThree(t: Terrain, f: Field, u: seq<Pos>, a: set<Pos>, f1: Field, u1: seq<Pos>,
                      b: set<Pos>, f2: Field, u2: seq<Pos>, c: set<Pos>, f3: Field, u3: seq<Pos>)
    requires Enqueued(t, f, u, a, f1, u1, 2) && Enqueued(t, f1, u1, b, f2, u2, 2) && Enqueued(t, f2, u2, c, f3, u3, 2)
    ensures Enqueued(t, f, u, a + b + c, f3, u3, 6)
  {
    EnqueuedBoth(t, f, u, a, f1, u1, 2, b, f2, u2, 2);
    EnqueuedBoth(t, f, u, a + b, f2, u2, 4, c, f3, u3, 2);
  }

  lemma EnqueuedNothing(t: Terrain, f: Field, u: seq<Pos>, p: Pos)
    requires p in f ==> !Transparent(t, p) && Right(t, f, p)
    ensures Enqueued(t, f, u, {p}, f, u, 1)
  {
  }

  lemma EnqueuedPushed(t: Terrain, f: Field, u: seq<Pos>, p: Pos)
    requires p in f && Transparent(t, p) && 0 <= p.y < 256
    ensures Enqueued(t, f, u, {p}, f, u + [p], 1)
  {
  }

  lemma FixCost(t: Terrain, f: Field, u: seq<Pos>, c: Pos)
    requires c in f && !Right(t, f, c)
    ensures Potential(t, f[c := Dictated(t, f, c)]) < Potential(t, f)
    ensures Cost(t, f[c := Dictated(t, f, c)], u) + 7 <= Cost(t, f, u)
  {
    FixDrops(t, f, c);
  }

  lemma SameKeysCover(t: Terrain, f: Field, f': Field)
    requires Covers(t, f) && f'.Keys == f.Keys
    ensures Covers(t, f')
  {
    forall p ensures p in f' <==> Loaded(t, p) {
      assert p in f' <==> p in f'.Keys;
    }
  }

  lemma AroundIsAdjacent(p: Pos, q: Pos)
    ensures q in Around(p) <==> Adjacent(p, q)
    ensures Adjacent(p, q) <==> Adjacent(q, p)
  {
  }

  lemma NotedAfterFix(t: Terrain, f: Field, c: Pos, b: Level, f'': Field, u'': seq<Pos>)
    requires c in f && Noted(t, f[c := b], f'', u'') && forall p :: p in Around(c) ==> Handled(t, f'', u'', p)
    ensures Noted(t, f, f'', u'')
  {
    forall q, r | Adjacent(q, r) && LightAt(f'', q) != LightAt(f, q) ensures Handled(t, f'', u'', r) {
      if q == c { AroundIsAdjacent(c, r); } else { assert LightAt(f[c := b], q) == LightAt(f, q); }
    }
  }

  /** The field with cell c at the level its opaque block dictates. */
  function WithOwn(t: Terrain, f: Field, c: Pos): Field {
    f[c := 15 - t.block(c).opacity]
  }

  lemma FixStarts(t: Terrain, f: Field, c: Pos, f': Field)
    requires Covers(t, f) && c in f && !Transparent(t, c) && f[c] != 15 - t.block(c).opacity
    requires f' == WithOwn(t, f, c)
    ensures Covers(t, f') && Potential(t, f') < Potential(t, f)
  {
    FixDrops(t, f, c);
    SameKeysCover(t, f, f');
  }

  lemma SettledCost(t: Terrain, f: Field, u: seq<Pos>, c: Pos, f'': Field, u'': seq<Pos>)
    requires c in f && !Transparent(t, c) && f[c] != 15 - t.block(c).opacity
    requires Progress(t, f[c := 15 - t.block(c).opacity], u, f'', u'', 6)
    ensures Progress(t, f, u, f'', u'', 1)
  {
    FixCost(t, f, u, c);
  }

  /** Settling a wrong opaque cell and then enqueueing its six neighbours costs at most one. */
  lemma EnqueuedSettled(t: Terrain, f: Field, u: seq<Pos>, c: Pos, f': Field, f'': Field, u'': seq<Pos>)
    requires c in f && !Transparent(t, c) && f[c] != 15 - t.block(c).opacity
    requires f' == WithOwn(t, f, c)
    requires Enqueued(t, f', u, Around(c), f'', u'', 6)
    ensures Enqueued(t, f, u, {c}, f'', u'', 1)
  {
    SettledCost(t, f, u, c, f'', u'');
    NotedAfterFix(t, f, c, 15 - t.block(c).opacity, f'', u'');
  }

  /** Light fields and queues that a pop leads from one to the other stay within the property. */
  ghost predicate Lasting(t: Terrain, inv: (Field, seq<Pos>) -> bool) {
    forall f, u, i, f', u' | Covers(t, f) && inv(f, u) && Popped(t, f, u, i, f', u') :: inv(f', u')
  }

  // ---------------------------------------------------------- lighting a chunk

  /** Sky light left after falling through a column down to y. */
  function Falling(t: Terrain, x: int, z: int, y: int): Level
    decreases 255 - y
  {
    if y >= 255 then 15 else
      var above, opacity := Falling(t, x, z, y + 1), t.block(Pos(x, y, z)).opacity;
      if above < opacity then 0 else above - opacity
  }

  /** Opacities added up from row y to the one below the top. */
  function Shade(t: Terrain, x: int, z: int, y: int): nat
    decreases 255 - y
  {
    if y >= 255 then 0 else t.block(Pos(x, y, z)).opacity + Shade(t, x, z, y + 1)
  }

  /** Light falling through a column loses what the blocks on its way take, and ends at 0. */
  lemma {:induction false} FallingIsShaded(t: Terrain, x: int, z: int, y: int)
    ensures Falling(t, x, z, y) == if Shade(t, x, z, y) >= 15 then 0 else 15 - Shade(t, x, z, y)
    decreases 255 - y
  {
    if y < 255 { FallingIsShaded(t, x, z, y + 1); }
  }

  function ColumnLight(t: Terrain, p: Pos): Level {
    if p.y < t.height(p.x, p.z) then 0 else Falling(t, p.x, p.z, p.y)
  }

  /** The light straight from the sky: full less all opacity on the way, floored at 0, and none
      below the height. */
  function FromSky(t: Terrain, p: Pos): Level {
    var shade := Shade(t, p.x, p.z, p.y);
    if p.y < t.height(p.x, p.z) || shade >= 15 then 0 else 15 - shade
  }

  lemma ColumnFromSky(t: Terrain, p: Pos)
    ensures ColumnLight(t, p) == FromSky(t, p)
  {
    FallingIsShaded(t, p.x, p.z, p.y);
  }

  /** Some block from y up to the one below the top takes light away. */
  ghost predicate Shaded(t: Terrain, x: int, z: int, y: int) {
    exists k :: y <= k < 255 && t.block(Pos(x, k, z)).opacity > 0
  }

  lemma {:induction false} FullLight(t: Terrain, x: int, z: int, y: int)
    ensures Falling(t, x, z, y) == 15 <==> !Shaded(t, x, z, y)
    decreases 255 - y
  {
    if y < 255 {
      FullLight(t, x, z, y + 1);
      if t.block(Pos(x, y, z)).opacity > 0 {
        assert Shaded(t, x, z, y);
      }
      if Shaded(t, x, z, y + 1) {
        var k :| y + 1 <= k < 255 && t.block(Pos(x, k, z)).opacity > 0;
        assert Shaded(t, x, z, y);
      }
    }
  }

  /** A transparent cell open to the sky gets the level calc_sl would give it, and so never
      needs an update, exactly when no block from there to the top takes light away. */
  lemma OpenSkyIsRight(t: Terrain, f: Field, p: Pos)
    requires p in f && f[p] == ColumnLight(t, p)
    requires Transparent(t, p) && p.y >= t.height(p.x, p.z)
    ensures Right(t, f, p) <==> !Shaded(t, p.x, p.z, p.y)
  {
    FullLight(t, p.x, p.z, p.y);
  }

  class LightingManager {
    const terrain: Terrain
    var sl: Field
    var updates: seq<Pos>

    constructor (terrain: Terrain, sl: Field)
      requires Covers(terrain, sl)
      ensures Valid() && this.terrain == terrain && this.sl == sl && updates == []
    {
      this.terrain := terrain;
      this.sl := sl;
      this.updates := [];
    }

    ghost predicate Valid()
      reads this
    {
      Covers(terrain, sl) && forall i :: 0 <= i < |updates| ==> 0 <= updates[i].y < 256
    }

    /** Queues p, or, when its block is opaque, sets its light at once and goes on to its
        neighbours.  The recursion ends because every such fix lowers the potential. */
    method EnqueueSl(p: Pos)
      requires Covers(terrain, sl) && 0 <= p.y < 256
      modifies this`sl, this`updates
      ensures Covers(terrain, sl) && Enqueued(terrain, old(sl), old(updates), {p}, sl, updates, 1)
      ensures Loaded(terrain, p) && Transparent(terrain, p) ==> sl == old(sl) && updates == old(updates) + [p]
      ensures Loaded(terrain, p) && !Transparent(terrain, p) ==> sl[p] == 15 - terrain.block(p).opacity
      ensures Loaded(terrain, p) && !Transparent(terrain, p) && !Right(terrain, old(sl), p) ==>
        Enqueued(terrain, WithOwn(terrain, old(sl), p), old(updates), Around(p), sl, updates, 6)
      ensures !Loaded(terrain, p) || (!Transparent(terrain, p) && Right(terrain, old(sl), p)) ==>
        sl == old(sl) && updates == old(updates)
      decreases Potential(terrain, sl), 1
    {
      if !Loaded(terrain, p) {
        EnqueuedNothing(terrain, sl, updates, p);
        return;
      }
      if terrain.block(p).opaqueBlock {
        SettleOpaque(p);
      } else {
        EnqueuedPushed(terrain, sl, updates, p);
        updates := updates + [p];
      }
    }

    /** The light of an opaque cell follows from its block alone. */
    method SettleOpaque(p: Pos)
      requires Covers(terrain, sl) && Loaded(terrain, p) && !Transparent(terrain, p)
      modifies this`sl, this`updates
      ensures Covers(terrain, sl) && Enqueued(terrain, old(sl), old(updates), {p}, sl, updates, 1)
      ensures sl[p] == 15 - terrain.block(p).opacity
      ensures Right(terrain, old(sl), p) ==> sl == old(sl) && updates == old(updates)
      ensures !Right(terrain, old(sl), p) ==>
        Enqueued(terrain, WithOwn(terrain, old(sl), p), old(updates), Around(p), sl, updates, 6)
      decreases Potential(terrain, sl), 0
    {
      var nsl := 15 - terrain.block(p).opacity;
      if nsl == sl[p] {
        EnqueuedNothing(terrain, sl, updates, p);
      } else {
        ghost var f := sl;
        sl := sl[p := nsl];
        ghost var f1 := sl;
        FixStarts(terrain, f, p, f1);
        EnqueueSlNeighbours(p);
        EnqueuedSettled(terrain, f, old(updates), p, f1, sl, updates);
      }
    }

    method EnqueueSlNeighbours(p: Pos)
      requires Covers(terrain, sl) && 0 <= p.y < 256
      modifies this`sl, this`updates
      ensures Covers(terrain, sl) && Enqueued(terrain, old(sl), old(updates), Around(p), sl, updates, 6)
      decreases Potential(terrain, sl), 4
    {
      ghost var f, u := sl, updates;
      EnqueueTwo(Pos(p.x - 1, p.y, p.z), Pos(p.x + 1, p.y, p.z), AlongX(p));
      ghost var f1, u1 := sl, updates;
      EnqueueTwo(Pos(p.x, p.y, p.z - 1), Pos(p.x, p.y, p.z + 1), AlongZ(p));
      ghost var f2, u2 := sl, updates;
      EnqueueTwo(Pos(p.x, p.y - 1, p.z), Pos(p.x, p.y + 1, p.z), AlongY(p));
      EnqueuedThree(terrain, f, u, AlongX(p), f1, u1, AlongZ(p), f2, u2, AlongY(p), sl, updates);
    }

    /** Two cells in turn, one below or above the world being passed over. */
    method EnqueueTwo(p: Pos, q: Pos, ghost s: set<Pos>)
      requires Covers(terrain, sl) && s == {p} + {q}
      modifies this`sl, this`updates
      ensures Covers(terrain, sl) && Enqueued(terrain, old(sl), old(updates), s, sl, updates, 2)
      decreases Potential(terrain, sl), 3
    {
      if 0 <= p.y < 256 {
        EnqueueSl(p);
      } else {
        EnqueuedNothing(terrain, sl, updates, p);
      }
      ghost var f1, u1 := sl, updates;
      if 0 <= q.y < 256 {
        EnqueueSl(q);
      } else {
        EnqueuedNothing(terrain, sl, updates, q);
      }
      EnqueuedBoth(terrain, old(sl), old(updates), {p}, f1, u1, 1, {q}, sl, updates, 1);
    }

    /** Recomputes one cell from its neighbours, whatever its block is. */
    method CalcSl(p: Pos)
      requires Covers(terrain, sl) && 0 <= p.y < 256
      modifies this`sl, this`updates
      ensures Covers(terrain, sl) && Recomputed(terrain, old(sl), old(updates), p, sl, updates)
      ensures Pushed(terrain, old(updates), updates)
      ensures Transparent(terrain, p) ==> Progress(terrain, old(sl), old(updates), sl, updates, 0)
    {
      if !Loaded(terrain, p) {
        return;
      }
      var level := Spread(terrain, sl, p);
      if level != sl[p] {
        if Transparent(terrain, p) { FixCost(terrain, sl, updates, p); }
        SameKeysCover(terrain, sl, sl[p := level]);
        sl := sl[p := level];
        EnqueueSlNeighbours(p);
      }
    }

    /** Takes item i off the queue and processes it. */
    method Process(i: nat)
      requires Valid() && i < |updates|
      modifies this`sl, this`updates
      ensures Valid() && Popped(terrain, old(sl), old(updates), i, sl, updates)
      ensures Stale(terrain, updates) + If(!Transparent(terrain, old(updates[i])), 1) == old(Stale(terrain, updates))
      ensures Transparent(terrain, old(updates[i])) ==> Cost(terrain, sl, updates) < old(Cost(terrain, sl, updates))
    {
      var item := updates[i];
      WithoutFacts(terrain, updates, i);
      updates := Without(updates, i);
      ghost var rest := updates;
      CalcSl(item);
      PushedStale(terrain, rest, updates);
    }

    /** One locked batch of a worker: up to a thousand items, newest first. */
    method WorkerCycle(ghost inv: (Field, seq<Pos>) -> bool) returns (processed: nat)
      requires Valid() && Lasting(terrain, inv) && inv(sl, updates)
      modifies this`sl, this`updates
      ensures Valid() && processed <= 1000 && (processed == 1000 || updates == [])
      ensures old(updates) != [] ==> processed > 0
      ensures Stale(terrain, updates) <= old(Stale(terrain, updates))
      ensures Stale(terrain, updates) == old(Stale(terrain, updates)) ==>
        Cost(terrain, sl, updates) + processed <= old(Cost(terrain, sl, updates))
      ensures inv(sl, updates)
    {
      processed := 0;
      while processed < 1000 && updates != []
        invariant Valid() && processed <= 1000 && inv(sl, updates)
        invariant old(updates) != [] ==> processed > 0 || updates != []
        invariant Stale(terrain, updates) <= old(Stale(terrain, updates))
        invariant Stale(terrain, updates) == old(Stale(terrain, updates)) ==>
          Cost(terrain, sl, updates) + processed <= old(Cost(terrain, sl, updates))
        decreases 1000 - processed
      {
        Process(|updates| - 1);
        processed := processed + 1;
      }
    }

    /** The worker left running until its queue is empty.  It always gets there, and whatever
        every pop keeps holds at the end. */
    method Drain(ghost inv: (Field, seq<Pos>) -> bool) returns (pops: nat)
      requires Valid() && Lasting(terrain, inv) && inv(sl, updates)
      modifies this`sl, this`updates
      ensures Valid() && updates == [] && inv(sl, [])
      ensures old(Stale(terrain, updates)) == 0 ==> pops <= old(Cost(terrain, sl, updates))
    {
      pops := 0;
      while updates != []
        invariant Valid() && inv(sl, updates) && Stale(terrain, updates) <= old(Stale(terrain, updates))
        invariant old(Stale(terrain, updates)) == 0 ==>
          Cost(terrain, sl, updates) + pops <= old(Cost(terrain, sl, updates))
        decreases Stale(terrain, updates), Cost(terrain, sl, updates)
      {
        var processed := WorkerCycle(inv);
        pops := pops + processed;
      }
    }

    /** The same with the items taken in an arbitrary order. */
    method DrainInAnyOrder(ghost inv: (Field, seq<Pos>) -> bool)
      requires Valid() && Lasting(terrain, inv) && inv(sl, updates)
      modifies this`sl, this`updates
      ensures Valid() && updates == [] && inv(sl, [])
    {
      while updates != []
        invariant Valid() && inv(sl, updates)
        decreases Stale(terrain, updates), Cost(terrain, sl, updates)
      {
        var i: nat :| i < |updates|;
        Process(i);
      }
    }

    /** The columns of a loaded chunk, lit straight down and without its neighbours. */
    method LightChunk(cx: int, cz: int)
      requires Covers(terrain, sl) && (cx, cz) in terrain.loaded
      requires forall x, z :: 0 <= terrain.height(x, z) <= 256
      modifies this`sl
      ensures sl.Keys == old(sl).Keys
      ensures forall p :: p in sl ==>
        sl[p] == if InChunk(p, cx, cz) then ColumnLight(terrain, p) else old(sl)[p]
      ensures forall p :: p in sl && InChunk(p, cx, cz) ==> sl[p] == FromSky(terrain, p)
    {
      for x := 0 to 16
        invariant Painted(old(sl), sl, (p: Pos) => InChunk(p, cx, cz) && p.x < 16 * cx + x)
      {
        for z := 0 to 16
          invariant Painted(old(sl), sl, (p: Pos) => InChunk(p, cx, cz) &&
            (p.x < 16 * cx + x || (p.x == 16 * cx + x && p.z < 16 * cz + z)))
        {
          LightColumn(16 * cx + x, 16 * cz + z);
        }
      }
      forall p | p in sl && InChunk(p, cx, cz) ensures sl[p] == FromSky(terrain, p) {
        ColumnFromSky(terrain, p);
      }
    }

    ghost predicate Painted(f: Field, f': Field, done: Pos -> bool) {
      && f'.Keys == f.Keys
      && forall p :: p in f ==> f'[p] == if done(p) then ColumnLight(terrain, p) else f[p]
    }

    method LightColumn(x: int, z: int)
      requires Covers(terrain, sl) && (x / 16, z / 16) in terrain.loaded
      requires 0 <= terrain.height(x, z) <= 256
      modifies this`sl
      ensures Painted(old(sl), sl, (p: Pos) => p.x == x && p.z == z)
      ensures forall p :: p in sl && p.x == x && p.z == z ==> sl[p] == FromSky(terrain, p)
    {
      ghost var f := sl;
      var h := terrain.height(x, z);
      sl := sl[Pos(x, 255, z) := 15];
      var level: Level := 15;
      var y := 254;
      PaintTop(terrain, f, sl, x, z);
      while y >= h
        invariant y <= 254 && (h - 1 <= y || y == 254)
        invariant level == Falling(terrain, x, z, y + 1)
        invariant Covers(terrain, sl) && LitFrom(terrain, f, sl, x, z, y + 1)
      {
        var opacity := terrain.block(Pos(x, y, z)).opacity;
        level := if level < opacity then 0 else level - opacity;
        PaintNext(terrain, f, sl, x, z, y, level);
        sl := sl[Pos(x, y, z) := level];
        y := y - 1;
      }
      Darken(x, z, f);
      forall p | p in sl && p.x == x && p.z == z ensures sl[p] == FromSky(terrain, p) {
        ColumnFromSky(terrain, p);
      }
    }

    method Darken(x: int, z: int, ghost f: Field)
      requires Covers(terrain, f) && Covers(terrain, sl) && (x / 16, z / 16) in terrain.loaded
      requires 0 <= terrain.height(x, z) <= 256 && LitFrom(terrain, f, sl, x, z, terrain.height(x, z))
      modifies this`sl
      ensures Painted(f, sl, (p: Pos) => p.x == x && p.z == z)
    {
      var h := terrain.height(x, z);
      ghost var f0 := sl;
      var y := h - 1;
      while y >= 0
        invariant -1 <= y < h && Covers(terrain, sl) && DarkFrom(f0, sl, x, z, y + 1, h)
      {
        DarkenNext(terrain, f0, sl, x, z, y, h);
        sl := sl[Pos(x, y, z) := 0];
        y := y - 1;
      }
    }
  }

  /** Column (x, z) is lit from level y up and no other column has changed. */
  ghost predicate LitFrom(t: Terrain, f: Field, f': Field, x: int, z: int, y: int) {
    && (forall p | p in f && (p.x != x || p.z != z) :: p in f' && f'[p] == f[p])
    && (forall p | p in f' && p.x == x && p.z == z && p.y >= y :: f'[p] == Falling(t, x, z, p.y))
  }

  /** Column (x, z) is dark from level y up to h and nothing else has changed. */
  ghost predicate DarkFrom(f: Field, f': Field, x: int, z: int, y: int, h: int) {
    forall p | p in f ::
      p in f' && f'[p] == if p.x == x && p.z == z && y <= p.y < h then 0 else f[p]
  }

  lemma PaintTop(t: Terrain, f: Field, f': Field, x: int, z: int)
    requires Covers(t, f) && Loaded(t, Pos(x, 255, z)) && f' == f[Pos(x, 255, z) := 15]
    ensures Covers(t, f') && LitFrom(t, f, f', x, z, 255)
  {
  }

  lemma PaintNext(t: Terrain, f: Field, f': Field, x: int, z: int, y: int, level: Level)
    requires Covers(t, f') && Loaded(t, Pos(x, y, z)) && level == Falling(t, x, z, y)
    requires LitFrom(t, f, f', x, z, y + 1)
    ensures Covers(t, f'[Pos(x, y, z) := level]) && LitFrom(t, f, f'[Pos(x, y, z) := level], x, z, y)
  {
  }

  lemma DarkenNext(t: Terrain, f: Field, f': Field, x: int, z: int, y: int, h: int)
    requires Covers(t, f') && Loaded(t, Pos(x, y, z)) && y < h
    requires DarkFrom(f, f', x, z, y + 1, h)
    ensures Covers(t, f'[Pos(x, y, z) := 0]) && DarkFrom(f, f'[Pos(x, y, z) := 0], x, z, y, h)
  {
  }

  predicate InChunk(p: Pos, cx: int, cz: int) {
    p.x / 16 == cx && p.z / 16 == cz
  }
}
