/** The physics system's broad-phase collision cache and its enable/disable
    control. Once per tick a singleton step gathers one shape per collidable
    entity into a reusable list, walks every unordered pair of that list once,
    and clears the list. The pair test itself is empty in the system, so the
    walk is recorded as the sequence of index pairs it visits. */
module Physics {

  // ---------------------------------------------------------------------------
  // The world, as far as this system sees it

  /** Which of the components the collision query asks for an entity carries. */
  datatype EntityInfo = EntityInfo(collidable: bool, hasPosition: bool, hasOrientation: bool)

  /** The entity-component world: its entities in iteration order, and its named
      entities with their enabled flag. */
  class World {
    var entities: seq<EntityInfo>
    var named: map<string, bool>

    constructor (entities: seq<EntityInfo>, named: map<string, bool>)
      ensures this.entities == entities && this.named == named
    {
      this.entities := entities;
      this.named := named;
    }
  }

  /** The query `<Collidable, Position, Orientation>`. */
  predicate Matches(e: EntityInfo) {
    e.collidable && e.hasPosition && e.hasOrientation
  }

  /** The positions of the entities the query yields, in iteration order. */
  function Query(es: seq<EntityInfo>): (r: seq<nat>)
    ensures forall j :: 0 <= j < |r| ==> r[j] < |es| && Matches(es[r[j]])
    ensures forall p :: 0 <= p < |es| && Matches(es[p]) ==> p in r
    ensures forall a, b :: 0 <= a < b < |r| ==> r[a] < r[b]
  {
    if es == [] then []
    else
      var rest := Query(es[..|es| - 1]);
      assert forall p :: 0 <= p < |es| - 1 ==> es[..|es| - 1][p] == es[p];
      if Matches(es[|es| - 1]) then rest + [|es| - 1] else rest
  }

  // ---------------------------------------------------------------------------
  // The pairs the nested loop visits

  /** The inner loop for outer index `i`: `(i, i+1)`, ..., `(i, n-1)`. */
  function Row(i: nat, n: nat): (r: seq<(nat, nat)>)
    ensures |r| == if i < n then n - i - 1 else 0
  {
    if i < n then seq(n - i - 1, (k: nat) => (i, i + 1 + k)) else []
  }

  /** The pairs visited by the first `m` rounds of the outer loop. */
  function PairsUpTo(m: nat, n: nat): seq<(nat, nat)> {
    if m == 0 then [] else PairsUpTo(m - 1, n) + Row(m - 1, n)
  }

  /** Every pair the loop visits for a list of length `n`. */
  function Pairs(n: nat): seq<(nat, nat)> {
    PairsUpTo(n, n)
  }

  /** Strict lexicographic order on index pairs. */
  predicate LexLess(p: (nat, nat), q: (nat, nat)) {
    p.0 < q.0 || (p.0 == q.0 && p.1 < q.1)
  }

  lemma {:induction false} PairsUpToLength(m: nat, n: nat)
    requires m <= n
    ensures 2 * |PairsUpTo(m, n)| == m * (2 * n - m - 1)
  {
    if m > 0 {
      PairsUpToLength(m - 1, n);
      calc {
        2 * |PairsUpTo(m, n)|;
        2 * |PairsUpTo(m - 1, n)| + 2 * (n - m);
        (m - 1) * (2 * n - m) + 2 * (n - m);
        m * (2 * n - m - 1);
      }
    }
  }

  /** The loop visits `n(n-1)/2` pairs. */
  lemma PairsCount(n: nat)
    ensures |Pairs(n)| == n * (n - 1) / 2
  {
    PairsUpToLength(n, n);
  }

  /** The first `m` rounds visit exactly the pairs `(i, j)` with `i < m` and `i < j < n`. */
  lemma {:induction false} PairsUpToMembers(m: nat, n: nat)
    requires m <= n
    ensures forall p :: p in PairsUpTo(m, n) <==> p.0 < m && p.0 < p.1 < n
  {
    if m > 0 {
      PairsUpToMembers(m - 1, n);
      var row := Row(m - 1, n);
      forall p: (nat, nat) | p.0 == m - 1 && p.0 < p.1 < n
        ensures p in row
      {
        assert row[p.1 - m] == p;
      }
    }
  }

  /** A pair is visited if and only if it is `(i, j)` with `0 <= i < j < n`: no
      self-pair, and never both `(i, j)` and `(j, i)`. */
  lemma PairsMembers(n: nat)
    ensures forall p :: p in Pairs(n) <==> p.0 < p.1 < n
    ensures forall i, j :: (i, j) in Pairs(n) ==> (j, i) !in Pairs(n) && i != j
  {
    PairsUpToMembers(n, n);
  }

  /** Pairs come in lexicographic order: outer index, then inner index, ascending. */
  lemma {:induction false} PairsUpToSorted(m: nat, n: nat)
    requires m <= n
    ensures forall a, b :: 0 <= a < b < |PairsUpTo(m, n)| ==> LexLess(PairsUpTo(m, n)[a], PairsUpTo(m, n)[b])
  {
    if m > 0 {
      PairsUpToSorted(m - 1, n);
      PairsUpToMembers(m - 1, n);
      var front, row := PairsUpTo(m - 1, n), Row(m - 1, n);
      var all := front + row;
      forall a, b | 0 <= a < b < |all|
        ensures LexLess(all[a], all[b])
      {
        if b < |front| {
          assert all[a] == front[a] && all[b] == front[b];
        } else if a < |front| {
          assert front[a] in front;
          assert all[b] == row[b - |front|];
        } else {
          assert all[a] == row[a - |front|] && all[b] == row[b - |front|];
        }
      }
    }
  }

  /** Each pair is visited exactly once, in lexicographic order. */
  lemma PairsSortedAndDistinct(n: nat)
    ensures forall a, b :: 0 <= a < b < |Pairs(n)| ==> LexLess(Pairs(n)[a], Pairs(n)[b])
    ensures forall a, b :: 0 <= a < b < |Pairs(n)| ==> Pairs(n)[a] != Pairs(n)[b]
  {
    PairsUpToSorted(n, n);
  }

  // ---------------------------------------------------------------------------
  // The system

  /** The collision shape record; it carries no data yet. */
  datatype Shape = Shape

  const AccelerationSystem := "Acceleration System"
  const TranslationSystem := "Translation System"
  const CleanupSystem := "Cleanup System"
  const DetectCollisions := "Detect-Collisions"

  /** `Activate(run)` on the world's named entities: looking an entity up by name
      creates it when missing, so the three systems always end up with `run`. */
  function Activated(named: map<string, bool>, run: bool): (r: map<string, bool>)
    ensures r.Keys == named.Keys + {AccelerationSystem, TranslationSystem, CleanupSystem}
    ensures r[AccelerationSystem] == run && r[TranslationSystem] == run && r[CleanupSystem] == run
    ensures forall name :: name in named && name !in {AccelerationSystem, TranslationSystem, CleanupSystem}
              ==> r[name] == named[name]
  {
    named[AccelerationSystem := run][TranslationSystem := run][CleanupSystem := run]
  }

  /** Repeating an activation changes nothing. */
  lemma ActivatedIdempotent(named: map<string, bool>, run: bool)
    ensures Activated(Activated(named, run), run) == Activated(named, run)
  {
  }

  class PhysicsLogic {
    var game: World
    /** Whether the cached collision query is alive. */
    var queryAlive: bool
    /** Whether the collision step is registered with the scheduler. */
    var collisionStep: bool
    /** The reusable list of gathered shapes. */
    var testCache: seq<Shape>

    /** Between ticks the cache is empty. */
    predicate Valid()
      reads this
    {
      testCache == []
    }

    constructor (game: World)
      ensures this.game == game && !queryAlive && !collisionStep && Valid()
    {
      this.game := game;
      queryAlive := false;
      collisionStep := false;
      testCache := [];
    }

    /** Caches the query, names the collision step's entity and registers the step. */
    method Init(world: World) returns (ok: bool)
      modifies this, world
      ensures ok && game == world && queryAlive && collisionStep
      ensures testCache == old(testCache)
      ensures world.entities == old(world.entities)
      ensures DetectCollisions in world.named
      ensures forall name :: name in old(world.named) ==> name in world.named && world.named[name] == old(world.named[name])
      ensures world.named.Keys == old(world.named.Keys) + {DetectCollisions}
    {
      game := world;
      queryAlive := true;
      if DetectCollisions !in world.named {
        world.named := world.named[DetectCollisions := true];
      }
      collisionStep := true;
      ok := true;
    }

    /** Gathers one shape per entity the query yields, appended in query order. */
    method Gather()
      modifies this`testCache
      ensures testCache == old(testCache) + seq(|Query(game.entities)|, _ => Shape)
    {
      var es := game.entities;
      var e := 0;
      while e < |es|
        invariant 0 <= e <= |es|
        invariant testCache == old(testCache) + seq(|Query(es[..e])|, _ => Shape)
      {
        assert es[..e + 1][..e] == es[..e];
        if Matches(es[e]) {
          testCache := testCache + [Shape];
        }
        e := e + 1;
      }
      assert es[..e] == es;
    }

    /** The nested loop over the cache: outer index `i`, inner index from `i + 1`. */
    method VisitPairs() returns (visited: seq<(nat, nat)>)
      ensures visited == Pairs(|testCache|)
    {
      visited := [];
      var i := 0;
      while i < |testCache|
        invariant 0 <= i <= |testCache|
        invariant visited == PairsUpTo(i, |testCache|)
      {
        ghost var row := Row(i, |testCache|);
        ghost var front := visited;
        var j := i + 1;
        while j < |testCache|
          invariant i + 1 <= j <= |testCache|
          invariant visited == front + row[..j - i - 1]
        {
          assert row[..j - i] == row[..j - i - 1] + [(i, j)];
          visited := visited + [(i, j)];
          j := j + 1;
        }
        assert row[..j - i - 1] == row;
        i := i + 1;
      }
    }

    /** One tick of the collision step: gather, visit every pair, clear. */
    method CollisionTick() returns (visited: seq<(nat, nat)>)
      modifies this`testCache
      ensures Valid()
      ensures visited == Pairs(|old(testCache)| + |Query(game.entities)|)
    {
      Gather();
      visited := VisitPairs();
      testCache := [];
    }

    method Activate(run: bool) returns (ok: bool)
      modifies game
      ensures ok
      ensures game.named == Activated(old(game.named), run)
      ensures game.entities == old(game.entities)
    {
      game.named := game.named[AccelerationSystem := run];
      game.named := game.named[TranslationSystem := run];
      game.named := game.named[CleanupSystem := run];
      ok := true;
    }

    /** Releases the query and destroys the three named systems. */
    method Shutdown() returns (ok: bool)
      modifies this`queryAlive, game
      ensures ok && !queryAlive
      ensures game.named == old(game.named) - {AccelerationSystem, TranslationSystem, CleanupSystem}
      ensures game.entities == old(game.entities)
    {
      queryAlive := false;
      game.named := game.named - {AccelerationSystem};
      game.named := game.named - {TranslationSystem};
      game.named := game.named - {CleanupSystem};
      ok := true;
    }
  }
}
