/** Procedural content: batches of coins and enemies spawned ahead of a frontier, the
    x of the last spawned item. Each item moves the frontier right by a random gap:
    r * 200 + 100 for a coin, r * 300 + 200 for an enemy, for a random value r.
    The random values are an explicit sequence: a coin draws two (its gap, then its
    height), an enemy three (its gap, its direction, then its patrol range). */
module Generation {
  import opened World
  import Patrol

  /** Content is generated once the player is this close to a frontier. */
  const LOOKAHEAD: real := 1000.0

  const INITIAL_COIN_FRONTIER: real := 200.0
  const INITIAL_ENEMY_FRONTIER: real := 400.0
  const INITIAL_COINS: nat := 20
  const INITIAL_ENEMIES: nat := 10
  const MORE_COINS: nat := 5
  const MORE_ENEMIES: nat := 3

  predicate ShouldGenerate(playerX: real, frontier: real) {
    playerX > frontier - LOOKAHEAD
  }

  // ---------------------------------------------------------------- coins

  /** The coin frontier after n coins spawned from `start`: each adds rnd * 200 + 100. */
  function CoinFrontier(start: real, n: nat, rnd: seq<real>): real
    requires 2 * n <= |rnd|
    decreases n
  {
    if n == 0 then start
    else CoinFrontier(start, n - 1, rnd) + rnd[2 * (n - 1)] * 200.0 + 100.0
  }

  /** The i-th coin of a batch, spawned at the frontier x, at a random height in
      [CEILING_Y, CEILING_Y + 200), 200 being FLOOR_Y - CEILING_Y - 100. */
  function NewCoin(i: nat, x: real, rHeight: real): Coin {
    Coin(i as real + x, x, rHeight * 200.0 + CEILING_Y, false)
  }

  /** The coins pushed by a batch of n, in push order. */
  function CoinBatch(start: real, n: nat, rnd: seq<real>): (b: seq<Coin>)
    requires 2 * n <= |rnd|
    decreases n
    ensures |b| == n
  {
    if n == 0 then []
    else CoinBatch(start, n - 1, rnd) + [NewCoin(n - 1, CoinFrontier(start, n, rnd), rnd[2 * (n - 1) + 1])]
  }

  /** The i-th coin of a batch is the i-th coin spawned, at the frontier after i + 1 coins. */
  lemma {:induction false} CoinAt(start: real, n: nat, rnd: seq<real>, i: nat)
    requires 2 * n <= |rnd| && i < n
    decreases n
    ensures CoinBatch(start, n, rnd)[i] == NewCoin(i, CoinFrontier(start, i + 1, rnd), rnd[2 * i + 1])
  {
    if i < n - 1 {
      CoinAt(start, n - 1, rnd, i);
    }
  }

  /** Every coin moves the frontier by a gap in [100, 300). */
  lemma {:induction false} CoinFrontierBounds(start: real, n: nat, rnd: seq<real>)
    requires 2 * n <= |rnd| && AllUnits(rnd)
    decreases n
    ensures start + 100.0 * (n as real) <= CoinFrontier(start, n, rnd)
    ensures n > 0 ==> CoinFrontier(start, n, rnd) < start + 300.0 * (n as real)
  {
    if n > 0 {
      CoinFrontierBounds(start, n - 1, rnd);
      assert Unit(rnd[2 * (n - 1)]);
    }
  }

  lemma {:induction false} CoinFrontierIncreasing(start: real, i: nat, j: nat, rnd: seq<real>)
    requires i < j && 2 * j <= |rnd| && AllUnits(rnd)
    decreases j
    ensures CoinFrontier(start, i, rnd) + 100.0 <= CoinFrontier(start, j, rnd)
  {
    assert Unit(rnd[2 * (j - 1)]);
    if i < j - 1 {
      CoinFrontierIncreasing(start, i, j - 1, rnd);
    }
  }

  /** The shape of a coin batch: each coin lies a gap in [100, 300) past the one before
      (the first past the old frontier), at a height in [50, 250), uncollected, with id
      = its index in the batch + its x. */
  lemma CoinBatchShape(start: real, n: nat, rnd: seq<real>)
    requires 2 * n <= |rnd| && AllUnits(rnd)
    ensures var b := CoinBatch(start, n, rnd);
            && (n > 0 ==> 100.0 <= b[0].x - start < 300.0)
            && (forall i :: 0 < i < n ==> 100.0 <= b[i].x - b[i - 1].x < 300.0)
            && (forall i :: 0 <= i < n ==>
                  CEILING_Y <= b[i].y < FLOOR_Y - 100.0 && !b[i].collected && b[i].id == i as real + b[i].x)
  {
    var b := CoinBatch(start, n, rnd);
    forall i | 0 <= i < n
      ensures CEILING_Y <= b[i].y < FLOOR_Y - 100.0 && !b[i].collected && b[i].id == i as real + b[i].x
    {
      CoinAt(start, n, rnd, i);
      assert Unit(rnd[2 * i + 1]);
    }
    forall i | 0 < i < n
      ensures 100.0 <= b[i].x - b[i - 1].x < 300.0
    {
      CoinAt(start, n, rnd, i);
      CoinAt(start, n, rnd, i - 1);
      assert Unit(rnd[2 * i]);
    }
    if n > 0 {
      CoinAt(start, n, rnd, 0);
      assert Unit(rnd[0]);
    }
  }

  /** The coins of a batch (and their ids) strictly ascend, all lie past the old frontier
      and up to the new one, and the new frontier is the last coin's x. */
  lemma CoinBatchAscends(start: real, n: nat, rnd: seq<real>)
    requires 2 * n <= |rnd| && AllUnits(rnd)
    ensures var b := CoinBatch(start, n, rnd);
            && (forall i, j :: 0 <= i < j < n ==> b[i].x < b[j].x && b[i].id < b[j].id)
            && (forall i :: 0 <= i < n ==> start < b[i].x <= CoinFrontier(start, n, rnd))
            && (n > 0 ==> b[n - 1].x == CoinFrontier(start, n, rnd))
  {
    var b := CoinBatch(start, n, rnd);
    forall i | 0 <= i < n
      ensures start < b[i].x <= CoinFrontier(start, n, rnd)
    {
      CoinAt(start, n, rnd, i);
      CoinFrontierBounds(start, i + 1, rnd);
      if i + 1 < n {
        CoinFrontierIncreasing(start, i + 1, n, rnd);
      }
    }
    forall i, j | 0 <= i < j < n
      ensures b[i].x < b[j].x && b[i].id < b[j].id
    {
      CoinAt(start, n, rnd, i);
      CoinAt(start, n, rnd, j);
      CoinFrontierIncreasing(start, i + 1, j + 1, rnd);
    }
  }

  /** Coins strictly ascending in x (each right of the one before), none past the
      frontier, the last one on it. */
  predicate CoinsAscending(cs: seq<Coin>, frontier: real) {
    && (forall i :: 0 < i < |cs| ==> cs[i - 1].x < cs[i].x)
    && (forall i :: 0 <= i < |cs| ==> cs[i].x <= frontier)
    && (|cs| > 0 ==> cs[|cs| - 1].x == frontier)
  }

  /** Coins past `start` ascending up to `f` may follow coins ascending up to `start`. */
  lemma ConcatCoins(cs: seq<Coin>, start: real, b: seq<Coin>, f: real)
    requires CoinsAscending(cs, start) && CoinsAscending(b, f) && start <= f
    requires forall i :: 0 <= i < |b| ==> start < b[i].x
    requires b == [] ==> f == start
    ensures CoinsAscending(cs + b, f)
  {
    var c := cs + b;
    var k := |cs|;
    forall i | 0 < i < |c|
      ensures c[i - 1].x < c[i].x
    {
      if i < k {
        assert c[i - 1].x == cs[i - 1].x && c[i].x == cs[i].x;
      } else if i == k {
        assert c[i - 1].x == cs[k - 1].x <= start < b[0].x == c[i].x;
      } else {
        assert c[i - 1].x == b[i - 1 - k].x && c[i].x == b[i - k].x;
      }
    }
    forall i | 0 <= i < |c|
      ensures c[i].x <= f
    {
      if i < k {
        assert c[i].x == cs[i].x;
      } else {
        assert c[i].x == b[i - k].x;
      }
    }
    if b == [] {
      assert c == cs;
    } else {
      assert c[|c| - 1] == b[|b| - 1];
    }
  }

  lemma AppendCoins(cs: seq<Coin>, start: real, n: nat, rnd: seq<real>)
    requires 2 * n <= |rnd| && AllUnits(rnd)
    requires CoinsAscending(cs, start)
    ensures CoinsAscending(cs + CoinBatch(start, n, rnd), CoinFrontier(start, n, rnd))
    ensures start <= CoinFrontier(start, n, rnd)
  {
    CoinBatchAscends(start, n, rnd);
    CoinFrontierBounds(start, n, rnd);
    ConcatCoins(cs, start, CoinBatch(start, n, rnd), CoinFrontier(start, n, rnd));
  }

  // ---------------------------------------------------------------- enemies

  /** The enemy frontier after n enemies spawned from `start`: each adds rnd * 300 + 200. */
  function EnemyFrontier(start: real, n: nat, rnd: seq<real>): real
    requires 3 * n <= |rnd|
    decreases n
  {
    if n == 0 then start
    else EnemyFrontier(start, n - 1, rnd) + rnd[3 * (n - 1)] * 300.0 + 200.0
  }

  /** The i-th enemy of a batch, spawned at the frontier x and patrolling around it. */
  function NewEnemy(i: nat, x: real, rDir: real, rRange: real): Enemy {
    Enemy(i as real + x, x, GROUND_Y, if rDir > 0.5 then 1 else -1, rRange * 100.0 + 50.0, x)
  }

  /** The enemies pushed by a batch of n, in push order. */
  function EnemyBatch(start: real, n: nat, rnd: seq<real>): (b: seq<Enemy>)
    requires 3 * n <= |rnd|
    decreases n
    ensures |b| == n
  {
    if n == 0 then []
    else EnemyBatch(start, n - 1, rnd)
         + [NewEnemy(n - 1, EnemyFrontier(start, n, rnd), rnd[3 * (n - 1) + 1], rnd[3 * (n - 1) + 2])]
  }

  /** The i-th enemy of a batch is the i-th enemy spawned, at the frontier after i + 1 enemies. */
  lemma {:induction false} EnemyAt(start: real, n: nat, rnd: seq<real>, i: nat)
    requires 3 * n <= |rnd| && i < n
    decreases n
    ensures EnemyBatch(start, n, rnd)[i]
         == NewEnemy(i, EnemyFrontier(start, i + 1, rnd), rnd[3 * i + 1], rnd[3 * i + 2])
  {
    if i < n - 1 {
      EnemyAt(start, n - 1, rnd, i);
    }
  }

  /** Every enemy moves the frontier by a gap in [200, 500). */
  lemma {:induction false} EnemyFrontierBounds(start: real, n: nat, rnd: seq<real>)
    requires 3 * n <= |rnd| && AllUnits(rnd)
    decreases n
    ensures start + 200.0 * (n as real) <= EnemyFrontier(start, n, rnd)
    ensures n > 0 ==> EnemyFrontier(start, n, rnd) < start + 500.0 * (n as real)
  {
    if n > 0 {
      EnemyFrontierBounds(start, n - 1, rnd);
      assert Unit(rnd[3 * (n - 1)]);
    }
  }

  lemma {:induction false} EnemyFrontierIncreasing(start: real, i: nat, j: nat, rnd: seq<real>)
    requires i < j && 3 * j <= |rnd| && AllUnits(rnd)
    decreases j
    ensures EnemyFrontier(start, i, rnd) + 200.0 <= EnemyFrontier(start, j, rnd)
  {
    assert Unit(rnd[3 * (j - 1)]);
    if i < j - 1 {
      EnemyFrontierIncreasing(start, i, j - 1, rnd);
    }
  }

  /** An enemy as a batch spawns it: patrolling around its own spawn point, well-formed. */
  predicate Spawned(e: Enemy) {
    e.originalX == e.x && Patrol.WellFormed(e)
  }

  /** The shape of an enemy batch: each enemy lies a gap in [200, 500) past the one
      before (the first past the old frontier), on the ground at its own spawn point,
      facing 1 or -1, with a patrol range in [50, 150), and id = its index in the batch
      + its x. */
  lemma EnemyBatchShape(start: real, n: nat, rnd: seq<real>)
    requires 3 * n <= |rnd| && AllUnits(rnd)
    ensures var b := EnemyBatch(start, n, rnd);
            && (n > 0 ==> 200.0 <= b[0].x - start < 500.0)
            && (forall i :: 0 < i < n ==> 200.0 <= b[i].x - b[i - 1].x < 500.0)
            && (forall i :: 0 <= i < n ==> Spawned(b[i]) && b[i].id == i as real + b[i].x)
  {
    var b := EnemyBatch(start, n, rnd);
    forall i | 0 <= i < n
      ensures Spawned(b[i]) && b[i].id == i as real + b[i].x
    {
      EnemyAt(start, n, rnd, i);
      assert Unit(rnd[3 * i + 2]);
    }
    forall i | 0 < i < n
      ensures 200.0 <= b[i].x - b[i - 1].x < 500.0
    {
      EnemyAt(start, n, rnd, i);
      EnemyAt(start, n, rnd, i - 1);
      assert Unit(rnd[3 * i]);
    }
    if n > 0 {
      EnemyAt(start, n, rnd, 0);
      assert Unit(rnd[0]);
    }
  }

  /** The spawn points of a batch (and the ids) strictly ascend, all lie at least the
      least gap (200) past the old frontier and up to the new one, and the new frontier
      is the last spawn point. */
  lemma EnemyBatchAscends(start: real, n: nat, rnd: seq<real>)
    requires 3 * n <= |rnd| && AllUnits(rnd)
    ensures var b := EnemyBatch(start, n, rnd);
            && (forall i, j :: 0 <= i < j < n ==> b[i].originalX < b[j].originalX && b[i].id < b[j].id)
            && (forall i :: 0 <= i < n ==> start + 200.0 <= b[i].originalX <= EnemyFrontier(start, n, rnd))
            && (n > 0 ==> b[n - 1].originalX == EnemyFrontier(start, n, rnd))
  {
    var b := EnemyBatch(start, n, rnd);
    forall i | 0 <= i < n
      ensures start + 200.0 <= b[i].originalX <= EnemyFrontier(start, n, rnd)
    {
      EnemyAt(start, n, rnd, i);
      EnemyFrontierBounds(start, i + 1, rnd);
      if i + 1 < n {
        EnemyFrontierIncreasing(start, i + 1, n, rnd);
      }
    }
    forall i, j | 0 <= i < j < n
      ensures b[i].originalX < b[j].originalX && b[i].id < b[j].id
    {
      EnemyAt(start, n, rnd, i);
      EnemyAt(start, n, rnd, j);
      EnemyFrontierIncreasing(start, i + 1, j + 1, rnd);
    }
  }

  /** Enemy spawn points strictly ascending (each right of the one before), none past
      the frontier, the last one on it. */
  predicate EnemiesAscending(es: seq<Enemy>, frontier: real) {
    && (forall i :: 0 < i < |es| ==> es[i - 1].originalX < es[i].originalX)
    && (forall i :: 0 <= i < |es| ==> es[i].originalX <= frontier)
    && (|es| > 0 ==> es[|es| - 1].originalX == frontier)
  }

  /** Enemies spawned past `start` ascending up to `f` may follow enemies ascending up to `start`. */
  lemma ConcatEnemies(es: seq<Enemy>, start: real, b: seq<Enemy>, f: real)
    requires EnemiesAscending(es, start) && EnemiesAscending(b, f) && start <= f
    requires forall i :: 0 <= i < |b| ==> start < b[i].originalX
    requires b == [] ==> f == start
    ensures EnemiesAscending(es + b, f)
  {
    var c := es + b;
    var k := |es|;
    forall i | 0 < i < |c|
      ensures c[i - 1].originalX < c[i].originalX
    {
      if i < k {
        assert c[i - 1].originalX == es[i - 1].originalX && c[i].originalX == es[i].originalX;
      } else if i == k {
        assert c[i - 1].originalX == es[k - 1].originalX <= start < b[0].originalX == c[i].originalX;
      } else {
        assert c[i - 1].originalX == b[i - 1 - k].originalX && c[i].originalX == b[i - k].originalX;
      }
    }
    forall i | 0 <= i < |c|
      ensures c[i].originalX <= f
    {
      if i < k {
        assert c[i].originalX == es[i].originalX;
      } else {
        assert c[i].originalX == b[i - k].originalX;
      }
    }
    if b == [] {
      assert c == es;
    } else {
      assert c[|c| - 1] == b[|b| - 1];
    }
  }

  lemma AppendEnemiesAscend(es: seq<Enemy>, start: real, n: nat, rnd: seq<real>)
    requires 3 * n <= |rnd| && AllUnits(rnd)
    requires EnemiesAscending(es, start)
    ensures EnemiesAscending(es + EnemyBatch(start, n, rnd), EnemyFrontier(start, n, rnd))
    ensures start <= EnemyFrontier(start, n, rnd)
  {
    EnemyBatchAscends(start, n, rnd);
    EnemyFrontierBounds(start, n, rnd);
    ConcatEnemies(es, start, EnemyBatch(start, n, rnd), EnemyFrontier(start, n, rnd));
  }

  lemma AppendEnemiesWellFormed(es: seq<Enemy>, start: real, n: nat, rnd: seq<real>)
    requires 3 * n <= |rnd| && AllUnits(rnd)
    requires Patrol.AllWellFormed(es)
    ensures Patrol.AllWellFormed(es + EnemyBatch(start, n, rnd))
  {
    var b := EnemyBatch(start, n, rnd);
    var c := es + b;
    EnemyBatchShape(start, n, rnd);
    forall i | 0 <= i < |c|
      ensures Patrol.WellFormed(c[i])
    {
      if i < |es| {
        assert c[i] == es[i];
      } else {
        assert c[i] == b[i - |es|] && Spawned(b[i - |es|]);
      }
    }
  }
}
