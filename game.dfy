/** The state the game component keeps, as one object, and the steps that change it:
    the game-loop frame and the two effects: coin pickup, run when the player changes,
    and enemy collision, run when the player or the enemies change. The refs holding
    the two generation frontiers are fields that the generation loops update in place. */
module GameLoop {
  import opened World
  import PlayerMotion
  import Patrol
  import Coins
  import Combat
  import opened Generation

  /** The player stands at the spawn x (0) or inside [MIN_X, MAX_X], and always between
      ceiling and floor. Only the spawn point lies left of MIN_X: a step clamps x, and a
      knockback happens next to an enemy, far right of MIN_X. */
  predicate PlayerOk(p: Player) {
    && (p.x == 0.0 || MIN_X <= p.x)
    && p.x <= MAX_X
    && CEILING_Y <= p.y <= GROUND_Y
  }

  /** No enemy spawns left of the first enemy frontier plus the least gap (200). */
  const LEFTMOST_SPAWN: real := INITIAL_ENEMY_FRONTIER + 200.0

  /** The score is COIN_VALUE per collected coin, and the coins ascend up to their
      frontier, which never falls below its starting value. */
  predicate CoinsOk(cs: seq<Coin>, score: int, frontier: real) {
    && score == 10 * Coins.CountCollected(cs)
    && CoinsAscending(cs, frontier)
    && INITIAL_COIN_FRONTIER <= frontier
  }

  /** Every enemy is well-formed and inside its patrol range, no spawn point lies left of
      LEFTMOST_SPAWN, and the spawn points ascend up to their frontier, which never falls
      below its starting value. */
  predicate EnemiesOk(es: seq<Enemy>, frontier: real) {
    && Patrol.AllWellFormed(es)
    && (forall i :: 0 <= i < |es| ==> LEFTMOST_SPAWN <= es[i].originalX)
    && EnemiesAscending(es, frontier)
    && INITIAL_ENEMY_FRONTIER <= frontier
  }

  /** A coin batch keeps the coin invariant, with the frontier moved right. */
  lemma AppendKeepsCoinsOk(cs: seq<Coin>, score: int, start: real, n: nat, rnd: seq<real>)
    requires 2 * n <= |rnd| && AllUnits(rnd)
    requires CoinsOk(cs, score, start)
    ensures CoinsOk(cs + CoinBatch(start, n, rnd), score, CoinFrontier(start, n, rnd))
    ensures start <= CoinFrontier(start, n, rnd)
  {
    var b := CoinBatch(start, n, rnd);
    CoinBatchShape(start, n, rnd);
    Coins.NoneCollected(b);
    Coins.CountCollectedAppend(cs, b);
    AppendCoins(cs, start, n, rnd);
  }

  /** An enemy batch keeps the enemy invariant, with the frontier moved right. */
  lemma AppendKeepsEnemiesOk(es: seq<Enemy>, start: real, n: nat, rnd: seq<real>)
    requires 3 * n <= |rnd| && AllUnits(rnd)
    requires EnemiesOk(es, start)
    ensures EnemiesOk(es + EnemyBatch(start, n, rnd), EnemyFrontier(start, n, rnd))
    ensures start <= EnemyFrontier(start, n, rnd)
  {
    var b := EnemyBatch(start, n, rnd);
    var c := es + b;
    AppendEnemiesAscend(es, start, n, rnd);
    AppendEnemiesWellFormed(es, start, n, rnd);
    EnemyBatchAscends(start, n, rnd);
    forall i | 0 <= i < |c|
      ensures LEFTMOST_SPAWN <= c[i].originalX
    {
      if i < |es| {
        assert c[i] == es[i];
      } else {
        assert c[i] == b[i - |es|];
      }
    }
  }

  /** Patrolling keeps the enemy invariant: spawn points, and so their order, do not move. */
  lemma PatrolKeepsEnemiesOk(es: seq<Enemy>, frontier: real)
    requires EnemiesOk(es, frontier)
    ensures EnemiesOk(Patrol.PatrolAll(es), frontier)
  {
    var r := Patrol.PatrolAll(es);
    forall i | 0 <= i < |es|
      ensures r[i].originalX == es[i].originalX
    {
      assert r[i] == Patrol.PatrolStep(es[i]);
    }
  }

  /** In a state the game can reach, a knockback lands the player right of 350: the enemy
      hit patrols within 150 of a spawn point at or right of 600, and touches the player
      within 40, so the player stood right of 410 before moving back 60. */
  lemma KnockbackLandsRight(p: Player, es: seq<Enemy>, v: Combat.Vitals, frontier: real)
    requires EnemiesOk(es, frontier)
    requires Combat.AnyHit(p, es)
    ensures Combat.Resolve(p, es, v).player.x > 350.0
  {
    var i :| 0 <= i < |es| && Combat.Touches(p, es[i]);
    assert Patrol.WellFormed(es[i]) && LEFTMOST_SPAWN <= es[i].originalX;
  }

  /** A pickup keeps the coin invariant: positions stay, the score follows the count. */
  lemma PickUpKeepsCoinsOk(p: Player, cs: seq<Coin>, score: int, frontier: real)
    requires CoinsOk(cs, score, frontier)
    ensures CoinsOk(Coins.Collect(p, cs, score).coins, Coins.Collect(p, cs, score).score, frontier)
  {
    var r := Coins.Collect(p, cs, score);
    Coins.ScoreTracksCoins(p, cs, score);
    forall i | 0 <= i < |cs|
      ensures r.coins[i].x == cs[i].x
    {
      assert Coins.SameCoin(r.coins[i], cs[i]);
    }
  }

  class Game {
    var player: Player
    var isJumping: bool
    var collectibles: seq<Coin>
    var enemies: seq<Enemy>
    var health: int
    var gameOver: bool
    var score: int
    /** The coin frontier (the `lastCollectibleX` ref). */
    var lastCollectibleX: real
    /** The enemy frontier (the `lastEnemyX` ref). */
    var lastEnemyX: real

    /** The invariant every step keeps: health in [0, 3] with game over exactly at 0;
        the player at the spawn x or inside [MIN_X, MAX_X], and between ceiling and
        floor; the score is COIN_VALUE per collected coin; coins and enemy spawn points
        ascend up to their frontiers, which never fall below their starting values; no
        spawn point lies left of LEFTMOST_SPAWN; every enemy is well-formed and inside
        its patrol range. */
    ghost predicate Valid()
      reads this
    {
      && Combat.Consistent(Combat.Vitals(health, gameOver))
      && PlayerOk(player)
      && CoinsOk(collectibles, score, lastCollectibleX)
      && EnemiesOk(enemies, lastEnemyX)
    }

    /** The initial state the component's hooks start from, before the mount effect. */
    constructor ()
      ensures Valid()
      ensures player == Player(0.0, GROUND_Y, 0.0) && !isJumping
      ensures health == Combat.MAX_HEALTH && !gameOver && score == 0
      ensures collectibles == [] && lastCollectibleX == INITIAL_COIN_FRONTIER
      ensures enemies == [] && lastEnemyX == INITIAL_ENEMY_FRONTIER
    {
      player := Player(0.0, GROUND_Y, 0.0);
      isJumping := false;
      collectibles := [];
      enemies := [];
      health := Combat.MAX_HEALTH;
      gameOver := false;
      score := 0;
      lastCollectibleX := INITIAL_COIN_FRONTIER;
      lastEnemyX := INITIAL_ENEMY_FRONTIER;
      new;
      assert PlayerOk(player) && CoinsOk([], 0, INITIAL_COIN_FRONTIER) && EnemiesOk([], INITIAL_ENEMY_FRONTIER);
    }

    /** The mount effect: an initial batch of INITIAL_COINS coins and one of
        INITIAL_ENEMIES enemies. */
    method Mount(coinRnd: seq<real>, enemyRnd: seq<real>)
      requires Valid()
      requires 2 * INITIAL_COINS <= |coinRnd| && AllUnits(coinRnd)
      requires 3 * INITIAL_ENEMIES <= |enemyRnd| && AllUnits(enemyRnd)
      modifies this
      ensures Valid()
      ensures player == old(player) && isJumping == old(isJumping)
      ensures health == old(health) && gameOver == old(gameOver) && score == old(score)
      ensures collectibles == old(collectibles) + CoinBatch(old(lastCollectibleX), INITIAL_COINS, coinRnd)
      ensures lastCollectibleX == CoinFrontier(old(lastCollectibleX), INITIAL_COINS, coinRnd)
      ensures enemies == old(enemies) + EnemyBatch(old(lastEnemyX), INITIAL_ENEMIES, enemyRnd)
      ensures lastEnemyX == EnemyFrontier(old(lastEnemyX), INITIAL_ENEMIES, enemyRnd)
    {
      GenerateCollectibles(INITIAL_COINS, coinRnd);
      GenerateEnemies(INITIAL_ENEMIES, enemyRnd);
    }

    /** Push `count` coins, each a random gap past the frontier, which it moves along;
        then append them to the coin list. */
    method GenerateCollectibles(count: nat, rnd: seq<real>)
      requires Valid()
      requires 2 * count <= |rnd| && AllUnits(rnd)
      modifies this
      ensures Valid()
      ensures collectibles == old(collectibles) + CoinBatch(old(lastCollectibleX), count, rnd)
      ensures lastCollectibleX == CoinFrontier(old(lastCollectibleX), count, rnd)
      ensures old(lastCollectibleX) <= lastCollectibleX
      ensures player == old(player) && isJumping == old(isJumping) && enemies == old(enemies)
      ensures health == old(health) && gameOver == old(gameOver) && score == old(score)
      ensures lastEnemyX == old(lastEnemyX)
    {
      ghost var start := lastCollectibleX;
      var batch: seq<Coin> := [];
      var i := 0;
      while i < count
        modifies this`lastCollectibleX
        invariant 0 <= i <= count
        invariant lastCollectibleX == CoinFrontier(start, i, rnd)
        invariant batch == CoinBatch(start, i, rnd)
      {
        lastCollectibleX := lastCollectibleX + rnd[2 * i] * 200.0 + 100.0;
        batch := batch + [NewCoin(i, lastCollectibleX, rnd[2 * i + 1])];
        i := i + 1;
      }
      AppendKeepsCoinsOk(collectibles, score, start, count, rnd);
      collectibles := collectibles + batch;
    }

    /** Push `count` enemies, each a random gap past the frontier, which it moves along;
        then append them to the enemy list. */
    method GenerateEnemies(count: nat, rnd: seq<real>)
      requires Valid()
      requires 3 * count <= |rnd| && AllUnits(rnd)
      modifies this
      ensures Valid()
      ensures enemies == old(enemies) + EnemyBatch(old(lastEnemyX), count, rnd)
      ensures lastEnemyX == EnemyFrontier(old(lastEnemyX), count, rnd)
      ensures old(lastEnemyX) <= lastEnemyX
      ensures player == old(player) && isJumping == old(isJumping) && collectibles == old(collectibles)
      ensures health == old(health) && gameOver == old(gameOver) && score == old(score)
      ensures lastCollectibleX == old(lastCollectibleX)
    {
      ghost var start := lastEnemyX;
      var batch: seq<Enemy> := [];
      var i := 0;
      while i < count
        modifies this`lastEnemyX
        invariant 0 <= i <= count
        invariant lastEnemyX == EnemyFrontier(start, i, rnd)
        invariant batch == EnemyBatch(start, i, rnd)
      {
        lastEnemyX := lastEnemyX + rnd[3 * i] * 300.0 + 200.0;
        batch := batch + [NewEnemy(i, lastEnemyX, rnd[3 * i + 1], rnd[3 * i + 2])];
        i := i + 1;
      }
      AppendKeepsEnemiesOk(enemies, start, count, rnd);
      enemies := enemies + batch;
    }

    /** One frame of the game loop, unless the game is over: the player updater, the
        patrol of the existing enemies, then generation for each frontier the player
        (as the loop saw it, before this frame's update) is within LOOKAHEAD of. */
    method Tick(keys: Keys, coinRnd: seq<real>, enemyRnd: seq<real>)
      requires Valid()
      requires 2 * MORE_COINS <= |coinRnd| && AllUnits(coinRnd)
      requires 3 * MORE_ENEMIES <= |enemyRnd| && AllUnits(enemyRnd)
      modifies this
      ensures Valid()
      ensures old(gameOver) ==> unchanged(this)
      ensures !old(gameOver) ==>
        && PlayerMotion.Motion(player, isJumping) == PlayerMotion.Step(old(player), keys, old(isJumping))
        && health == old(health) && gameOver == old(gameOver) && score == old(score)
      ensures !old(gameOver) ==>
        if ShouldGenerate(old(player).x, old(lastCollectibleX)) then
          && collectibles == old(collectibles) + CoinBatch(old(lastCollectibleX), MORE_COINS, coinRnd)
          && lastCollectibleX == CoinFrontier(old(lastCollectibleX), MORE_COINS, coinRnd)
        else
          collectibles == old(collectibles) && lastCollectibleX == old(lastCollectibleX)
      ensures !old(gameOver) ==>
        if ShouldGenerate(old(player).x, old(lastEnemyX)) then
          && enemies == Patrol.PatrolAll(old(enemies)) + EnemyBatch(old(lastEnemyX), MORE_ENEMIES, enemyRnd)
          && lastEnemyX == EnemyFrontier(old(lastEnemyX), MORE_ENEMIES, enemyRnd)
        else
          enemies == Patrol.PatrolAll(old(enemies)) && lastEnemyX == old(lastEnemyX)
    {
      if gameOver {
        return;
      }
      var seen := player;
      player, isJumping := PlayerMotion.StepPlayer(player, keys, isJumping);
      PatrolKeepsEnemiesOk(enemies, lastEnemyX);
      enemies := Patrol.PatrolAll(enemies);
      GenerateAhead(seen.x, coinRnd, enemyRnd);
    }

    /** The generation step of the frame: a batch of MORE_COINS coins, and one of
        MORE_ENEMIES enemies, for each frontier the given player x is within LOOKAHEAD
        of. */
    method GenerateAhead(playerX: real, coinRnd: seq<real>, enemyRnd: seq<real>)
      requires Valid()
      requires 2 * MORE_COINS <= |coinRnd| && AllUnits(coinRnd)
      requires 3 * MORE_ENEMIES <= |enemyRnd| && AllUnits(enemyRnd)
      modifies this
      ensures Valid()
      ensures player == old(player) && isJumping == old(isJumping)
      ensures health == old(health) && gameOver == old(gameOver) && score == old(score)
      ensures if ShouldGenerate(playerX, old(lastCollectibleX)) then
                && collectibles == old(collectibles) + CoinBatch(old(lastCollectibleX), MORE_COINS, coinRnd)
                && lastCollectibleX == CoinFrontier(old(lastCollectibleX), MORE_COINS, coinRnd)
              else
                collectibles == old(collectibles) && lastCollectibleX == old(lastCollectibleX)
      ensures if ShouldGenerate(playerX, old(lastEnemyX)) then
                && enemies == old(enemies) + EnemyBatch(old(lastEnemyX), MORE_ENEMIES, enemyRnd)
                && lastEnemyX == EnemyFrontier(old(lastEnemyX), MORE_ENEMIES, enemyRnd)
              else
                enemies == old(enemies) && lastEnemyX == old(lastEnemyX)
    {
      if ShouldGenerate(playerX, lastCollectibleX) {
        GenerateCollectibles(MORE_COINS, coinRnd);
      }
      if ShouldGenerate(playerX, lastEnemyX) {
        GenerateEnemies(MORE_ENEMIES, enemyRnd);
      }
    }

    /** The coin-pickup effect: collect every uncollected coin in reach of the player. */
    method PickUpCoins()
      requires Valid()
      modifies this
      ensures Valid()
      ensures Coins.Pickup(collectibles, score) == Coins.Collect(old(player), old(collectibles), old(score))
      ensures player == old(player) && isJumping == old(isJumping) && enemies == old(enemies)
      ensures health == old(health) && gameOver == old(gameOver)
      ensures lastCollectibleX == old(lastCollectibleX) && lastEnemyX == old(lastEnemyX)
    {
      var r := Coins.Collect(player, collectibles, score);
      PickUpKeepsCoinsOk(player, collectibles, score, lastCollectibleX);
      collectibles, score := r.coins, r.score;
    }

    /** The enemy-collision effect: one Damage and one knockback when any enemy touches
        the player. */
    method CheckEnemyCollision()
      requires Valid()
      modifies this
      ensures Valid()
      ensures Combat.Outcome(player, Combat.Vitals(health, gameOver))
           == Combat.Resolve(old(player), old(enemies), Combat.Vitals(old(health), old(gameOver)))
      ensures isJumping == old(isJumping) && collectibles == old(collectibles) && enemies == old(enemies)
      ensures score == old(score)
      ensures lastCollectibleX == old(lastCollectibleX) && lastEnemyX == old(lastEnemyX)
    {
      var r := Combat.Resolve(player, enemies, Combat.Vitals(health, gameOver));
      if Combat.AnyHit(player, enemies) {
        KnockbackLandsRight(player, enemies, Combat.Vitals(health, gameOver), lastEnemyX);
      }
      player, health, gameOver := r.player, r.vitals.health, r.vitals.gameOver;
    }
  }
}
