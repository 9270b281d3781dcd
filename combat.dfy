/** Enemy collision, run whenever the player or the enemies change: if any enemy is
    within reach on both axes, the player loses one life (or the game ends) and is
    knocked back. */
module Combat {
  import opened World

  const HIT_REACH: real := 40.0
  const KNOCKBACK: real := 60.0
  const MAX_HEALTH: int := 3

  predicate Touches(p: Player, e: Enemy) {
    Abs(p.x - e.x) < HIT_REACH && Abs(p.y - e.y) < HIT_REACH
  }

  /** Whether some enemy of the list touches the player (the `some` scan, front to back). */
  function AnyHit(p: Player, es: seq<Enemy>): (hit: bool)
    ensures hit <==> exists i :: 0 <= i < |es| && Touches(p, es[i])
    decreases |es|
  {
    if es == [] then false
    else if Touches(p, es[0]) then true
    else
      assert forall i :: 1 <= i < |es| ==> es[i] == es[1..][i - 1];
      AnyHit(p, es[1..])
  }

  /** Health and the game-over flag. */
  datatype Vitals = Vitals(health: int, gameOver: bool)

  /** The invariant of the session: health in [0, MAX_HEALTH], game over exactly at zero. */
  predicate Consistent(v: Vitals) {
    0 <= v.health <= MAX_HEALTH && (v.gameOver <==> v.health == 0)
  }

  function ClampAtZero(h: int): (r: int)
    ensures r >= 0 && r >= h && (r == 0 || r == h)
  {
    if h < 0 then 0 else h
  }

  /** The health updater: one life less, or, from one life or fewer, zero and game over. */
  function Damage(v: Vitals): (r: Vitals)
    ensures r.health == ClampAtZero(v.health - 1)
    ensures r.gameOver <==> v.gameOver || v.health <= 1
    ensures r.health == 0 ==> r.gameOver
    ensures Consistent(v) ==> Consistent(r)
  {
    if v.health > 1 then v.(health := v.health - 1) else Vitals(0, true)
  }

  /** The player and the vitals after one evaluation of the collision check. */
  datatype Outcome = Outcome(player: Player, vitals: Vitals)

  /** One evaluation: a hit by any number of enemies costs exactly one Damage and one
      knockback (back KNOCKBACK units, upward velocity JUMP_FORCE / 2, height kept). */
  function Resolve(p: Player, es: seq<Enemy>, v: Vitals): (r: Outcome)
    ensures (exists i :: 0 <= i < |es| && Touches(p, es[i])) ==>
              r == Outcome(Player(p.x - KNOCKBACK, p.y, -JUMP_FORCE / 2.0), Damage(v))
    ensures (forall i :: 0 <= i < |es| ==> !Touches(p, es[i])) ==> r == Outcome(p, v)
    ensures r.vitals.health >= v.health - 1
    ensures r.player.y == p.y && r.player.x <= p.x
    ensures Consistent(v) ==> Consistent(r.vitals)
  {
    if AnyHit(p, es) then Outcome(p.(x := p.x - KNOCKBACK, vy := -JUMP_FORCE / 2.0), Damage(v))
    else Outcome(p, v)
  }

  /** n hits in a row. */
  function Damaged(v: Vitals, n: nat): Vitals
    decreases n
  {
    if n == 0 then v else Damaged(Damage(v), n - 1)
  }

  /** From a consistent session, n hits leave max(0, health - n) lives, and the game is
      over exactly when they ran out. */
  lemma {:induction false} HitsInARow(v: Vitals, n: nat)
    requires Consistent(v)
    decreases n
    ensures Damaged(v, n).health == ClampAtZero(v.health - n)
    ensures Consistent(Damaged(v, n))
  {
    if n > 0 {
      HitsInARow(Damage(v), n - 1);
    }
  }

  /** Three hits take a fresh session from 3 to 2 to 1 to 0, ending it on the third. */
  lemma ThreeHits()
    ensures Damaged(Vitals(MAX_HEALTH, false), 1) == Vitals(2, false)
    ensures Damaged(Vitals(MAX_HEALTH, false), 2) == Vitals(1, false)
    ensures Damaged(Vitals(MAX_HEALTH, false), 3) == Vitals(0, true)
  {
  }

  /** Knockback can leave the player touching the enemy it hit (an enemy between
      KNOCKBACK - HIT_REACH and HIT_REACH behind the player), so the next evaluation,
      fired by the knockback itself, takes another life: there is no invulnerability
      window. The enemy is one a batch can spawn (past the first enemy frontier, 400 + 200). */
  lemma KnockbackCanStillTouch()
    ensures var p := Player(730.0, GROUND_Y, 0.0);
            var e := Enemy(700.0, 700.0, GROUND_Y, 1, 50.0, 700.0);
            Touches(p, e) && Touches(Resolve(p, [e], Vitals(3, false)).player, e)
            && Resolve(Resolve(p, [e], Vitals(3, false)).player, [e], Vitals(2, false)).vitals == Vitals(1, false)
  {
    var p := Player(730.0, GROUND_Y, 0.0);
    var e := Enemy(700.0, 700.0, GROUND_Y, 1, 50.0, 700.0);
    assert Touches(p, e);
    assert Touches(Player(670.0, GROUND_Y, -7.5), e);
  }

  /** The knockback rule has no clamp: applied next to an enemy at 30 it would push the
      player left of MIN_X. No reachable state has such an enemy (GameLoop's
      KnockbackLandsRight), so the rule itself is all this shows. */
  lemma KnockbackPastLeftBound()
    ensures var p := Player(MIN_X, GROUND_Y, 0.0);
            Resolve(p, [Enemy(0.0, 30.0, GROUND_Y, 1, 50.0, 30.0)], Vitals(3, false)).player.x < MIN_X
  {
    assert Touches(Player(MIN_X, GROUND_Y, 0.0), Enemy(0.0, 30.0, GROUND_Y, 1, 50.0, 30.0));
  }
}
