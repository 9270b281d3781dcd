/** The player updater the game loop runs once per animation frame: horizontal input
    with clamping, the jump impulse, gravity, and the floor and ceiling. */
module PlayerMotion {
  import opened World

  /** What the updater produces: the new player and the new airborne (`isJumping`) flag. */
  datatype Motion = Motion(player: Player, jumping: bool)

  predicate JumpPressed(k: Keys) {
    k.space || k.arrowUp
  }

  /** The horizontal displacement the held arrow keys ask for. */
  function Drift(k: Keys): (d: real)
    ensures d == 0.0 || d == PLAYER_SPEED || d == -PLAYER_SPEED
    ensures d == 0.0 <==> k.arrowRight == k.arrowLeft
  {
    (if k.arrowRight then PLAYER_SPEED else 0.0) - (if k.arrowLeft then PLAYER_SPEED else 0.0)
  }

  /** Whether this frame takes a jump: a jump key held while not airborne. */
  predicate TakesJump(k: Keys, jumping: bool) {
    JumpPressed(k) && !jumping
  }

  /** The vertical velocity the frame integrates y with: the jump impulse, if taken,
      replaces the old velocity, then gravity is added. */
  function NewVy(p: Player, k: Keys, jumping: bool): real {
    (if TakesJump(k, jumping) then -JUMP_FORCE else p.vy) + GRAVITY
  }

  /** One frame of player motion. A jump is taken when a jump key is held and the player
      is not airborne; the flag is set by the jump and cleared by floor contact, and the
      clearing wins when both happen in one frame. */
  function Step(p: Player, k: Keys, jumping: bool): (m: Motion)
    // x lies in the world bounds: the requested position, or the bound it crossed
    ensures MIN_X <= m.player.x <= MAX_X
    ensures MIN_X <= p.x + Drift(k) <= MAX_X ==> m.player.x == p.x + Drift(k)
    ensures p.x + Drift(k) < MIN_X ==> m.player.x == MIN_X
    ensures p.x + Drift(k) > MAX_X ==> m.player.x == MAX_X
    // y lies between ceiling and floor; touching either stops vertical motion,
    // and standing on the floor means not airborne
    ensures CEILING_Y <= m.player.y <= GROUND_Y
    ensures m.player.y == GROUND_Y ==> m.player.vy == 0.0 && !m.jumping
    ensures m.player.y == CEILING_Y ==> m.player.vy == 0.0
    // reaching or passing the floor lands the player there, still and not airborne;
    // reaching the ceiling stops the player there, the airborne flag set by a jump or kept
    ensures m.player.y == GROUND_Y <==> p.y + NewVy(p, k, jumping) >= GROUND_Y
    ensures p.y + NewVy(p, k, jumping) >= GROUND_Y ==> m == Motion(Player(m.player.x, GROUND_Y, 0.0), false)
    ensures p.y + NewVy(p, k, jumping) <= CEILING_Y ==>
              m == Motion(Player(m.player.x, CEILING_Y, 0.0), jumping || TakesJump(k, jumping))
    // a jump taken yields -JUMP_FORCE + GRAVITY unless a clamp zeroes the velocity
    ensures TakesJump(k, jumping) ==> m.player.vy == -JUMP_FORCE + GRAVITY || m.player.vy == 0.0
    ensures TakesJump(k, jumping) && CEILING_Y < p.y - JUMP_FORCE + GRAVITY < GROUND_Y ==>
              m == Motion(Player(m.player.x, p.y - JUMP_FORCE + GRAVITY, -JUMP_FORCE + GRAVITY), true)
    // with no jump taken and no clamp, the velocity rises by exactly GRAVITY
    ensures !TakesJump(k, jumping) && CEILING_Y < p.y + p.vy + GRAVITY < GROUND_Y ==>
              m == Motion(Player(m.player.x, p.y + p.vy + GRAVITY, p.vy + GRAVITY), jumping)
    // the airborne flag is only ever raised by a jump
    ensures m.jumping ==> jumping || JumpPressed(k)
  {
    var x := Max(MIN_X, Min(MAX_X, p.x + Drift(k)));
    var jump := TakesJump(k, jumping);
    var vy := NewVy(p, k, jumping);
    var y := p.y + vy;
    if y >= GROUND_Y then Motion(Player(x, GROUND_Y, 0.0), false)
    else if y <= CEILING_Y then Motion(Player(x, CEILING_Y, 0.0), jumping || jump)
    else Motion(Player(x, y, vy), jumping || jump)
  }

  /** The updater as the game loop writes it: local copies of x, y and vy rewritten
      by sequential assignments. */
  method StepPlayer(p: Player, k: Keys, jumping: bool) returns (q: Player, airborne: bool)
    ensures Motion(q, airborne) == Step(p, k, jumping)
  {
    var x, y, vy := p.x, p.y, p.vy;
    airborne := jumping;
    if k.arrowRight { x := x + PLAYER_SPEED; }
    if k.arrowLeft { x := x - PLAYER_SPEED; }
    x := Max(MIN_X, Min(MAX_X, x));
    if (k.space || k.arrowUp) && !jumping {
      vy := -JUMP_FORCE;
      airborne := true;
    }
    vy := vy + GRAVITY;
    y := y + vy;
    if y >= GROUND_Y {
      y := GROUND_Y;
      vy := 0.0;
      airborne := false;
    } else if y <= CEILING_Y {
      y := CEILING_Y;
      vy := 0.0;
    }
    q := Player(x, y, vy);
  }

  /** n frames with the same keys held. */
  function Run(m: Motion, k: Keys, n: nat): Motion
    decreases n
  {
    if n == 0 then m else Run(Step(m.player, k, m.jumping), k, n - 1)
  }

  const RIGHT_ONLY: Keys := Keys(false, true, false, false)

  /** Holding only ArrowRight while standing on the floor walks PLAYER_SPEED (5) per frame and
      keeps the player on the floor, as long as the walk stays inside the world. */
  lemma {:induction false} WalkRight(x: real, n: nat)
    requires MIN_X <= x + PLAYER_SPEED
    requires x + 5.0 * (n as real) <= MAX_X
    decreases n
    ensures Run(Motion(Player(x, GROUND_Y, 0.0), false), RIGHT_ONLY, n)
         == Motion(Player(x + 5.0 * (n as real), GROUND_Y, 0.0), false)
  {
    if n > 0 {
      assert Step(Player(x, GROUND_Y, 0.0), RIGHT_ONLY, false)
          == Motion(Player(x + PLAYER_SPEED, GROUND_Y, 0.0), false);
      WalkRight(x + PLAYER_SPEED, n - 1);
    }
  }

  /** From the spawn point (0, FLOOR_Y - 50), 100 frames of the player updater alone
      with ArrowRight end at x = 520, with no enemy contact on the way: the first frame's
      clamp lifts x from 5 to 25. */
  lemma WalkFromSpawn()
    ensures Run(Motion(Player(0.0, GROUND_Y, 0.0), false), RIGHT_ONLY, 100)
         == Motion(Player(520.0, GROUND_Y, 0.0), false)
  {
    assert Step(Player(0.0, GROUND_Y, 0.0), RIGHT_ONLY, false)
        == Motion(Player(MIN_X, GROUND_Y, 0.0), false);
    WalkRight(MIN_X, 99);
  }
}
