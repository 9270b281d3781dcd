/** The constants and the records the game loop of the platformer works on.
    Coordinates are Dafny reals: every constant of the game is a multiple of 0.5.
    Where a constant multiplies a variable, the model writes its value as a literal,
    which keeps the arithmetic linear for the solver. */
module World {

  const GRAVITY: real := 0.5
  const JUMP_FORCE: real := 15.0
  const FLOOR_Y: real := 350.0
  const CEILING_Y: real := 50.0
  const WORLD_WIDTH: real := 10000.0
  const PLAYER_SPEED: real := 5.0
  const ENEMY_SPEED: real := 1.5

  /** Horizontal bounds the player step clamps x to. */
  const MIN_X: real := 25.0
  const MAX_X: real := WORLD_WIDTH - 75.0
  /** The height the player stands at on the floor, and the height enemies walk at. */
  const GROUND_Y: real := FLOOR_Y - 50.0

  /** The player's position and vertical velocity (y grows downwards). */
  datatype Player = Player(x: real, y: real, vy: real)

  /** The keys the loop reads from the key map; a key never pressed reads as false. */
  datatype Keys = Keys(arrowLeft: bool, arrowRight: bool, arrowUp: bool, space: bool)

  /** A coin; only `collected` ever changes after it is spawned. */
  datatype Coin = Coin(id: real, x: real, y: real, collected: bool)

  /** A patrolling enemy; `dir` is 1 or -1. */
  datatype Enemy = Enemy(id: real, x: real, y: real, dir: int, patrolRange: real, originalX: real)

  function Abs(r: real): (a: real)
    ensures a >= 0.0 && (a == r || a == -r)
  {
    if r < 0.0 then -r else r
  }

  function Max(a: real, b: real): (m: real)
    ensures m >= a && m >= b && (m == a || m == b)
  {
    if a >= b then a else b
  }

  function Min(a: real, b: real): (m: real)
    ensures m <= a && m <= b && (m == a || m == b)
  {
    if a <= b then a else b
  }

  /** A value Math.random() can return. */
  predicate Unit(r: real) {
    0.0 <= r < 1.0
  }

  predicate AllUnits(rnd: seq<real>) {
    forall i :: 0 <= i < |rnd| ==> Unit(rnd[i])
  }
}
