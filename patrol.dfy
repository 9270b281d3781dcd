/** The enemy patrol of the game loop: every enemy walks ENEMY_SPEED per frame in its
    direction and turns around, without moving, when the next position would leave its
    patrol range around its spawn point. */
module Patrol {
  import opened World

  /** Where the enemy would be after walking one frame (ENEMY_SPEED = 1.5) in its direction. */
  function Candidate(e: Enemy): real {
    e.x + (e.dir as real) * 1.5
  }

  predicate InPatrol(e: Enemy) {
    Abs(e.x - e.originalX) <= e.patrolRange
  }

  /** An enemy as generation spawns it and as patrolling keeps it. */
  predicate WellFormed(e: Enemy) {
    && (e.dir == 1 || e.dir == -1)
    && 50.0 <= e.patrolRange < 150.0
    && e.y == GROUND_Y
    && InPatrol(e)
  }

  predicate AllWellFormed(es: seq<Enemy>) {
    forall i :: 0 <= i < |es| ==> WellFormed(es[i])
  }

  /** One frame of patrol for one enemy. */
  function PatrolStep(e: Enemy): (r: Enemy)
    // only the position and the direction can change
    ensures r.id == e.id && r.y == e.y && r.patrolRange == e.patrolRange && r.originalX == e.originalX
    // it turns around in place exactly when the step would leave the range; otherwise it walks
    ensures Abs(Candidate(e) - e.originalX) > e.patrolRange ==> r.x == e.x && r.dir == -e.dir
    ensures Abs(Candidate(e) - e.originalX) <= e.patrolRange ==> r.x == Candidate(e) && r.dir == e.dir
    // so it never overshoots its range
    ensures InPatrol(e) ==> InPatrol(r)
    ensures WellFormed(e) ==> WellFormed(r)
  {
    var next := Candidate(e);
    if Abs(next - e.originalX) > e.patrolRange then e.(dir := -e.dir) else e.(x := next)
  }

  /** One frame of patrol for the whole list, in order. */
  function PatrolAll(es: seq<Enemy>): (r: seq<Enemy>)
    ensures |r| == |es|
    ensures forall i :: 0 <= i < |es| ==> r[i] == PatrolStep(es[i])
    ensures AllWellFormed(es) ==> AllWellFormed(r)
  {
    if es == [] then [] else [PatrolStep(es[0])] + PatrolAll(es[1..])
  }

  /** A well-formed enemy that turns around walks away from the edge on the next frame:
      it never turns twice in a row. */
  lemma TurnThenWalk(e: Enemy)
    requires WellFormed(e)
    requires PatrolStep(e).dir != e.dir
    ensures PatrolStep(PatrolStep(e)).dir == -e.dir
    ensures PatrolStep(PatrolStep(e)).x == e.x - (e.dir as real) * 1.5
  {
    var t := PatrolStep(e);
    assert t.x == e.x && t.dir == -e.dir;
    if e.dir == 1 {
      assert e.x + ENEMY_SPEED - e.originalX > e.patrolRange;
    } else {
      assert e.originalX - (e.x - ENEMY_SPEED) > e.patrolRange;
    }
  }

  /** n frames of patrol for one enemy. */
  function Patrolled(e: Enemy, n: nat): Enemy
    decreases n
  {
    if n == 0 then e else Patrolled(PatrolStep(e), n - 1)
  }

  /** However long it patrols, a spawned enemy stays well-formed and inside its range,
      and keeps its id, height, range and spawn point. */
  lemma {:induction false} PatrolForever(e: Enemy, n: nat)
    requires WellFormed(e)
    decreases n
    ensures WellFormed(Patrolled(e, n))
    ensures Patrolled(e, n).id == e.id && Patrolled(e, n).originalX == e.originalX
    ensures Patrolled(e, n).patrolRange == e.patrolRange
  {
    if n > 0 {
      PatrolForever(PatrolStep(e), n - 1);
    }
  }
}
