/** The runner's per-frame movement: a jump starts on the up key from the
    ground, the down key held on the ground ducks, and while airborne the
    runner falls under the difficulty's gravity until it lands on the
    ground line. */
module Runners {
  import opened Config
  import opened Entities

  /** The two keys the frame update reads. */
  datatype Keys = Keys(jump: bool, duck: bool)

  /** The runner's standing and ducking heights over a ground line. */
  function GroundY(groundLevel: real): real
  {
    groundLevel - RunnerHeight
  }

  function DuckY(groundLevel: real): real
  {
    groundLevel - DuckHeight
  }

  /** The runner never jumps and ducks at once, and is at rest unless
      jumping. */
  predicate Stance(r: Runner)
  {
    !(r.isJumping && r.isDucking) && (!r.isJumping ==> r.velocityY == 0.0)
  }

  /** A consistent runner over the given ground line: on the ground it sits
      at its standing or ducking height, in the air it is above the
      standing height. */
  predicate Placed(r: Runner, groundLevel: real)
  {
    && Stance(r)
    && (!r.isJumping ==> r.y == (if r.isDucking then DuckY(groundLevel) else GroundY(groundLevel)))
    && (r.isJumping ==> r.y < GroundY(groundLevel))
  }

  /** One frame of runner movement. */
  function RunnerStep(r: Runner, keys: Keys, groundLevel: real, jumpForce: real, gravity: real): (res: Runner)
    ensures res.x == r.x
    ensures Stance(r) ==> Placed(res, groundLevel)
    ensures res.isJumping && !r.isJumping ==> keys.jump && !r.isDucking
    ensures keys.jump && !r.isJumping && !r.isDucking && r.y <= GroundY(groundLevel) && jumpForce + gravity < 0.0 ==>
      res.isJumping && res.velocityY == jumpForce + gravity && res.y == r.y + jumpForce + gravity
    ensures !r.isJumping && !(keys.jump && !r.isDucking) ==>
      && !res.isJumping && res.isDucking == keys.duck
      && res.y == (if keys.duck then DuckY(groundLevel) else GroundY(groundLevel))
    ensures r.isJumping && r.y + r.velocityY + gravity >= GroundY(groundLevel) ==>
      !res.isJumping && res.y == GroundY(groundLevel) && res.velocityY == 0.0
    ensures r.isJumping && r.y + r.velocityY + gravity < GroundY(groundLevel) ==>
      res.isJumping && res.velocityY == r.velocityY + gravity && res.y == r.y + res.velocityY
  {
    var groundY := GroundY(groundLevel);
    var launched := if keys.jump && !r.isJumping && !r.isDucking then r.(isJumping := true, velocityY := jumpForce) else r;
    var stanced :=
      if launched.isJumping then launched
      else if keys.duck then launched.(isDucking := true, y := DuckY(groundLevel))
      else launched.(isDucking := false, y := groundY);
    if stanced.isJumping then
      var v := stanced.velocityY + gravity;
      if stanced.y + v >= groundY then stanced.(y := groundY, isJumping := false, velocityY := 0.0)
      else stanced.(velocityY := v, y := stanced.y + v)
    else stanced
  }

  /** Mid-air the keys have no effect: neither a second jump nor a duck. */
  lemma AirborneIgnoresKeys(r: Runner, keys: Keys, other: Keys, groundLevel: real, jumpForce: real, gravity: real)
    requires r.isJumping
    ensures RunnerStep(r, keys, groundLevel, jumpForce, gravity) == RunnerStep(r, other, groundLevel, jumpForce, gravity)
  {
  }

  /** The runner update, mutating a working copy field by field. */
  method MoveRunner(runner: Runner, keys: Keys, groundLevel: real, jumpForce: real, gravity: real) returns (newRunner: Runner)
    ensures newRunner == RunnerStep(runner, keys, groundLevel, jumpForce, gravity)
  {
    newRunner := runner;
    var groundY := groundLevel - RunnerHeight;
    var duckY := groundLevel - DuckHeight;

    if keys.jump && !newRunner.isJumping && !newRunner.isDucking {
      newRunner := newRunner.(isJumping := true);
      newRunner := newRunner.(velocityY := jumpForce);
    }

    if keys.duck && !newRunner.isJumping {
      newRunner := newRunner.(isDucking := true);
      newRunner := newRunner.(y := duckY);
    } else if !keys.duck && !newRunner.isJumping {
      newRunner := newRunner.(isDucking := false);
      newRunner := newRunner.(y := groundY);
    }

    if newRunner.isJumping {
      newRunner := newRunner.(velocityY := newRunner.velocityY + gravity);
      newRunner := newRunner.(y := newRunner.y + newRunner.velocityY);
      if newRunner.y >= groundY {
        newRunner := newRunner.(y := groundY);
        newRunner := newRunner.(isJumping := false);
        newRunner := newRunner.(velocityY := 0.0);
      }
    }
  }
}
