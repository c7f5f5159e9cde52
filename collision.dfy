/** Collision detection between the runner and one obstacle: a strict
    overlap of boxes, each shrunk by an 8-unit margin, with the runner's box
    depending on its stance. Touching a boss destroys it instead of killing
    the runner; a boss's bullets kill a runner who is not ducking. */
module Collision {
  import opened Config
  import opened Entities

  const Margin: real := 8.0

  /** The runner's box is 50 by 30 while ducking and 40 by 60 otherwise. */
  function HitWidth(r: Runner): real
  {
    if r.isDucking then 50.0 else RunnerWidth
  }

  function HitHeight(r: Runner): real
  {
    if r.isDucking then 30.0 else RunnerHeight
  }

  /** The runner's box strictly overlaps the box at (x, y) of size w by h,
      once the margin is taken off. */
  predicate Overlaps(r: Runner, x: real, y: real, w: real, h: real)
  {
    && r.x + HitWidth(r) - Margin > x
    && r.x + Margin < x + w
    && r.y + HitHeight(r) - Margin > y
    && r.y + Margin < y + h
  }

  predicate TouchesBody(r: Runner, o: Obstacle)
  {
    Overlaps(r, o.x, o.y, o.width, o.height)
  }

  predicate HitByBullet(r: Runner, b: Bullet)
  {
    Overlaps(r, b.x, b.y, b.width, b.height)
  }

  /** The verdict of the collision check: for a normal obstacle, the body
      overlap; for a boss, a bullet overlap on a runner who is standing or
      jumping, provided the runner is not touching the boss itself. */
  ghost predicate Fatal(r: Runner, o: Obstacle)
  {
    if o.kind == Boss then
      !TouchesBody(r, o) && !r.isDucking && exists i :: 0 <= i < |o.bullets| && HitByBullet(r, o.bullets[i])
    else
      TouchesBody(r, o)
  }

  /** The obstacle as the collision check leaves it: a boss the runner
      touches is marked destroyed, anything else is left as it was. */
  function AfterCheck(r: Runner, o: Obstacle): Obstacle
  {
    if o.kind == Boss && TouchesBody(r, o) then o.(destroyed := true) else o
  }

  /** The collision check. It reports a fatal hit and returns the obstacle
      with the `destroyed` mark it may have written. A ducking runner never
      gets a fatal hit from a boss. */
  method CheckCollision(runner: Runner, obstacle: Obstacle) returns (hit: bool, checked: Obstacle)
    ensures hit == Fatal(runner, obstacle)
    ensures checked == AfterCheck(runner, obstacle)
    ensures obstacle.kind == Boss && runner.isDucking ==> !hit
    ensures obstacle.kind == Boss && TouchesBody(runner, obstacle) ==> checked.destroyed && !hit
  {
    var margin := Margin;
    var runnerWidth := if runner.isDucking then 50.0 else RunnerWidth;
    var runnerHeight := if runner.isDucking then 30.0 else RunnerHeight;
    checked := obstacle;

    if obstacle.kind == Boss {
      var collision :=
        runner.x + runnerWidth - margin > obstacle.x &&
        runner.x + margin < obstacle.x + obstacle.width &&
        runner.y + runnerHeight - margin > obstacle.y &&
        runner.y + margin < obstacle.y + obstacle.height;
      if collision {
        checked := checked.(destroyed := true);
        return false, checked;
      }

      var bullets := obstacle.bullets;
      var i := 0;
      while i < |bullets|
        invariant 0 <= i <= |bullets|
        invariant !runner.isDucking ==> forall j :: 0 <= j < i ==> !HitByBullet(runner, bullets[j])
      {
        var bullet := bullets[i];
        var bulletCollision :=
          runner.x + runnerWidth - margin > bullet.x &&
          runner.x + margin < bullet.x + bullet.width &&
          runner.y + runnerHeight - margin > bullet.y &&
          runner.y + margin < bullet.y + bullet.height;
        if bulletCollision && !runner.isDucking {
          return true, checked;
        }
        i := i + 1;
      }
      return false, checked;
    }

    hit :=
      runner.x + runnerWidth - margin > obstacle.x &&
      runner.x + margin < obstacle.x + obstacle.width &&
      runner.y + runnerHeight - margin > obstacle.y &&
      runner.y + margin < obstacle.y + obstacle.height;
  }
}
