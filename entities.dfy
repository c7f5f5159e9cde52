/** The game's entities as plain records: the runner, obstacles (a boss is
    an obstacle whose kind is `Boss` and whose shooting fields are in use)
    and the bullets a boss fires. */
module Entities {
  import opened Config

  datatype Bullet = Bullet(x: real, y: real, width: real, height: real, velocityX: real)

  /** One entry of the obstacle list. The boss-only fields (`isShooting`,
      `shootTimer`, `bullets`, `destroyed`, `spawnScore`) are absent on a
      normal obstacle in the source, which reads them as false, zero or
      empty; here they hold those values. */
  datatype Obstacle = Obstacle(
    x: real,
    y: real,
    width: real,
    height: real,
    archetype: string,
    kind: Kind,
    passed: bool,
    isShooting: bool,
    shootTimer: int,
    bullets: seq<Bullet>,
    destroyed: bool,
    spawnScore: int)

  datatype Runner = Runner(x: real, y: real, isJumping: bool, isDucking: bool, velocityY: real)

  /** A normal obstacle of the given archetype, placed at (x, y). */
  function Plain(a: Archetype, x: real, y: real): Obstacle
  {
    Obstacle(x, y, a.width, a.height, a.name, a.category, false, false, 0, [], false, 0)
  }

  /** The number of bosses in an obstacle list. */
  function BossCount(obs: seq<Obstacle>): (n: nat)
    ensures n <= |obs|
    ensures n == 0 <==> forall i :: 0 <= i < |obs| ==> obs[i].kind != Boss
  {
    if obs == [] then 0
    else BossCount(obs[..|obs| - 1]) + (if obs[|obs| - 1].kind == Boss then 1 else 0)
  }

  lemma {:induction false} BossCountAppend(obs: seq<Obstacle>, more: seq<Obstacle>)
    ensures BossCount(obs + more) == BossCount(obs) + BossCount(more)
    decreases |more|
  {
    if more == [] {
      assert obs + more == obs;
    } else {
      var last := |more| - 1;
      assert (obs + more)[..|obs + more| - 1] == obs + more[..last];
      BossCountAppend(obs, more[..last]);
    }
  }
}
