/** Obstacle generation: the boss gate at each 500-point milestone and the
    construction of a boss or of a normal obstacle drawn from the archetype
    tables. The random draws of the source are parameters. */
module Generator {
  import opened Common
  import opened Config
  import opened Entities

  /** The 500-point milestone a score has reached. */
  function Milestone(score: int): (m: int)
    ensures m <= score < m + 500
    ensures m % 500 == 0
  {
    (score / 500) * 500
  }

  /** A boss is offered exactly when the score's milestone is a new one
      (beyond the milestone of the last boss) and at least 500, and then
      only when the draw falls below 0.3. */
  function ShouldSpawnBoss(score: int, lastBossScore: int, draw: Unit): (spawn: bool)
    ensures spawn <==> score >= BossMinScore && score / 500 > lastBossScore / 500 && draw < 0.3
  {
    var currentMilestone := Milestone(score);
    var lastMilestone := Milestone(lastBossScore);
    if currentMilestone > lastMilestone && currentMilestone >= 500 then draw < 0.3 else false
  }

  /** Once a boss has been spawned for a milestone and its milestone has
      become the last boss score, no draw offers a second boss before the
      score reaches the next milestone. */
  lemma OneBossPerMilestone(score: int, lastBossScore: int, draw: Unit, later: int, laterDraw: Unit)
    requires ShouldSpawnBoss(score, lastBossScore, draw)
    requires later < Milestone(score) + 500
    ensures !ShouldSpawnBoss(later, Milestone(score), laterDraw)
  {
  }

  /** The draws `generateObstacle` makes: the boss gate, the jump-or-duck
      choice and the archetype pick. */
  datatype GenDraws = GenDraws(boss: Unit, useJump: Unit, pick: Unit)

  /** A fresh boss at x, standing on the ground, for the score's milestone. */
  function NewBoss(x: real, score: int, groundLevel: real): Obstacle
  {
    Obstacle(x, groundLevel - BossHeight, BossWidth, BossHeight, BossName, Boss,
             false, false, 0, [], false, Milestone(score))
  }

  /** An archetype placed at x: floating archetypes have their top at
      `yOffset` above the ground, the others stand on the ground. */
  function Place(a: Archetype, x: real, groundLevel: real): Obstacle
  {
    var y := match a.yOffset
      case Some(offset) => groundLevel - offset
      case None => groundLevel - a.height;
    Plain(a, x, y)
  }

  /** A new obstacle at x: the boss when the gate opens; otherwise a jump
      archetype (when the draw is below 0.7) or a duck archetype, unpassed,
      with the archetype's own size. */
  function GenerateObstacle(x: real, score: int, lastBossScore: int, groundLevel: real, r: GenDraws): (o: Obstacle)
    ensures o.kind == Boss <==> ShouldSpawnBoss(score, lastBossScore, r.boss)
    ensures o.x == x && !o.passed && !o.destroyed
    ensures o.kind == Boss ==>
      && o.spawnScore == Milestone(score) && o.bullets == [] && !o.isShooting && o.shootTimer == 0
      && o.y == groundLevel - 100.0 && o.width == 120.0 && o.height == 100.0
    ensures o.kind != Boss ==> (o.kind == Jump <==> r.useJump < 0.7)
    ensures o.kind == Jump ==> exists a :: a in JumpObstacles && o == Plain(a, x, groundLevel - a.height)
    ensures o.kind == Duck ==> exists a :: a in DuckObstacles && a.yOffset.Some? && o == Plain(a, x, groundLevel - a.yOffset.value)
  {
    if ShouldSpawnBoss(score, lastBossScore, r.boss) then
      NewBoss(x, score, groundLevel)
    else
      var useJumpObstacle := r.useJump < 0.7;
      var table := if useJumpObstacle then JumpObstacles else DuckObstacles;
      var a := table[PickIndex(r.pick, |table|)];
      assert a in table;
      Place(a, x, groundLevel)
  }
}
