/** The game's constant tables (the physics constants, the three difficulty
    presets, the obstacle archetypes and the boss archetype) and the small
    rules derived from them: the speed curve, the obstacle spawn rate, and
    the difficulty-scaled jump force and gravity. */
module Config {
  import opened Common

  // Physics and layout constants of the runner.
  const Gravity: real := 0.8
  const BaseJumpForce: real := -18.0
  const RunnerSpeed: real := 4.0
  const MinObstacleDistance: real := 300.0
  const DuckHeight: real := 30.0
  const RunnerWidth: real := 40.0
  const RunnerHeight: real := 60.0

  type Positive = n: int | n > 0 witness 1

  datatype Difficulty = Easy | Normal | Expert

  datatype DifficultyConfig = DifficultyConfig(
    baseSpeed: real,
    speedIncrement: real,
    maxSpeed: real,
    scoreMultiplier: real,
    obstacleSpawnRate: real,
    speedIncreaseInterval: Positive,
    jumpForceMultiplier: real,
    gravityMultiplier: real)

  function ConfigOf(d: Difficulty): DifficultyConfig
  {
    match d
    case Easy => DifficultyConfig(0.8, 0.05, 2.0, 1.0, 0.8, 300, 1.15, 0.9)
    case Normal => DifficultyConfig(1.0, 0.1, 2.5, 1.0, 1.0, 200, 1.0, 1.0)
    case Expert => DifficultyConfig(1.2, 0.15, 3.5, 1.5, 1.3, 150, 0.9, 1.15)
  }

  /** The key under which a preset is stored in the difficulty table. */
  function Key(d: Difficulty): string
  {
    match d
    case Easy => "easy"
    case Normal => "normal"
    case Expert => "expert"
  }

  /** Looking a key up in the difficulty table: present exactly for the
      three preset keys. */
  function Lookup(key: string): (r: Option<Difficulty>)
    ensures forall d :: r == Some(d) <==> Key(d) == key
  {
    if key == "easy" then Some(Easy)
    else if key == "normal" then Some(Normal)
    else if key == "expert" then Some(Expert)
    else None
  }

  /** The preset for a key, falling back to `normal` for an unknown key. */
  function ConfigOrNormal(key: string): DifficultyConfig
  {
    match Lookup(key)
    case Some(d) => ConfigOf(d)
    case None => ConfigOf(Normal)
  }

  /** Difficulty-scaled jump force: always upward (negative), and the base
      force for an unknown key. */
  function JumpForceFor(key: string): (f: real)
    ensures -20.7 <= f <= -16.2
    ensures Lookup(key) == None ==> f == BaseJumpForce
    ensures forall d :: Lookup(key) == Some(d) ==> f == BaseJumpForce * ConfigOf(d).jumpForceMultiplier
  {
    BaseJumpForce * ConfigOrNormal(key).jumpForceMultiplier
  }

  /** Difficulty-scaled gravity: always downward (positive), and the base
      gravity for an unknown key. */
  function GravityFor(key: string): (g: real)
    ensures 0.72 <= g <= 0.92
    ensures Lookup(key) == None ==> g == Gravity
    ensures forall d :: Lookup(key) == Some(d) ==> g == Gravity * ConfigOf(d).gravityMultiplier
  {
    Gravity * ConfigOrNormal(key).gravityMultiplier
  }

  /** The speed multiplier for a score: `baseSpeed` plus one increment per
      completed interval of points, capped at `maxSpeed`. For a score of at
      least zero it lies between the preset's base and maximum. */
  function CalculateSpeed(score: int, c: DifficultyConfig): (s: real)
    ensures s <= c.maxSpeed
    ensures score >= 0 && c.speedIncrement >= 0.0 && c.baseSpeed <= c.maxSpeed ==> c.baseSpeed <= s
    ensures s == c.maxSpeed || s == c.baseSpeed + (score / c.speedIncreaseInterval) as real * c.speedIncrement
  {
    var speedLevel := score / c.speedIncreaseInterval;
    var newSpeed := c.baseSpeed + speedLevel as real * c.speedIncrement;
    if newSpeed < c.maxSpeed then newSpeed else c.maxSpeed
  }

  lemma MulMonotone(x: int, y: int, k: Positive)
    requires x <= y
    ensures x * k <= y * k
  {
    assert (y - x) * k >= 0;
  }

  lemma DivMonotone(a: int, b: int, k: Positive)
    requires a <= b
    ensures a / k <= b / k
  {
    var qa, qb := a / k, b / k;
    assert qa * k <= a;
    assert b < (qb + 1) * k;
    if qa >= qb + 1 {
      MulMonotone(qb + 1, qa, k);
      assert false;
    }
  }

  /** The speed never drops as the score grows. */
  lemma {:induction false} SpeedMonotone(s1: int, s2: int, c: DifficultyConfig)
    requires s1 <= s2
    requires c.speedIncrement >= 0.0
    ensures CalculateSpeed(s1, c) <= CalculateSpeed(s2, c)
  {
    var l1, l2 := s1 / c.speedIncreaseInterval, s2 / c.speedIncreaseInterval;
    DivMonotone(s1, s2, c.speedIncreaseInterval);
    assert l1 as real * c.speedIncrement <= l2 as real * c.speedIncrement by {
      assert (l2 - l1) as real * c.speedIncrement >= 0.0;
    }
  }

  /** For every preset, a score of at least zero gives a speed between the
      preset's base and maximum speed, and that speed is at least 0.8. */
  lemma SpeedBounds(score: int, d: Difficulty)
    requires score >= 0
    ensures ConfigOf(d).baseSpeed <= CalculateSpeed(score, ConfigOf(d)) <= ConfigOf(d).maxSpeed
    ensures 0.8 <= CalculateSpeed(score, ConfigOf(d)) <= 3.5
  {
  }

  /** The per-frame probability of spawning an obstacle, scaled by the
      preset and growing by 30% per unit of speed above 1. */
  function ObstacleSpawnRate(speed: real, c: DifficultyConfig): real
  {
    var baseRate := 0.025 * c.obstacleSpawnRate;
    var speedMultiplier := 1.0 + (speed - 1.0) * 0.3;
    baseRate * speedMultiplier
  }

  /** Within a preset's speed range the spawn rate is a genuine probability
      (strictly between 0 and 0.06) and it grows with the speed. */
  lemma SpawnRateBounds(d: Difficulty, speed: real, faster: real)
    requires ConfigOf(d).baseSpeed <= speed <= faster <= ConfigOf(d).maxSpeed
    ensures 0.0 < ObstacleSpawnRate(speed, ConfigOf(d)) < 0.06
    ensures ObstacleSpawnRate(speed, ConfigOf(d)) <= ObstacleSpawnRate(faster, ConfigOf(d))
  {
  }

  /** What an obstacle archetype's `type` says about it. */
  datatype Kind = Jump | Duck | Boss

  /** An obstacle archetype: its table key, size, category and, for the
      ones that float above the ground, the height of their top edge. */
  datatype Archetype = Archetype(name: string, width: real, height: real, category: Kind, yOffset: Option<real>)

  const JumpObstacles: seq<Archetype> := [
    Archetype("meeting", 80.0, 90.0, Jump, None),
    Archetype("deadline", 75.0, 80.0, Jump, None),
    Archetype("timesheet", 70.0, 75.0, Jump, None),
    Archetype("production", 90.0, 85.0, Jump, None),
    Archetype("manager", 80.0, 95.0, Jump, None),
    Archetype("teamlead", 70.0, 90.0, Jump, None),
    Archetype("standup", 60.0, 70.0, Jump, None),
    Archetype("codereview", 65.0, 75.0, Jump, None)
  ]

  const DuckObstacles: seq<Archetype> := [
    Archetype("hremail", 100.0, 40.0, Duck, Some(70.0)),
    Archetype("allhands", 110.0, 45.0, Duck, Some(80.0)),
    Archetype("announcement", 90.0, 35.0, Duck, Some(65.0)),
    Archetype("feedback", 85.0, 35.0, Duck, Some(60.0))
  ]

  // The boss archetype.
  const BossName: string := "devil_boss"
  const BossWidth: real := 120.0
  const BossHeight: real := 100.0
  const BossMinScore: int := 500
  const BossShootDuration: int := 180

  /** The jump table holds only grounded jump archetypes and the duck table
      only floating duck archetypes, each with a positive size. */
  lemma TablesWellFormed()
    ensures |JumpObstacles| == 8 && |DuckObstacles| == 4
    ensures forall a :: a in JumpObstacles ==> a.category == Jump && a.yOffset == None && a.width > 0.0 && a.height > 0.0
    ensures forall a :: a in DuckObstacles ==> a.category == Duck && a.yOffset.Some? && a.width > 0.0 && a.height > 0.0
  {
  }
}
