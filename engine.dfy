/** The game state and its transitions: starting a game, toggling pause, and
    the per-frame update that moves the runner and the obstacles, spawns,
    detects a fatal collision (ending the game and recording the high
    score), or else scores the frame and runs the UFO. The ground line,
    the window width, the stored high score and every random draw are
    inputs of a frame. */
module Engine {
  import opened Common
  import opened Config
  import opened Entities
  import opened Generator
  import opened Collision
  import opened Bosses
  import opened Particles
  import opened Ufos
  import opened Runners
  import opened Field

  datatype GameState = GameState(
    isRunning: bool,
    isGameOver: bool,
    score: int,
    highScore: int,
    speed: real,
    difficulty: Difficulty,
    theme: string,
    runner: Runner,
    obstacles: seq<Obstacle>,
    particles: seq<Particle>,
    backgroundOffset: real,
    gameTime: int,
    bossActive: bool,
    lastBossScore: int)

  /** What a frame reads from its surroundings: the ground line, the window
      width and the high score kept in persistent storage. */
  datatype Env = Env(groundLevel: real, windowWidth: real, storedHighScore: int)

  /** Every random draw a frame may make. */
  datatype Draws = Draws(spawn: SpawnDraws, ufo: UfoDraws, burst: seq<ParticleDraw>)

  /** A frame's outcome: the new game state, the new UFO, and the high score
      written to persistent storage, if any. */
  datatype FrameResult = FrameResult(state: GameState, ufo: Ufo, persisted: Option<int>)

  /** The runner standing at x = 100 on the ground line. */
  function StartRunner(groundLevel: real): Runner
  {
    Runner(100.0, groundLevel - RunnerHeight, false, false, 0.0)
  }

  /** The state before the first game. */
  function InitialState(groundLevel: real, storedHighScore: int): GameState
  {
    GameState(false, false, 0, storedHighScore, 1.0, Normal, "day", StartRunner(groundLevel),
              [], [], 0.0, 0, false, 0)
  }

  /** A boss in the list keeps its shooting state consistent and its
      bullets on screen. */
  predicate SoundBoss(o: Obstacle)
  {
    o.kind == Boss ==> BossInv(o) && forall k :: 0 <= k < |o.bullets| ==> o.bullets[k].x > BulletLimit
  }

  predicate BossesSound(obs: seq<Obstacle>)
  {
    forall i :: 0 <= i < |obs| ==> SoundBoss(obs[i])
  }

  /** The invariant of the game state: a non-negative score and frame count,
      a background offset in [0, 2000), never running and over at once, a
      consistent runner, at most one boss, sound bosses and live particles. */
  predicate Valid(s: GameState)
  {
    && s.score >= 0 && s.gameTime >= 0
    && 0.0 <= s.backgroundOffset < 2000.0
    && !(s.isRunning && s.isGameOver)
    && Stance(s.runner)
    && BossCount(s.obstacles) <= 1
    && BossesSound(s.obstacles)
    && forall i :: 0 <= i < |s.particles| ==> s.particles[i].life > 0.0
  }

  lemma InitialStateValid(groundLevel: real, storedHighScore: int)
    ensures Valid(InitialState(groundLevel, storedHighScore))
    ensures UfoInv(InitialUfo)
  {
  }

  /** Starting a game with a difficulty key. An unknown key fails; a known
      one gives a running game at the difficulty's base speed, with nothing
      on the field, the runner on the ground, the stored high score, the
      chosen theme, no boss milestone reached yet, the background at 0, and
      the UFO reset. */
  function StartGame(key: string, theme: string, groundLevel: real, storedHighScore: int): (res: Option<(GameState, Ufo)>)
    ensures res.Some? <==> Lookup(key).Some?
    ensures res.Some? ==>
      && var (s, u) := res.value;
      && Valid(s) && UfoInv(u) && !u.active && u.cooldown == 0
      && s.isRunning && !s.isGameOver && s.score == 0 && s.gameTime == 0
      && Key(s.difficulty) == key && s.speed == ConfigOf(s.difficulty).baseSpeed
      && s.highScore == storedHighScore && s.obstacles == [] && s.particles == []
      && Placed(s.runner, groundLevel) && !s.runner.isJumping && !s.runner.isDucking
      && s.lastBossScore == 0 && s.backgroundOffset == 0.0 && !s.bossActive && s.theme == theme
      && u == ResetUfo
  {
    match Lookup(key)
    case None => None
    case Some(d) =>
      Some((GameState(true, false, 0, storedHighScore, ConfigOf(d).baseSpeed, d, theme, StartRunner(groundLevel),
                      [], [], 0.0, 0, false, 0),
            ResetUfo))
  }

  /** The pause key: a running game pauses, a paused game that is not over
      resumes, and a finished game stays stopped. */
  function TogglePause(s: GameState): (r: GameState)
    ensures r.isRunning == (!s.isRunning && !s.isGameOver)
    ensures r == s.(isRunning := r.isRunning)
  {
    var running :=
      if !s.isRunning && !s.isGameOver then true
      else if !s.isRunning then s.isRunning
      else if !s.isRunning then s.isRunning
      else !s.isRunning;
    s.(isRunning := running)
  }

  /** Pausing twice gets a game that is not over back where it was, a
      finished game can never be resumed by the pause key, and pausing keeps
      the invariant. */
  lemma PauseRoundTrip(s: GameState)
    ensures !s.isGameOver ==> TogglePause(TogglePause(s)) == s
    ensures s.isGameOver ==> !TogglePause(s).isRunning && !TogglePause(TogglePause(s)).isRunning
    ensures Valid(s) ==> Valid(TogglePause(s))
  {
  }

  /** One frame, as a function of the previous state, the UFO, the keys held,
      the surroundings and the draws. */
  ghost function Step(prev: GameState, ufo: Ufo, keys: Keys, env: Env, draws: Draws): FrameResult
    requires |draws.burst| >= BurstSize
  {
    if !prev.isRunning then FrameResult(prev, ufo, None)
    else
      var runner := RunnerStep(prev.runner, keys, env.groundLevel, JumpForceFor(Key(prev.difficulty)), GravityFor(Key(prev.difficulty)));
      AfterRunner(prev, ufo, runner, CalculateSpeed(prev.score, ConfigOf(prev.difficulty)), env, draws)
  }

  /** The frame once the runner has moved and the speed is known: the
      obstacles move, then the rest of the frame. */
  ghost function AfterRunner(prev: GameState, ufo: Ufo, runner: Runner, newSpeed: real, env: Env, draws: Draws): FrameResult
    requires |draws.burst| >= BurstSize
  {
    AfterMove(prev, ufo, runner, newSpeed, MoveAndFilter(prev.obstacles, runner.x, RunnerSpeed * newSpeed), env, draws)
  }

  /** The frame once the obstacles have moved: the spawn step, then the
      collision pass. */
  ghost function AfterMove(prev: GameState, ufo: Ufo, runner: Runner, newSpeed: real, moved: seq<Obstacle>, env: Env, draws: Draws): FrameResult
    requires |draws.burst| >= BurstSize
  {
    var bossActive := HasBoss(moved);
    var sp := Spawn(moved, bossActive, newSpeed, ConfigOf(prev.difficulty), prev.score, prev.lastBossScore, env.groundLevel, draws.spawn);
    Resolve(prev, ufo, runner, newSpeed, sp.0, bossActive, sp.1, env, draws)
  }

  /** The frame after the collision pass over the spawned list. */
  ghost function Resolve(prev: GameState, ufo: Ufo, runner: Runner, newSpeed: real, spawned: seq<Obstacle>,
                         bossActive: bool, lastBoss: int, env: Env, draws: Draws): FrameResult
    requires |draws.burst| >= BurstSize
  {
    if AnyFatal(runner, spawned) then
      GameOver(prev, ufo, runner, env, draws)
    else
      Continue(prev, ufo, runner, newSpeed, MarkAll(runner, spawned), bossActive, lastBoss, env, draws)
  }

  /** The fatal frame: the previous state, stopped and over, with the high
      score recorded and persisted, a burst of particles around the moved
      runner, and the previous obstacles as the in-place boss update left
      them. The UFO is not updated. */
  function GameOver(prev: GameState, ufo: Ufo, runner: Runner, env: Env, draws: Draws): FrameResult
    requires |draws.burst| >= BurstSize
  {
    var high := Max(prev.score, env.storedHighScore);
    var burst := Burst(runner.x + 20.0, runner.y + 30.0, draws.burst[..BurstSize]);
    FrameResult(
      prev.(isRunning := false, isGameOver := true, highScore := high, particles := prev.particles + burst,
            obstacles := StepBosses(prev.obstacles, runner.x)),
      ufo, Some(high))
  }

  /** The surviving frame: bonuses paid and marked, the score floored, the
      particles decayed, the background scrolled, the UFO updated, and an
      obstacle the UFO lands appended. */
  function Continue(prev: GameState, ufo: Ufo, runner: Runner, newSpeed: real, checked: seq<Obstacle>,
                    bossActive: bool, lastBoss: int, env: Env, draws: Draws): FrameResult
  {
    var m := ConfigOf(prev.difficulty).scoreMultiplier;
    var marked := MarkPassed(checked, runner.x);
    var score := (prev.score as real + m + Bonus(checked, runner.x, m)).Floor;
    var (nextUfo, landed) := UfoStep(ufo, marked, bossActive, env.groundLevel, env.windowWidth, draws.ufo);
    var obstacles := if landed.Some? then marked + [landed.value] else marked;
    FrameResult(
      prev.(runner := runner, obstacles := obstacles, score := score, speed := newSpeed,
            particles := UpdateParticles(prev.particles),
            backgroundOffset := Rem2000(prev.backgroundOffset + RunnerSpeed * newSpeed),
            gameTime := prev.gameTime + 1, bossActive := bossActive, lastBossScore := lastBoss),
      nextUfo, None)
  }

  /** The frame update. A paused game is left as it is. */
  method UpdateGame(prev: GameState, ufo: Ufo, keys: Keys, env: Env, draws: Draws) returns (f: FrameResult)
    requires |draws.burst| >= BurstSize
    ensures f == Step(prev, ufo, keys, env, draws)
  {
    if !prev.isRunning {
      return FrameResult(prev, ufo, None);
    }

    var jumpForce := JumpForceFor(Key(prev.difficulty));
    var gravity := GravityFor(Key(prev.difficulty));
    var newRunner := MoveRunner(prev.runner, keys, env.groundLevel, jumpForce, gravity);

    var difficultyConfig := ConfigOf(prev.difficulty);
    var newSpeed := CalculateSpeed(prev.score, difficultyConfig);

    f := MoveAndResolve(prev, ufo, newRunner, newSpeed, env, draws);
  }

  /** The obstacles' move, then the rest of the frame. */
  method MoveAndResolve(prev: GameState, ufo: Ufo, newRunner: Runner, newSpeed: real, env: Env, draws: Draws) returns (f: FrameResult)
    requires |draws.burst| >= BurstSize
    ensures f == AfterRunner(prev, ufo, newRunner, newSpeed, env, draws)
  {
    var currentSpeed := RunnerSpeed * newSpeed;
    var newObstacles, touched := MoveObstacles(prev.obstacles, newRunner.x, currentSpeed);
    f := SpawnAndResolve(prev, ufo, newRunner, newSpeed, newObstacles, touched, env, draws);
  }

  /** The middle of a frame: the spawn step and the collision pass, ending
      the game on a fatal collision. `touched` is the previous list as the
      in-place boss update left it. */
  method SpawnAndResolve(prev: GameState, ufo: Ufo, newRunner: Runner, newSpeed: real, newObstacles: seq<Obstacle>,
                         touched: seq<Obstacle>, env: Env, draws: Draws) returns (f: FrameResult)
    requires |draws.burst| >= BurstSize
    requires touched == StepBosses(prev.obstacles, newRunner.x)
    ensures f == AfterMove(prev, ufo, newRunner, newSpeed, newObstacles, env, draws)
  {
    var difficultyConfig := ConfigOf(prev.difficulty);
    var newObstacles := newObstacles;
    var bossActive := exists i :: 0 <= i < |newObstacles| && newObstacles[i].kind == Boss;
    assert bossActive == HasBoss(newObstacles);

    var newLastBossScore;
    newObstacles, newLastBossScore := SpawnObstacle(newObstacles, bossActive, newSpeed, difficultyConfig, prev.score,
                                                    prev.lastBossScore, env.groundLevel, draws.spawn);
    f := CollideAndResolve(prev, ufo, newRunner, newSpeed, newObstacles, bossActive, newLastBossScore, touched, env, draws);
  }

  /** The collision pass over the spawned list: a fatal collision ends the
      game, otherwise the frame is finished. */
  method CollideAndResolve(prev: GameState, ufo: Ufo, newRunner: Runner, newSpeed: real, newObstacles: seq<Obstacle>,
                           bossActive: bool, newLastBossScore: int, touched: seq<Obstacle>, env: Env, draws: Draws)
    returns (f: FrameResult)
    requires |draws.burst| >= BurstSize
    requires touched == StepBosses(prev.obstacles, newRunner.x)
    ensures f == Resolve(prev, ufo, newRunner, newSpeed, newObstacles, bossActive, newLastBossScore, env, draws)
  {
    var collision, checked := CheckCollisions(newRunner, newObstacles);

    if collision {
      var newHighScore := Max(prev.score, env.storedHighScore);
      var burst := CreateParticles(newRunner.x + 20.0, newRunner.y + 30.0, BurstSize, draws.burst);
      return FrameResult(
        prev.(isRunning := false, isGameOver := true, highScore := newHighScore,
              particles := prev.particles + burst, obstacles := touched),
        ufo, Some(newHighScore));
    }
    f := FinishFrame(prev, ufo, newRunner, newSpeed, checked, bossActive, newLastBossScore, env, draws);
  }

  /** The rest of a frame without a fatal collision: bonuses, score,
      particles, background, frame count and the UFO. */
  method FinishFrame(prev: GameState, ufo: Ufo, newRunner: Runner, newSpeed: real, checked: seq<Obstacle>,
                     bossActive: bool, newLastBossScore: int, env: Env, draws: Draws) returns (f: FrameResult)
    ensures f == Continue(prev, ufo, newRunner, newSpeed, checked, bossActive, newLastBossScore, env, draws)
  {
    var difficultyConfig := ConfigOf(prev.difficulty);
    var currentSpeed := RunnerSpeed * newSpeed;
    var newObstacles := checked;

    var newScore := prev.score as real + difficultyConfig.scoreMultiplier;
    newObstacles, newScore := AwardBonuses(newObstacles, newRunner.x, difficultyConfig.scoreMultiplier, newScore);

    var newParticles := UpdateParticles(prev.particles);
    var newBackgroundOffset := Rem2000(prev.backgroundOffset + currentSpeed);
    var newGameTime := prev.gameTime + 1;

    var nextUfo, landed := UpdateUfo(ufo, newObstacles, bossActive, env.groundLevel, env.windowWidth, draws.ufo);

    var next := prev.(runner := newRunner, obstacles := newObstacles, score := newScore.Floor, speed := newSpeed,
                      particles := newParticles, backgroundOffset := newBackgroundOffset, gameTime := newGameTime,
                      bossActive := bossActive, lastBossScore := newLastBossScore);
    if landed.Some? {
      next := next.(obstacles := next.obstacles + [landed.value]);
    }
    return FrameResult(next, nextUfo, None);
  }
}

