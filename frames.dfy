/** What a frame guarantees: the state invariant and the UFO's invariant are
    kept by every frame, a fatal frame only stops the game, records the
    high score and adds the death burst, and a surviving frame advances the
    clock, scores at least one point and follows the speed curve. Each fact
    is proved layer by layer along the phases of the frame. */
module Frames {
  import opened Common
  import opened Config
  import opened Entities
  import opened Generator
  import opened Collision
  import opened Bosses
  import opened Particles
  import opened Ufos
  import opened Runners
  import opened Field
  import opened Engine

  // ---------------------------------------------------------------------
  // Sound bosses through the obstacle-list operations.

  lemma AdvancedSound(o: Obstacle, runnerX: real, shift: real)
    requires SoundBoss(o)
    ensures SoundBoss(Advanced(o, runnerX)) && SoundBoss(Moved(o, runnerX, shift))
    ensures Advanced(o, runnerX).kind == o.kind && Advanced(o, runnerX).x == o.x
  {
  }

  /** Lists whose obstacles agree kind by kind hold the same number of bosses. */
  lemma {:induction false} SameKindsSameCount(a: seq<Obstacle>, b: seq<Obstacle>)
    requires |a| == |b|
    requires forall i :: 0 <= i < |a| ==> a[i].kind == b[i].kind
    ensures BossCount(a) == BossCount(b)
  {
    if a != [] {
      var n := |a| - 1;
      SameKindsSameCount(a[..n], b[..n]);
    }
  }

  lemma MovedSound(obs: seq<Obstacle>, runnerX: real, shift: real)
    requires BossesSound(obs)
    ensures BossesSound(MoveAndFilter(obs, runnerX, shift))
  {
    var r := MoveAndFilter(obs, runnerX, shift);
    forall i | 0 <= i < |r|
      ensures SoundBoss(r[i])
    {
      assert r[i] in r;
      var j :| 0 <= j < |obs| && r[i] == Moved(obs[j], runnerX, shift);
      AdvancedSound(obs[j], runnerX, shift);
    }
  }

  /** The in-place boss update of the fatal frame keeps every boss sound,
      and every obstacle where it was and of its kind. */
  lemma SteppedSound(obs: seq<Obstacle>, runnerX: real)
    requires BossesSound(obs)
    ensures BossesSound(StepBosses(obs, runnerX))
    ensures BossCount(StepBosses(obs, runnerX)) == BossCount(obs)
  {
    var r := StepBosses(obs, runnerX);
    forall i | 0 <= i < |obs|
      ensures SoundBoss(r[i]) && r[i].kind == obs[i].kind
    {
      AdvancedSound(obs[i], runnerX, 0.0);
    }
    SameKindsSameCount(obs, r);
  }

  /** A spawned boss starts idle with no bullets. */
  lemma SpawnSound(obs: seq<Obstacle>, bossActive: bool, newSpeed: real, c: DifficultyConfig, score: int,
                   lastBossScore: int, groundLevel: real, d: SpawnDraws)
    requires BossesSound(obs)
    ensures BossesSound(Spawn(obs, bossActive, newSpeed, c, score, lastBossScore, groundLevel, d).0)
  {
    var res := Spawn(obs, bossActive, newSpeed, c, score, lastBossScore, groundLevel, d).0;
    forall i | 0 <= i < |res|
      ensures SoundBoss(res[i])
    {
      if i < |obs| {
        assert res[i] == res[..|obs|][i];
      }
    }
  }

  /** The collision marks and the bonus marks change no kind and keep every
      boss sound. */
  lemma MarkedSound(r: Runner, obs: seq<Obstacle>)
    requires BossesSound(obs)
    ensures BossesSound(MarkAll(r, obs))
    ensures BossCount(MarkAll(r, obs)) == BossCount(obs)
  {
    SameKindsSameCount(obs, MarkAll(r, obs));
  }

  lemma PassedSound(obs: seq<Obstacle>, runnerX: real)
    requires BossesSound(obs)
    ensures BossesSound(MarkPassed(obs, runnerX))
    ensures BossCount(MarkPassed(obs, runnerX)) == BossCount(obs)
  {
    SameKindsSameCount(obs, MarkPassed(obs, runnerX));
  }

  // ---------------------------------------------------------------------
  // The invariants, phase by phase.

  lemma GameOverValid(prev: GameState, ufo: Ufo, runner: Runner, env: Env, draws: Draws)
    requires |draws.burst| >= BurstSize
    requires Valid(prev) && UfoInv(ufo)
    ensures Valid(GameOver(prev, ufo, runner, env, draws).state)
    ensures UfoInv(GameOver(prev, ufo, runner, env, draws).ufo)
  {
    SteppedSound(prev.obstacles, runner.x);
    var s := GameOver(prev, ufo, runner, env, draws).state;
    assert forall i :: |prev.particles| <= i < |s.particles| ==> s.particles[i].life == 1.0;
  }

  /** Appending the UFO's landed jump obstacle adds no boss. */
  lemma LandedSound(marked: seq<Obstacle>, landed: Option<Obstacle>)
    requires BossesSound(marked) && BossCount(marked) <= 1
    requires landed.Some? ==> landed.value.kind == Jump
    ensures var obs := if landed.Some? then marked + [landed.value] else marked;
      BossesSound(obs) && BossCount(obs) <= 1
  {
    if landed.Some? {
      BossCountAppend(marked, [landed.value]);
      assert BossCount([landed.value]) == 0;
    }
  }

  /** A surviving frame keeps the game running and its difficulty, moves
      the clock on by one, takes the new runner and speed, scores at least
      one point, scrolls the background within [0, 2000), only decays
      particles, and adds at most the UFO's drop to the checked list. */
  lemma ContinueBasics(prev: GameState, ufo: Ufo, runner: Runner, newSpeed: real, checked: seq<Obstacle>,
                       bossActive: bool, lastBoss: int, env: Env, draws: Draws)
    ensures var f := Continue(prev, ufo, runner, newSpeed, checked, bossActive, lastBoss, env, draws);
      && f.persisted == None
      && f.state == prev.(runner := runner, obstacles := f.state.obstacles, score := f.state.score, speed := newSpeed,
                          particles := f.state.particles, backgroundOffset := f.state.backgroundOffset,
                          gameTime := prev.gameTime + 1, bossActive := bossActive, lastBossScore := lastBoss)
      && f.state.score >= prev.score + 1
      && (prev.backgroundOffset >= 0.0 && newSpeed >= 0.0 ==> 0.0 <= f.state.backgroundOffset < 2000.0)
      && |f.state.particles| <= |prev.particles|
      && (forall i :: 0 <= i < |f.state.particles| ==> f.state.particles[i].life > 0.0)
      && |f.state.obstacles| <= |checked| + 1
  {
    var m := ConfigOf(prev.difficulty).scoreMultiplier;
    assert m >= 1.0;
    BonusBounds(checked, runner.x, m);
  }

  /** The score of a surviving frame is the old score plus the preset's
      multiplier plus the frame's bonuses, floored. */
  lemma ContinueScore(prev: GameState, ufo: Ufo, runner: Runner, newSpeed: real, checked: seq<Obstacle>,
                      bossActive: bool, lastBoss: int, env: Env, draws: Draws)
    ensures var f := Continue(prev, ufo, runner, newSpeed, checked, bossActive, lastBoss, env, draws);
      var m := ConfigOf(prev.difficulty).scoreMultiplier;
      f.state.score == (prev.score as real + m + Bonus(checked, runner.x, m)).Floor
  {
  }

  /** A frame in which no obstacle is cleared scores exactly one point on
      every preset: the multiplier 1.5 of expert is floored to 1. */
  lemma PlainFrameScoresOne(score: int, d: Difficulty, checked: seq<Obstacle>, runnerX: real)
    requires forall i :: 0 <= i < |checked| ==> !Passes(checked[i], runnerX)
    ensures var m := ConfigOf(d).scoreMultiplier;
      (score as real + m + Bonus(checked, runnerX, m)).Floor == score + 1
  {
    BonusBounds(checked, runnerX, ConfigOf(d).scoreMultiplier);
  }

  /** A surviving frame keeps every boss sound, adds no boss, and keeps the
      UFO consistent. */
  lemma ContinueObstacles(prev: GameState, ufo: Ufo, runner: Runner, newSpeed: real, checked: seq<Obstacle>,
                          bossActive: bool, lastBoss: int, env: Env, draws: Draws)
    requires UfoInv(ufo) && BossesSound(checked) && BossCount(checked) <= 1
    ensures var f := Continue(prev, ufo, runner, newSpeed, checked, bossActive, lastBoss, env, draws);
      BossesSound(f.state.obstacles) && BossCount(f.state.obstacles) <= 1 && UfoInv(f.ufo)
  {
    var marked := MarkPassed(checked, runner.x);
    PassedSound(checked, runner.x);
    var step := UfoStep(ufo, marked, bossActive, env.groundLevel, env.windowWidth, draws.ufo);
    DropLandsAsJump(ufo, marked, bossActive, env.groundLevel, env.windowWidth, draws.ufo);
    LandedSound(marked, step.1);
  }

  lemma ContinueValid(prev: GameState, ufo: Ufo, runner: Runner, newSpeed: real, checked: seq<Obstacle>,
                      bossActive: bool, lastBoss: int, env: Env, draws: Draws)
    requires Valid(prev) && UfoInv(ufo) && Stance(runner) && newSpeed >= 0.0
    requires BossesSound(checked) && BossCount(checked) <= 1
    ensures Valid(Continue(prev, ufo, runner, newSpeed, checked, bossActive, lastBoss, env, draws).state)
    ensures UfoInv(Continue(prev, ufo, runner, newSpeed, checked, bossActive, lastBoss, env, draws).ufo)
  {
    ContinueBasics(prev, ufo, runner, newSpeed, checked, bossActive, lastBoss, env, draws);
    ContinueObstacles(prev, ufo, runner, newSpeed, checked, bossActive, lastBoss, env, draws);
  }

  lemma ResolveValid(prev: GameState, ufo: Ufo, runner: Runner, newSpeed: real, spawned: seq<Obstacle>,
                     bossActive: bool, lastBoss: int, env: Env, draws: Draws)
    requires |draws.burst| >= BurstSize
    requires Valid(prev) && UfoInv(ufo) && Stance(runner) && newSpeed >= 0.0
    requires BossesSound(spawned) && BossCount(spawned) <= 1
    ensures Valid(Resolve(prev, ufo, runner, newSpeed, spawned, bossActive, lastBoss, env, draws).state)
    ensures UfoInv(Resolve(prev, ufo, runner, newSpeed, spawned, bossActive, lastBoss, env, draws).ufo)
  {
    if AnyFatal(runner, spawned) {
      GameOverValid(prev, ufo, runner, env, draws);
    } else {
      MarkedSound(runner, spawned);
      ContinueValid(prev, ufo, runner, newSpeed, MarkAll(runner, spawned), bossActive, lastBoss, env, draws);
    }
  }

  lemma AfterMoveValid(prev: GameState, ufo: Ufo, runner: Runner, newSpeed: real, moved: seq<Obstacle>, env: Env, draws: Draws)
    requires |draws.burst| >= BurstSize
    requires Valid(prev) && UfoInv(ufo) && Stance(runner) && newSpeed >= 0.0
    requires BossesSound(moved) && BossCount(moved) <= 1
    ensures Valid(AfterMove(prev, ufo, runner, newSpeed, moved, env, draws).state)
    ensures UfoInv(AfterMove(prev, ufo, runner, newSpeed, moved, env, draws).ufo)
  {
    var bossActive := HasBoss(moved);
    var sp := Spawn(moved, bossActive, newSpeed, ConfigOf(prev.difficulty), prev.score, prev.lastBossScore, env.groundLevel, draws.spawn);
    SpawnSound(moved, bossActive, newSpeed, ConfigOf(prev.difficulty), prev.score, prev.lastBossScore, env.groundLevel, draws.spawn);
    ResolveValid(prev, ufo, runner, newSpeed, sp.0, bossActive, sp.1, env, draws);
  }

  lemma AfterRunnerValid(prev: GameState, ufo: Ufo, runner: Runner, newSpeed: real, env: Env, draws: Draws)
    requires |draws.burst| >= BurstSize
    requires Valid(prev) && UfoInv(ufo) && Stance(runner) && newSpeed >= 0.0
    ensures Valid(AfterRunner(prev, ufo, runner, newSpeed, env, draws).state)
    ensures UfoInv(AfterRunner(prev, ufo, runner, newSpeed, env, draws).ufo)
  {
    var moved := MoveAndFilter(prev.obstacles, runner.x, RunnerSpeed * newSpeed);
    MovedSound(prev.obstacles, runner.x, RunnerSpeed * newSpeed);
    MoveKeepsBossCount(prev.obstacles, runner.x, RunnerSpeed * newSpeed);
    AfterMoveValid(prev, ufo, runner, newSpeed, moved, env, draws);
  }

  /** Every frame keeps the game-state invariant and the UFO's invariant. */
  lemma FrameKeepsValid(prev: GameState, ufo: Ufo, keys: Keys, env: Env, draws: Draws)
    requires |draws.burst| >= BurstSize
    requires Valid(prev) && UfoInv(ufo)
    ensures Valid(Step(prev, ufo, keys, env, draws).state)
    ensures UfoInv(Step(prev, ufo, keys, env, draws).ufo)
  {
    if prev.isRunning {
      var key := Key(prev.difficulty);
      var runner := RunnerStep(prev.runner, keys, env.groundLevel, JumpForceFor(key), GravityFor(key));
      var newSpeed := CalculateSpeed(prev.score, ConfigOf(prev.difficulty));
      SpeedBounds(prev.score, prev.difficulty);
      AfterRunnerValid(prev, ufo, runner, newSpeed, env, draws);
    }
  }

  // ---------------------------------------------------------------------
  // What a fatal frame and a surviving frame do to the state.

  /** A fatal frame stops the game and marks it over, records and persists
      the larger of the score and the stored high score, appends a burst of
      fresh particles, leaves the UFO, the score and everything else as it
      was, and keeps every obstacle where it was and of its kind. */
  ghost predicate Stopped(prev: GameState, ufo: Ufo, env: Env, f: FrameResult)
  {
    && f.persisted == Some(f.state.highScore)
    && f.state.highScore == Max(prev.score, env.storedHighScore)
    && f.ufo == ufo
    && f.state == prev.(isRunning := false, isGameOver := true, highScore := f.state.highScore,
                        particles := f.state.particles, obstacles := f.state.obstacles)
    && |f.state.particles| == |prev.particles| + BurstSize
    && f.state.particles[..|prev.particles|] == prev.particles
    && (forall i :: |prev.particles| <= i < |f.state.particles| ==> f.state.particles[i].life == 1.0)
    && |f.state.obstacles| == |prev.obstacles|
    && (forall i :: 0 <= i < |prev.obstacles| ==>
          f.state.obstacles[i].x == prev.obstacles[i].x && f.state.obstacles[i].kind == prev.obstacles[i].kind)
  }

  /** A surviving frame persists nothing and keeps the running flags, the
      high score, the difficulty and the theme; it moves the clock on by
      one, scores at least one point, only decays particles, adds at most two
      obstacles (a spawn and a UFO drop), and moves the last boss score
      only up to the milestone of the previous score. */
  ghost predicate Survived(prev: GameState, f: FrameResult)
  {
    && f.persisted == None
    && f.state == prev.(runner := f.state.runner, obstacles := f.state.obstacles, score := f.state.score,
                        speed := f.state.speed, particles := f.state.particles,
                        backgroundOffset := f.state.backgroundOffset, gameTime := prev.gameTime + 1,
                        bossActive := f.state.bossActive, lastBossScore := f.state.lastBossScore)
    && f.state.score >= prev.score + 1
    && |f.state.particles| <= |prev.particles|
    && |f.state.obstacles| <= |prev.obstacles| + 2
    && (f.state.lastBossScore == prev.lastBossScore ||
        (f.state.lastBossScore == Milestone(prev.score) && f.state.lastBossScore > prev.lastBossScore))
  }

  /** The last boss score after the spawn step: unchanged, or the milestone
      of the score, above the previous one. */
  predicate BossScoreMoved(prev: GameState, lastBoss: int)
  {
    lastBoss == prev.lastBossScore || (lastBoss == Milestone(prev.score) && lastBoss > prev.lastBossScore)
  }

  lemma GameOverStops(prev: GameState, ufo: Ufo, runner: Runner, env: Env, draws: Draws)
    requires |draws.burst| >= BurstSize
    ensures Stopped(prev, ufo, env, GameOver(prev, ufo, runner, env, draws))
  {
    var f := GameOver(prev, ufo, runner, env, draws);
    var burst := Burst(runner.x + 20.0, runner.y + 30.0, draws.burst[..BurstSize]);
    assert f.state.particles == prev.particles + burst;
    assert f.state.particles[..|prev.particles|] == prev.particles;
    forall i | 0 <= i < |prev.obstacles|
      ensures f.state.obstacles[i].x == prev.obstacles[i].x && f.state.obstacles[i].kind == prev.obstacles[i].kind
    {
      assert f.state.obstacles[i] == Advanced(prev.obstacles[i], runner.x);
    }
  }

  lemma ContinueSurvives(prev: GameState, ufo: Ufo, runner: Runner, newSpeed: real, checked: seq<Obstacle>,
                         bossActive: bool, lastBoss: int, env: Env, draws: Draws)
    requires |checked| <= |prev.obstacles| + 1
    requires BossScoreMoved(prev, lastBoss)
    ensures Survived(prev, Continue(prev, ufo, runner, newSpeed, checked, bossActive, lastBoss, env, draws))
    ensures Continue(prev, ufo, runner, newSpeed, checked, bossActive, lastBoss, env, draws).state.runner == runner
    ensures Continue(prev, ufo, runner, newSpeed, checked, bossActive, lastBoss, env, draws).state.speed == newSpeed
  {
    ContinueBasics(prev, ufo, runner, newSpeed, checked, bossActive, lastBoss, env, draws);
  }

  lemma ResolveOutcome(prev: GameState, ufo: Ufo, runner: Runner, newSpeed: real, spawned: seq<Obstacle>,
                       bossActive: bool, lastBoss: int, env: Env, draws: Draws)
    requires |draws.burst| >= BurstSize
    requires |spawned| <= |prev.obstacles| + 1
    requires BossScoreMoved(prev, lastBoss)
    ensures var f := Resolve(prev, ufo, runner, newSpeed, spawned, bossActive, lastBoss, env, draws);
      && (f.persisted.Some? <==> AnyFatal(runner, spawned))
      && (f.persisted.Some? ==> Stopped(prev, ufo, env, f))
      && (f.persisted.None? ==> Survived(prev, f) && f.state.runner == runner && f.state.speed == newSpeed)
  {
    if AnyFatal(runner, spawned) {
      GameOverStops(prev, ufo, runner, env, draws);
    } else {
      ContinueSurvives(prev, ufo, runner, newSpeed, MarkAll(runner, spawned), bossActive, lastBoss, env, draws);
    }
  }

  lemma AfterMoveOutcome(prev: GameState, ufo: Ufo, runner: Runner, newSpeed: real, moved: seq<Obstacle>, env: Env, draws: Draws)
    requires |draws.burst| >= BurstSize
    requires |moved| <= |prev.obstacles|
    ensures var f := AfterMove(prev, ufo, runner, newSpeed, moved, env, draws);
      && (f.persisted.Some? ==> Stopped(prev, ufo, env, f))
      && (f.persisted.None? ==> Survived(prev, f) && f.state.runner == runner && f.state.speed == newSpeed)
  {
    var bossActive := HasBoss(moved);
    var sp := Spawn(moved, bossActive, newSpeed, ConfigOf(prev.difficulty), prev.score, prev.lastBossScore, env.groundLevel, draws.spawn);
    ResolveOutcome(prev, ufo, runner, newSpeed, sp.0, bossActive, sp.1, env, draws);
  }

  lemma AfterRunnerOutcome(prev: GameState, ufo: Ufo, runner: Runner, newSpeed: real, env: Env, draws: Draws)
    requires |draws.burst| >= BurstSize
    ensures var f := AfterRunner(prev, ufo, runner, newSpeed, env, draws);
      && (f.persisted.Some? ==> Stopped(prev, ufo, env, f))
      && (f.persisted.None? ==> Survived(prev, f) && f.state.runner == runner && f.state.speed == newSpeed)
  {
    var moved := MoveAndFilter(prev.obstacles, runner.x, RunnerSpeed * newSpeed);
    AfterMoveOutcome(prev, ufo, runner, newSpeed, moved, env, draws);
  }

  /** A paused frame changes nothing. A running frame either ends the game
      (and is the only kind of frame that persists a high score) or
      survives with the speed of the speed curve at the previous score and
      the runner moved by the runner physics at the difficulty's jump force
      and gravity. */
  lemma FrameOutcome(prev: GameState, ufo: Ufo, keys: Keys, env: Env, draws: Draws)
    requires |draws.burst| >= BurstSize
    ensures var f := Step(prev, ufo, keys, env, draws);
      && (!prev.isRunning ==> f == FrameResult(prev, ufo, None))
      && (prev.isRunning && f.persisted.Some? ==> Stopped(prev, ufo, env, f))
      && (prev.isRunning && f.persisted.None? ==>
            && Survived(prev, f) && f.state.isRunning
            && f.state.speed == CalculateSpeed(prev.score, ConfigOf(prev.difficulty))
            && f.state.runner == RunnerStep(prev.runner, keys, env.groundLevel,
                                            JumpForceFor(Key(prev.difficulty)), GravityFor(Key(prev.difficulty))))
  {
    if prev.isRunning {
      var key := Key(prev.difficulty);
      var runner := RunnerStep(prev.runner, keys, env.groundLevel, JumpForceFor(key), GravityFor(key));
      var newSpeed := CalculateSpeed(prev.score, ConfigOf(prev.difficulty));
      AfterRunnerOutcome(prev, ufo, runner, newSpeed, env, draws);
    }
  }
}
