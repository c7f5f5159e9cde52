/** The obstacle list in one frame: every boss is updated and everything
    scrolls left, obstacles gone off screen or destroyed are dropped, a new
    obstacle may spawn on the right, the runner is checked against each
    obstacle, and obstacles the runner has cleared pay their bonus once. */
module Field {
  import opened Common
  import opened Config
  import opened Entities
  import opened Generator
  import opened Collision
  import opened Bosses

  /** An obstacle after its boss update, if it is a boss. */
  function Advanced(o: Obstacle, runnerX: real): Obstacle
  {
    if o.kind == Boss then BossStep(o, runnerX) else o
  }

  /** An obstacle after its boss update and the frame's scroll. */
  function Moved(o: Obstacle, runnerX: real, shift: real): Obstacle
  {
    var a := Advanced(o, runnerX);
    a.(x := a.x - shift)
  }

  /** An obstacle stays while it is right of x = -200 and not destroyed. */
  predicate Survives(o: Obstacle)
  {
    o.x > -200.0 && !o.destroyed
  }

  /** The list with every boss updated where it stands: the boss update
      changes the very objects of the previous list. */
  function StepBosses(obs: seq<Obstacle>, runnerX: real): (r: seq<Obstacle>)
    ensures |r| == |obs|
    ensures forall i :: 0 <= i < |obs| ==> r[i] == Advanced(obs[i], runnerX)
  {
    if obs == [] then [] else StepBosses(obs[..|obs| - 1], runnerX) + [Advanced(obs[|obs| - 1], runnerX)]
  }

  /** The moved obstacles that survive, in order. No boss is created. */
  function MoveAndFilter(obs: seq<Obstacle>, runnerX: real, shift: real): (r: seq<Obstacle>)
    ensures |r| <= |obs|
    ensures forall i :: 0 <= i < |r| ==> Survives(r[i])
    ensures forall o :: o in r ==> exists j :: 0 <= j < |obs| && o == Moved(obs[j], runnerX, shift)
    ensures forall j :: 0 <= j < |obs| && Survives(Moved(obs[j], runnerX, shift)) ==> Moved(obs[j], runnerX, shift) in r
  {
    if obs == [] then []
    else
      var n := |obs| - 1;
      var rest := MoveAndFilter(obs[..n], runnerX, shift);
      var m := Moved(obs[n], runnerX, shift);
      assert obs == obs[..n] + [obs[n]];
      assert forall j :: 0 <= j < n ==> obs[..n][j] == obs[j];
      if Survives(m) then rest + [m] else rest
  }

  /** Moving and filtering never adds a boss. */
  lemma {:induction false} MoveKeepsBossCount(obs: seq<Obstacle>, runnerX: real, shift: real)
    ensures BossCount(MoveAndFilter(obs, runnerX, shift)) <= BossCount(obs)
  {
    if obs != [] {
      var n := |obs| - 1;
      var rest := MoveAndFilter(obs[..n], runnerX, shift);
      var m := Moved(obs[n], runnerX, shift);
      MoveKeepsBossCount(obs[..n], runnerX, shift);
      assert m.kind == obs[n].kind;
      if Survives(m) {
        assert (rest + [m])[..|rest|] == rest;
      }
    }
  }

  /** One more obstacle at the end of the list: its moved form is kept iff
      it survives, and its boss update is appended. */
  lemma MoveAndFilterSnoc(obs: seq<Obstacle>, o: Obstacle, runnerX: real, shift: real)
    ensures MoveAndFilter(obs + [o], runnerX, shift) ==
      MoveAndFilter(obs, runnerX, shift) + (if Survives(Moved(o, runnerX, shift)) then [Moved(o, runnerX, shift)] else [])
    ensures StepBosses(obs + [o], runnerX) == StepBosses(obs, runnerX) + [Advanced(o, runnerX)]
  {
    assert (obs + [o])[..|obs|] == obs;
  }

  /** The map callback: a boss is updated, then the obstacle is scrolled.
      It returns the updated obstacle and its scrolled copy. */
  method MoveOne(obstacle: Obstacle, runnerX: real, currentSpeed: real) returns (updated: Obstacle, moved: Obstacle)
    ensures updated == Advanced(obstacle, runnerX)
    ensures moved == Moved(obstacle, runnerX, currentSpeed)
  {
    updated := obstacle;
    if updated.kind == Boss {
      updated := UpdateBoss(updated, runnerX);
    }
    moved := updated.(x := updated.x - currentSpeed);
  }

  /** The boss update and scroll of every obstacle, in one pass over the
      previous list. Besides the new list it returns the previous list as the
      in-place boss update leaves it. */
  method MoveObstacles(obstacles: seq<Obstacle>, runnerX: real, currentSpeed: real) returns (newObstacles: seq<Obstacle>, touched: seq<Obstacle>)
    ensures newObstacles == MoveAndFilter(obstacles, runnerX, currentSpeed)
    ensures touched == StepBosses(obstacles, runnerX)
  {
    newObstacles := [];
    touched := [];
    for i := 0 to |obstacles|
      invariant newObstacles == MoveAndFilter(obstacles[..i], runnerX, currentSpeed)
      invariant touched == StepBosses(obstacles[..i], runnerX)
    {
      var obstacle, moved := MoveOne(obstacles[i], runnerX, currentSpeed);
      touched := touched + [obstacle];
      if moved.x > -200.0 && !moved.destroyed {
        newObstacles := newObstacles + [moved];
      }
      assert obstacles[..i + 1] == obstacles[..i] + [obstacles[i]];
      MoveAndFilterSnoc(obstacles[..i], obstacles[i], runnerX, currentSpeed);
    }
    assert obstacles[..|obstacles|] == obstacles;
  }

  /** A boss is on the field. */
  function HasBoss(obs: seq<Obstacle>): (b: bool)
    ensures b <==> BossCount(obs) > 0
  {
    exists i :: 0 <= i < |obs| && obs[i].kind == Boss
  }

  /** The draws of the spawn step: the spawn chance, the offset of the new
      obstacle and the draws of the obstacle generator. */
  datatype SpawnDraws = SpawnDraws(spawn: Unit, offset: Unit, gen: GenDraws)

  /** There is room on the right: the list is empty, or the last obstacle is
      farther than the speed-dependent minimum distance from x = 800. */
  predicate Room(obs: seq<Obstacle>, newSpeed: real)
  {
    |obs| == 0 || 800.0 - obs[|obs| - 1].x > MinObstacleDistance + (newSpeed - 1.0) * 20.0
  }

  /** The spawn step: with no boss on the field, room on the right and the
      spawn draw below the spawn rate, one generated obstacle is appended at
      x in [800, 900); a spawned boss records its milestone as the last boss
      score. */
  function Spawn(obs: seq<Obstacle>, bossActive: bool, newSpeed: real, c: DifficultyConfig, score: int,
                 lastBossScore: int, groundLevel: real, d: SpawnDraws): (res: (seq<Obstacle>, int))
    ensures bossActive ==> res == (obs, lastBossScore)
    ensures res.0 == obs || (|res.0| == |obs| + 1 && res.0[..|obs|] == obs)
    ensures |res.0| == |obs| + 1 <==> !bossActive && Room(obs, newSpeed) && d.spawn < ObstacleSpawnRate(newSpeed, c)
    ensures |res.0| == |obs| + 1 ==>
      && 800.0 <= res.0[|obs|].x < 900.0 && !res.0[|obs|].passed && !res.0[|obs|].destroyed
      && (res.0[|obs|].kind == Boss <==> ShouldSpawnBoss(score, lastBossScore, d.gen.boss))
      && (res.0[|obs|].kind == Boss ==> !res.0[|obs|].isShooting && res.0[|obs|].shootTimer == 0 && res.0[|obs|].bullets == [])
    ensures res.1 != lastBossScore <==> |res.0| == |obs| + 1 && res.0[|obs|].kind == Boss
    ensures res.1 != lastBossScore ==> res.1 == Milestone(score) && res.1 > lastBossScore
    ensures !bossActive && !HasBoss(obs) ==> BossCount(res.0) <= 1
  {
    if !bossActive && Room(obs, newSpeed) && d.spawn < ObstacleSpawnRate(newSpeed, c) then
      var o := GenerateObstacle(800.0 + d.offset * 100.0, score, lastBossScore, groundLevel, d.gen);
      BossCountAppend(obs, [o]);
      assert [o][..0] == [];
      assert (obs + [o])[..|obs|] == obs;
      (obs + [o], if o.kind == Boss then o.spawnScore else lastBossScore)
    else (obs, lastBossScore)
  }

  /** The spawn step as the frame update writes it, pushing onto the list. */
  method SpawnObstacle(newObstacles: seq<Obstacle>, bossActive: bool, newSpeed: real, difficultyConfig: DifficultyConfig, score: int,
                       lastBossScore: int, groundLevel: real, d: SpawnDraws)
    returns (obstacles: seq<Obstacle>, newLastBossScore: int)
    ensures (obstacles, newLastBossScore) == Spawn(newObstacles, bossActive, newSpeed, difficultyConfig, score, lastBossScore, groundLevel, d)
  {
    obstacles := newObstacles;
    newLastBossScore := lastBossScore;
    if !bossActive {
      var minDistance := MinObstacleDistance + (newSpeed - 1.0) * 20.0;
      var shouldSpawn := |obstacles| == 0 || 800.0 - obstacles[|obstacles| - 1].x > minDistance;
      var spawnRate := ObstacleSpawnRate(newSpeed, difficultyConfig);
      if shouldSpawn && d.spawn < spawnRate {
        var newObstacle := GenerateObstacle(800.0 + d.offset * 100.0, score, lastBossScore, groundLevel, d.gen);
        if newObstacle.kind == Boss {
          newLastBossScore := newObstacle.spawnScore;
        }
        obstacles := obstacles + [newObstacle];
      }
    }
  }

  /** Some obstacle of the list is fatal to the runner. */
  ghost predicate AnyFatal(r: Runner, obs: seq<Obstacle>)
  {
    exists i :: 0 <= i < |obs| && Fatal(r, obs[i])
  }

  /** The list after a full collision pass: touched bosses are destroyed. */
  function MarkAll(r: Runner, obs: seq<Obstacle>): (res: seq<Obstacle>)
    ensures |res| == |obs|
    ensures forall i :: 0 <= i < |obs| ==> res[i] == AfterCheck(r, obs[i])
  {
    if obs == [] then [] else MarkAll(r, obs[..|obs| - 1]) + [AfterCheck(r, obs[|obs| - 1])]
  }

  /** The collision pass: each obstacle is checked in order and the pass
      stops at the first fatal one. It reports a collision exactly when
      some obstacle is fatal; without one, every touched boss is marked. */
  method CheckCollisions(runner: Runner, obstacles: seq<Obstacle>) returns (collision: bool, checked: seq<Obstacle>)
    ensures collision == AnyFatal(runner, obstacles)
    ensures !collision ==> checked == MarkAll(runner, obstacles)
  {
    collision := false;
    checked := obstacles;
    var i := 0;
    while i < |checked|
      invariant 0 <= i <= |checked| == |obstacles|
      invariant forall j :: 0 <= j < i ==> !Fatal(runner, obstacles[j]) && checked[j] == AfterCheck(runner, obstacles[j])
      invariant forall j :: i <= j < |obstacles| ==> checked[j] == obstacles[j]
    {
      var hit, obstacle := CheckCollision(runner, checked[i]);
      checked := checked[i := obstacle];
      if hit {
        collision := true;
        break;
      }
      i := i + 1;
    }
    if !collision {
      assert !AnyFatal(runner, obstacles);
    }
  }

  /** The runner has cleared an obstacle that has not yet paid its bonus. */
  predicate Passes(o: Obstacle, runnerX: real)
  {
    !o.passed && o.x + o.width < runnerX
  }

  /** The bonus an obstacle pays: 100 for a boss, 15 for a duck obstacle and
      10 for a jump obstacle, times the score multiplier. */
  function BonusOf(o: Obstacle, m: real): real
  {
    match o.kind
    case Boss => 100.0 * m
    case Duck => 15.0 * m
    case Jump => 10.0 * m
  }

  /** The total bonus the cleared, unpaid obstacles of a list pay. */
  function Bonus(obs: seq<Obstacle>, runnerX: real, m: real): real
  {
    if obs == [] then 0.0
    else
      var n := |obs| - 1;
      Bonus(obs[..n], runnerX, m) + (if Passes(obs[n], runnerX) then BonusOf(obs[n], m) else 0.0)
  }

  /** With a non-negative multiplier the bonus lies between 0 and 100 times
      the multiplier per obstacle, and a list with nothing newly cleared
      pays nothing. */
  lemma {:induction false} BonusBounds(obs: seq<Obstacle>, runnerX: real, m: real)
    ensures m >= 0.0 ==> 0.0 <= Bonus(obs, runnerX, m) <= 100.0 * m * |obs| as real
    ensures (forall i :: 0 <= i < |obs| ==> !Passes(obs[i], runnerX)) ==> Bonus(obs, runnerX, m) == 0.0
  {
    if obs != [] {
      var n := |obs| - 1;
      BonusBounds(obs[..n], runnerX, m);
      assert forall i :: 0 <= i < n ==> obs[..n][i] == obs[i];
      if m >= 0.0 {
        assert 100.0 * m * n as real + 100.0 * m == 100.0 * m * |obs| as real;
      }
    }
  }

  /** The list with every cleared, unpaid obstacle marked as paid. */
  function MarkPassed(obs: seq<Obstacle>, runnerX: real): (r: seq<Obstacle>)
    ensures |r| == |obs|
    ensures forall i :: 0 <= i < |obs| ==> r[i] == if Passes(obs[i], runnerX) then obs[i].(passed := true) else obs[i]
  {
    if obs == [] then []
    else
      var o := obs[|obs| - 1];
      MarkPassed(obs[..|obs| - 1], runnerX) + [if Passes(o, runnerX) then o.(passed := true) else o]
  }

  /** One more obstacle at the end of the list is marked and pays on its own. */
  lemma MarkPassedSnoc(obs: seq<Obstacle>, o: Obstacle, runnerX: real, m: real)
    ensures MarkPassed(obs + [o], runnerX) == MarkPassed(obs, runnerX) + [if Passes(o, runnerX) then o.(passed := true) else o]
    ensures Bonus(obs + [o], runnerX, m) == Bonus(obs, runnerX, m) + (if Passes(o, runnerX) then BonusOf(o, m) else 0.0)
  {
    assert (obs + [o])[..|obs|] == obs;
  }

  /** The forEach callback: a cleared, unpaid obstacle is marked and its
      bonus added to the running score. */
  method PayOne(obstacle: Obstacle, runnerX: real, m: real, score: real) returns (paid: Obstacle, newScore: real)
    ensures paid == if Passes(obstacle, runnerX) then obstacle.(passed := true) else obstacle
    ensures newScore == score + if Passes(obstacle, runnerX) then BonusOf(obstacle, m) else 0.0
  {
    paid := obstacle;
    newScore := score;
    if !paid.passed && paid.x + paid.width < runnerX {
      paid := paid.(passed := true);
      if paid.kind == Boss {
        newScore := newScore + 100.0 * m;
      } else if paid.kind == Duck {
        newScore := newScore + 15.0 * m;
      } else {
        newScore := newScore + 10.0 * m;
      }
    }
  }

  /** The bonus pass: each cleared, unpaid obstacle is marked and its bonus
      added to the running score. */
  method AwardBonuses(obstacles: seq<Obstacle>, runnerX: real, m: real, score: real) returns (marked: seq<Obstacle>, newScore: real)
    ensures marked == MarkPassed(obstacles, runnerX)
    ensures newScore == score + Bonus(obstacles, runnerX, m)
  {
    marked := [];
    newScore := score;
    for i := 0 to |obstacles|
      invariant marked == MarkPassed(obstacles[..i], runnerX)
      invariant newScore == score + Bonus(obstacles[..i], runnerX, m)
    {
      var obstacle;
      obstacle, newScore := PayOne(obstacles[i], runnerX, m, newScore);
      marked := marked + [obstacle];
      assert obstacles[..i + 1] == obstacles[..i] + [obstacles[i]];
      MarkPassedSnoc(obstacles[..i], obstacles[i], runnerX, m);
    }
    assert obstacles[..|obstacles|] == obstacles;
  }



  /** Paying is once only: after the bonus pass, the same runner position
      finds nothing left to pay, and a second pass changes nothing. */
  lemma {:induction false} BonusPaidOnce(obs: seq<Obstacle>, runnerX: real, m: real)
    ensures Bonus(MarkPassed(obs, runnerX), runnerX, m) == 0.0
    ensures MarkPassed(MarkPassed(obs, runnerX), runnerX) == MarkPassed(obs, runnerX)
  {
    var marked := MarkPassed(obs, runnerX);
    assert forall i :: 0 <= i < |marked| ==> !Passes(marked[i], runnerX);
    BonusBounds(marked, runnerX, m);
  }

  /** A boss destroyed by contact never pays the boss bonus: a runner
      touching it has not cleared it. */
  lemma DestroyedBossPaysNothing(r: Runner, o: Obstacle)
    requires o.kind == Boss && !o.destroyed && AfterCheck(r, o).destroyed
    ensures !Passes(AfterCheck(r, o), r.x)
    ensures Bonus([AfterCheck(r, o)], r.x, 1.0) == 0.0
  {
    assert [AfterCheck(r, o)][..0] == [];
    BonusBounds([AfterCheck(r, o)], r.x, 1.0);
  }
}
