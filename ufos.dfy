/** The UFO side encounter. An inactive UFO waits out its cooldown; it may
    activate off-screen on the left when no boss is present and the lane is
    clear, then flies right at 1.5 per frame. At most once per flyby it may
    drop a jump obstacle over a clear stretch of lane; the obstacle falls 6
    per frame and, once on the ground, is handed to the obstacle list.
    Past the right edge the UFO is reset with an 1800-frame cooldown. */
module Ufos {
  import opened Common
  import opened Config
  import opened Entities

  datatype Ufo = Ufo(
    active: bool,
    x: real,
    y: real,
    isDropping: bool,
    dropY: real,
    dropObstacle: Option<Obstacle>,
    hasDropped: bool,
    cooldown: int)

  /** The draws of one UFO update: activation, height, drop and archetype. */
  datatype UfoDraws = UfoDraws(activate: Unit, y: Unit, drop: Unit, pick: Unit)

  const UfoSpeed: real := 1.5
  const FallSpeed: real := 6.0
  const SafeGap: real := 200.0
  const DropWidth: real := 60.0
  const ExitCooldown: int := 1800

  /** The UFO before the first game: inactive just left of the screen. */
  const InitialUfo: Ufo := Ufo(false, -100.0, 60.0, false, 0.0, None, false, 0)

  /** The UFO as a new game resets it. */
  const ResetUfo: Ufo := Ufo(false, -200.0, 60.0, false, 0.0, None, false, 0)

  function CooledDown(u: Ufo): Ufo
  {
    if u.cooldown > 0 then u.(cooldown := u.cooldown - 1) else u
  }

  /** No obstacle lies in the band where a drop could land soon. */
  predicate LaneClear(obs: seq<Obstacle>)
  {
    |obs| == 0 || forall i :: 0 <= i < |obs| ==> obs[i].x > 600.0 || obs[i].x < -100.0
  }

  /** The activation test, on the UFO after its cooldown step. */
  predicate CanActivate(u: Ufo, bossActive: bool)
  {
    !u.active && u.x <= -100.0 && u.cooldown <= 0 && !bossActive
  }

  function Activated(u: Ufo, obs: seq<Obstacle>, bossActive: bool, r: UfoDraws): Ufo
  {
    if CanActivate(u, bossActive) && LaneClear(obs) && r.activate < 0.001 then
      u.(active := true, x := -100.0, y := 60.0 + r.y * 40.0, isDropping := false,
         dropObstacle := None, hasDropped := false)
    else u
  }

  /** No obstacle reaches into the drop zone widened by the safety gap. */
  predicate DropZoneClear(obs: seq<Obstacle>, dropX: real)
  {
    !exists i :: 0 <= i < |obs| && obs[i].x + obs[i].width > dropX - SafeGap && obs[i].x < dropX + DropWidth + SafeGap
  }

  /** The last obstacle of the list lies wholly outside the widened zone. */
  predicate LastObstacleClear(obs: seq<Obstacle>, dropX: real)
  {
    |obs| == 0 ||
    var last := obs[|obs| - 1];
    last.x + last.width < dropX - SafeGap || last.x > dropX + DropWidth + SafeGap
  }

  /** A moved UFO may start a drop: none this flyby yet, over the middle of
      the screen, with the lane clear around the drop point. */
  predicate MayDrop(m: Ufo, obs: seq<Obstacle>, windowWidth: real)
  {
    && !m.isDropping && !m.hasDropped && m.x > 300.0 && m.x < windowWidth - 300.0
    && DropZoneClear(obs, m.x + 24.0) && LastObstacleClear(obs, m.x + 24.0)
  }

  function Loaded(m: Ufo, obs: seq<Obstacle>, groundLevel: real, windowWidth: real, r: UfoDraws): Ufo
  {
    if MayDrop(m, obs, windowWidth) && r.drop < 0.015 then
      var a := JumpObstacles[PickIndex(r.pick, |JumpObstacles|)];
      m.(isDropping := true, hasDropped := true, dropY := groundLevel - 80.0,
         dropObstacle := Some(Plain(a, m.x + 24.0, m.y + 48.0)))
    else m
  }

  /** The falling obstacle moves down; on reaching its target height it is
      released, sitting exactly at that height. */
  function Fallen(l: Ufo): (Ufo, Option<Obstacle>)
  {
    if l.isDropping && l.dropObstacle.Some? then
      var drop := l.dropObstacle.value.(y := l.dropObstacle.value.y + FallSpeed);
      if drop.y >= l.dropY then (l.(isDropping := false, dropObstacle := None), Some(drop.(y := l.dropY)))
      else (l.(dropObstacle := Some(drop)), None)
    else (l, None)
  }

  function Departed(f: Ufo, windowWidth: real): Ufo
  {
    if f.x > windowWidth + 120.0 then
      f.(active := false, x := -200.0, isDropping := false, dropObstacle := None,
         hasDropped := false, cooldown := ExitCooldown)
    else f
  }

  /** A dropped obstacle: a jump archetype placed where the UFO let it go. */
  ghost predicate IsJumpDrop(o: Obstacle)
  {
    exists a :: a in JumpObstacles && o == Plain(a, o.x, o.y)
  }

  /** The UFO's state is consistent: an obstacle is in flight exactly while
      dropping, only during a flyby that has used its drop, and it is a jump
      archetype. */
  ghost predicate UfoInv(u: Ufo)
  {
    && (u.isDropping <==> u.dropObstacle.Some?)
    && (u.isDropping ==> u.active && u.hasDropped)
    && (u.dropObstacle.Some? ==> IsJumpDrop(u.dropObstacle.value))
  }

  /** The drops the current flyby can still hand over: one while nothing
      has been dropped or while a drop is in flight, none afterwards. */
  function Budget(u: Ufo): nat
  {
    if u.isDropping || !u.hasDropped then 1 else 0
  }

  /** One UFO update: the UFO's next state and the obstacle it hands over
      to the obstacle list, if any. */
  function UfoStep(u: Ufo, obs: seq<Obstacle>, bossActive: bool, groundLevel: real, windowWidth: real, r: UfoDraws): (Ufo, Option<Obstacle>)
  {
    var a := Activated(CooledDown(u), obs, bossActive, r);
    if !a.active then (a, None) else Flown(a, obs, groundLevel, windowWidth, r)
  }

  /** The flight of an active UFO in one frame: move, maybe start a drop,
      let the drop fall, and leave past the right edge. */
  function Flown(a: Ufo, obs: seq<Obstacle>, groundLevel: real, windowWidth: real, r: UfoDraws): (Ufo, Option<Obstacle>)
  {
    var (f, landed) := Fallen(Loaded(a.(x := a.x + UfoSpeed), obs, groundLevel, windowWidth, r));
    (Departed(f, windowWidth), landed)
  }

  /** An inactive UFO activates only through its guard (cooldown over, no
      boss, lane clear, draw below 0.001), hands nothing over, and otherwise
      only counts its cooldown down. */
  lemma InactiveStep(u: Ufo, obs: seq<Obstacle>, bossActive: bool, groundLevel: real, windowWidth: real, r: UfoDraws)
    ensures var res := UfoStep(u, obs, bossActive, groundLevel, windowWidth, r);
      && (res.0.active && !u.active ==>
            u.x <= -100.0 && u.cooldown <= 1 && !bossActive && LaneClear(obs) && r.activate < 0.001)
      && (!u.active ==> res.1 == None)
      && (!u.active && !res.0.active && windowWidth >= 0.0 ==> res.0 == CooledDown(u))
  {
  }

  /** An active UFO flies 1.5 to the right, and once past 120 beyond the
      right edge it is reset: inactive at x = -200, its drop state cleared,
      with an 1800-frame cooldown. */
  lemma FlightAndExit(u: Ufo, obs: seq<Obstacle>, bossActive: bool, groundLevel: real, windowWidth: real, r: UfoDraws)
    ensures var res := UfoStep(u, obs, bossActive, groundLevel, windowWidth, r);
      && (u.active && u.x + UfoSpeed > windowWidth + 120.0 ==>
            && !res.0.active && res.0.x == -200.0 && res.0.cooldown == ExitCooldown
            && !res.0.hasDropped && !res.0.isDropping && res.0.dropObstacle == None)
      && (u.active && u.x + UfoSpeed <= windowWidth + 120.0 ==> res.0.active && res.0.x == u.x + UfoSpeed)
  {
  }

  /** A jump drop moved vertically is still a jump drop, and it is an
      unpassed jump obstacle. */
  lemma MovedDrop(o: Obstacle, y: real)
    requires IsJumpDrop(o)
    ensures IsJumpDrop(o.(y := y)) && o.kind == Jump && !o.passed
  {
    TablesWellFormed();
    var a :| a in JumpObstacles && o == Plain(a, o.x, o.y);
    assert o.(y := y) == Plain(a, o.x, y);
  }

  /** The falling phase keeps the state consistent and releases a jump drop. */
  lemma FallenKeepsInv(l: Ufo)
    requires UfoInv(l)
    ensures UfoInv(Fallen(l).0)
    ensures Fallen(l).1.Some? ==> IsJumpDrop(Fallen(l).1.value) && Fallen(l).1.value.kind == Jump && !Fallen(l).1.value.passed
  {
    if l.isDropping && l.dropObstacle.Some? {
      var o := l.dropObstacle.value;
      MovedDrop(o, o.y + FallSpeed);
      MovedDrop(o, l.dropY);
    }
  }

  /** A handed-over obstacle sits exactly at the drop height, and from a
      consistent state it is an unpassed jump archetype and the UFO stays
      consistent. */
  lemma DropLandsAsJump(u: Ufo, obs: seq<Obstacle>, bossActive: bool, groundLevel: real, windowWidth: real, r: UfoDraws)
    ensures var res := UfoStep(u, obs, bossActive, groundLevel, windowWidth, r);
      && (res.1.Some? ==> res.1.value.y == res.0.dropY)
      && (UfoInv(u) ==> UfoInv(res.0))
      && (UfoInv(u) && res.1.Some? ==> IsJumpDrop(res.1.value) && res.1.value.kind == Jump && !res.1.value.passed)
  {
    var a := Activated(CooledDown(u), obs, bossActive, r);
    if a.active && UfoInv(u) {
      assert UfoInv(a);
      var m := a.(x := a.x + UfoSpeed);
      var l := Loaded(m, obs, groundLevel, windowWidth, r);
      if l.dropObstacle.Some? && !m.dropObstacle.Some? {
        var k := JumpObstacles[PickIndex(r.pick, |JumpObstacles|)];
        assert k in JumpObstacles;
        assert l.dropObstacle.value == Plain(k, m.x + 24.0, m.y + 48.0);
      }
      assert UfoInv(l);
      FallenKeepsInv(l);
    }
  }

  /** Each handed-over obstacle uses up the flyby's drop budget. */
  lemma BudgetSpent(u: Ufo, obs: seq<Obstacle>, bossActive: bool, groundLevel: real, windowWidth: real, r: UfoDraws)
    requires UfoInv(u) && u.active
    ensures var res := UfoStep(u, obs, bossActive, groundLevel, windowWidth, r);
      && (if res.1.Some? then 1 else 0) <= Budget(u)
      && (res.0.active ==> Budget(res.0) + (if res.1.Some? then 1 else 0) <= Budget(u))
  {
  }

  /** The UFO update, mutating a working copy field by field. */
  method UpdateUfo(ufoPrev: Ufo, newObstacles: seq<Obstacle>, bossActive: bool, groundLevel: real, windowWidth: real, r: UfoDraws)
    returns (next: Ufo, landed: Option<Obstacle>)
    ensures (next, landed) == UfoStep(ufoPrev, newObstacles, bossActive, groundLevel, windowWidth, r)
  {
    next := ufoPrev;
    landed := None;

    if next.cooldown > 0 {
      next := next.(cooldown := next.cooldown - 1);
    }

    if !ufoPrev.active && next.x <= -100.0 && next.cooldown <= 0 && !bossActive {
      var hasEnoughSpace := |newObstacles| == 0 ||
        forall i :: 0 <= i < |newObstacles| ==> newObstacles[i].x > 600.0 || newObstacles[i].x < -100.0;
      if hasEnoughSpace && r.activate < 0.001 {
        next := next.(active := true, x := -100.0, y := 60.0 + r.y * 40.0);
        next := next.(isDropping := false, dropObstacle := None, hasDropped := false);
      }
    }

    if next.active {
      next, landed := Fly(next, newObstacles, groundLevel, windowWidth, r);
    }
  }

  /** The active part of the UFO update. */
  method Fly(ufo: Ufo, newObstacles: seq<Obstacle>, groundLevel: real, windowWidth: real, r: UfoDraws)
    returns (next: Ufo, landed: Option<Obstacle>)
    ensures (next, landed) == Flown(ufo, newObstacles, groundLevel, windowWidth, r)
  {
    next := ufo.(x := ufo.x + 1.5);
    landed := None;

    if !next.isDropping && !next.hasDropped && next.x > 300.0 && next.x < windowWidth - 300.0 {
      var dropX := next.x + 24.0;
      var dropWidth := 60.0;
      var safeGap := 200.0;
      var clear := !exists i :: 0 <= i < |newObstacles| &&
                                newObstacles[i].x + newObstacles[i].width > dropX - safeGap &&
                                newObstacles[i].x < dropX + dropWidth + safeGap;
      var lastObstacleClear := |newObstacles| == 0 ||
        var last := newObstacles[|newObstacles| - 1];
        last.x + last.width < dropX - safeGap || last.x > dropX + dropWidth + safeGap;
      if clear && lastObstacleClear && r.drop < 0.015 {
        next := next.(isDropping := true, hasDropped := true, dropY := groundLevel - 80.0);
        var config := JumpObstacles[PickIndex(r.pick, |JumpObstacles|)];
        next := next.(dropObstacle := Some(Plain(config, next.x + 24.0, next.y + 48.0)));
      }
    }
    assert next == Loaded(ufo.(x := ufo.x + UfoSpeed), newObstacles, groundLevel, windowWidth, r);

    if next.isDropping && next.dropObstacle.Some? {
      var drop := next.dropObstacle.value;
      drop := drop.(y := drop.y + 6.0);
      if drop.y >= next.dropY {
        drop := drop.(y := next.dropY);
        landed := Some(drop);
        next := next.(isDropping := false, dropObstacle := None);
      } else {
        next := next.(dropObstacle := Some(drop));
      }
    }

    if next.x > windowWidth + 120.0 {
      next := next.(active := false, x := -200.0, isDropping := false, dropObstacle := None);
      next := next.(hasDropped := false, cooldown := 1800);
    }
  }

  /** The inputs of one UFO update. */
  datatype UfoFrame = UfoFrame(obs: seq<Obstacle>, bossActive: bool, groundLevel: real, windowWidth: real, draws: UfoDraws)

  /** The obstacles handed over while the UFO stays on its flyby: counting
      stops at the first frame that starts with the UFO inactive. */
  function DropsDuringFlyby(u: Ufo, frames: seq<UfoFrame>): nat
    decreases |frames|
  {
    if frames == [] || !u.active then 0
    else
      var f := frames[0];
      var res := UfoStep(u, f.obs, f.bossActive, f.groundLevel, f.windowWidth, f.draws);
      (if res.1.Some? then 1 else 0) + DropsDuringFlyby(res.0, frames[1..])
  }

  /** Whatever the obstacles, window and draws, a flyby hands over at most
      one obstacle, and none once its drop has been used. */
  lemma {:induction false} AtMostOneDropPerFlyby(u: Ufo, frames: seq<UfoFrame>)
    requires UfoInv(u)
    ensures DropsDuringFlyby(u, frames) <= Budget(u) <= 1
    decreases |frames|
  {
    if frames != [] && u.active {
      var f := frames[0];
      var res := UfoStep(u, f.obs, f.bossActive, f.groundLevel, f.windowWidth, f.draws);
      DropLandsAsJump(u, f.obs, f.bossActive, f.groundLevel, f.windowWidth, f.draws);
      BudgetSpent(u, f.obs, f.bossActive, f.groundLevel, f.windowWidth, f.draws);
      AtMostOneDropPerFlyby(res.0, frames[1..]);
    }
  }
}
