/** The boss's per-frame behaviour: it starts a 180-frame shooting phase when
    the runner is ahead of it and within 400 units, fires a bullet whenever
    the decremented timer is a multiple of 20, goes idle when the timer runs
    out, and moves its bullets, dropping those past x = -50. A destroyed
    boss is left alone. */
module Bosses {
  import opened Common
  import opened Config
  import opened Entities

  const ShootRange: real := 400.0
  const ShotCadence: int := 20
  const BulletLimit: real := -50.0

  /** A fresh bullet at the boss's lower front, flying left at 8 per frame. */
  function NewBullet(b: Obstacle): Bullet
  {
    Bullet(b.x - 10.0, b.y + b.height - 24.0, 8.0, 4.0, -8.0)
  }

  function MoveBullet(b: Bullet): Bullet
  {
    b.(x := b.x + b.velocityX)
  }

  /** Every bullet moves by its velocity; those no longer right of x = -50
      are dropped. The kept bullets are exactly the moved bullets that are
      still right of the limit. */
  function AdvanceBullets(bs: seq<Bullet>): (r: seq<Bullet>)
    ensures |r| <= |bs|
    ensures forall i :: 0 <= i < |r| ==> r[i].x > BulletLimit
    ensures forall b :: b in r ==> exists j :: 0 <= j < |bs| && b == MoveBullet(bs[j])
    ensures forall j :: 0 <= j < |bs| && MoveBullet(bs[j]).x > BulletLimit ==> MoveBullet(bs[j]) in r
  {
    if bs == [] then []
    else
      var moved := MoveBullet(bs[0]);
      var rest := AdvanceBullets(bs[1..]);
      assert forall j :: 1 <= j < |bs| ==> bs[j] == bs[1..][j - 1];
      (if moved.x > BulletLimit then [moved] else []) + rest
  }

  /** Advancing bullets works bullet by bullet: the result for a list is
      the result for its front followed by the result for its back, so the
      kept bullets are in their original order, each kept once. */
  lemma {:induction false} AdvanceBulletsAppend(a: seq<Bullet>, b: seq<Bullet>)
    ensures AdvanceBullets(a + b) == AdvanceBullets(a) + AdvanceBullets(b)
  {
    if a != [] {
      assert (a + b)[1..] == a[1..] + b;
      AdvanceBulletsAppend(a[1..], b);
    } else {
      assert a + b == b;
    }
  }

  /** One more bullet at the end is kept, moved, exactly when it ends right
      of the limit. */
  lemma AdvanceBulletsSnoc(bs: seq<Bullet>, x: Bullet)
    ensures AdvanceBullets(bs + [x]) ==
            AdvanceBullets(bs) + (if MoveBullet(x).x > BulletLimit then [MoveBullet(x)] else [])
  {
    AdvanceBulletsAppend(bs, [x]);
    assert [x][1..] == [];
  }

  /** The boss is idle and the runner is ahead of it, closer than 400. */
  predicate StartsShooting(b: Obstacle, runnerX: real)
  {
    var distanceToRunner := b.x - runnerX;
    distanceToRunner < ShootRange && distanceToRunner > 0.0 && !b.isShooting
  }

  /** The boss after the start-of-phase check. */
  function Armed(b: Obstacle, runnerX: real): Obstacle
  {
    if StartsShooting(b, runnerX) then b.(isShooting := true, shootTimer := BossShootDuration) else b
  }

  predicate Ticking(b: Obstacle)
  {
    b.isShooting && b.shootTimer > 0
  }

  /** This frame's call appends a bullet. */
  predicate Fires(b: Obstacle, runnerX: real)
  {
    var a := Armed(b, runnerX);
    Ticking(a) && (a.shootTimer - 1) % ShotCadence == 0
  }

  /** The shooting state is consistent: the timer lies in [0, 180] and the
      boss is shooting exactly while the timer is positive. */
  predicate BossInv(b: Obstacle)
  {
    0 <= b.shootTimer <= BossShootDuration && (b.isShooting <==> b.shootTimer > 0)
  }

  /** The shooting tick: a shooting boss with time left counts its timer
      down, fires on every 20th frame and stops when the timer runs out. */
  function Ticked(a: Obstacle): Obstacle
  {
    if Ticking(a) then
      var t := a.(shootTimer := a.shootTimer - 1);
      var f := if t.shootTimer % ShotCadence == 0 then t.(bullets := t.bullets + [NewBullet(t)]) else t;
      if f.shootTimer <= 0 then f.(isShooting := false) else f
    else a
  }

  /** One call of the boss update, as a value. */
  function BossStep(b: Obstacle, runnerX: real): (r: Obstacle)
    ensures b.destroyed ==> r == b
    ensures !b.destroyed ==> r == b.(isShooting := r.isShooting, shootTimer := r.shootTimer, bullets := r.bullets)
    ensures !b.destroyed ==> forall i :: 0 <= i < |r.bullets| ==> r.bullets[i].x > BulletLimit
    ensures !b.destroyed ==>
      r.bullets == AdvanceBullets(b.bullets + (if Fires(b, runnerX) then [NewBullet(b)] else []))
    ensures !b.destroyed && !b.isShooting && r.isShooting ==> 0.0 < b.x - runnerX < ShootRange
    ensures !b.destroyed && StartsShooting(b, runnerX) ==> r.isShooting && r.shootTimer == BossShootDuration - 1
    ensures !b.destroyed && Ticking(b) ==> r.shootTimer == b.shootTimer - 1 && (r.isShooting <==> r.shootTimer > 0)
    ensures BossInv(b) ==> BossInv(r)
  {
    if b.destroyed then b
    else
      var s := Ticked(Armed(b, runnerX));
      assert s.bullets == b.bullets + (if Fires(b, runnerX) then [NewBullet(b)] else []);
      s.(bullets := AdvanceBullets(s.bullets))
  }

  /** The boss update, mutating a working copy field by field. */
  method UpdateBoss(boss: Obstacle, runnerX: real) returns (b: Obstacle)
    ensures b == BossStep(boss, runnerX)
  {
    b := boss;
    if b.destroyed {
      return;
    }

    var distanceToRunner := b.x - runnerX;
    if distanceToRunner < 400.0 && distanceToRunner > 0.0 && !b.isShooting {
      b := b.(isShooting := true);
      b := b.(shootTimer := BossShootDuration);
    }
    assert b == Armed(boss, runnerX);
    ghost var armed := b;

    if b.isShooting && b.shootTimer > 0 {
      b := b.(shootTimer := b.shootTimer - 1);
      if b.shootTimer % 20 == 0 {
        var bullet := Bullet(b.x - 10.0, b.y + b.height - 24.0, 8.0, 4.0, -8.0);
        b := b.(bullets := b.bullets + [bullet]);
      }
      if b.shootTimer <= 0 {
        b := b.(isShooting := false);
      }
    }

    assert b == Ticked(armed);
    b := b.(bullets := AdvanceBullets(b.bullets));
  }

  /** How many bullets a shooting phase with t frames left still fires. */
  function Shots(t: nat): nat
  {
    if t == 0 then 0 else (if (t - 1) % ShotCadence == 0 then 1 else 0) + Shots(t - 1)
  }

  lemma {:induction false} ShotsCount(t: nat)
    ensures Shots(t) == (t + 19) / 20
  {
    if t > 0 {
      ShotsCount(t - 1);
    }
  }

  /** A full 180-frame phase fires nine bullets. */
  lemma ShotsPerPhase()
    ensures Shots(BossShootDuration) == 9
  {
    ShotsCount(BossShootDuration);
  }

  /** The boss as the frame update leaves it: stepped, then scrolled left. */
  function Scrolled(b: Obstacle, runnerX: real, shift: real): Obstacle
  {
    var s := BossStep(b, runnerX);
    s.(x := s.x - shift)
  }

  /** The number of bullets fired over successive frames, each scrolling
      the boss by the given shift. */
  function FiredOver(b: Obstacle, runnerX: real, shifts: seq<real>): nat
    decreases |shifts|
  {
    if shifts == [] then 0
    else
      (if !b.destroyed && Fires(b, runnerX) then 1 else 0)
      + FiredOver(Scrolled(b, runnerX, shifts[0]), runnerX, shifts[1..])
  }

  /** Whatever the scrolling, a phase with t frames left fires Shots(t)
      bullets over its remaining t frames. */
  lemma {:induction false} PhaseFiresShots(b: Obstacle, runnerX: real, shifts: seq<real>)
    requires !b.destroyed
    requires Ticking(Armed(b, runnerX))
    requires |shifts| == Armed(b, runnerX).shootTimer
    ensures FiredOver(b, runnerX, shifts) == Shots(Armed(b, runnerX).shootTimer)
    decreases |shifts|
  {
    var a := Armed(b, runnerX);
    var t := a.shootTimer;
    var next := Scrolled(b, runnerX, shifts[0]);
    assert next.shootTimer == t - 1 && (next.isShooting <==> t - 1 > 0) && !next.destroyed;
    if t - 1 > 0 {
      assert Armed(next, runnerX) == next;
      PhaseFiresShots(next, runnerX, shifts[1..]);
    }
  }

  /** A boss that starts shooting fires exactly nine bullets over the 180
      frames of its phase. */
  lemma NineBulletsPerPhase(b: Obstacle, runnerX: real, shifts: seq<real>)
    requires !b.destroyed && StartsShooting(b, runnerX)
    requires |shifts| == BossShootDuration
    ensures FiredOver(b, runnerX, shifts) == 9
  {
    PhaseFiresShots(b, runnerX, shifts);
    ShotsPerPhase();
  }
}
