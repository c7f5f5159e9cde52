/** Death particles: a burst created around the runner on game over, and the
    per-frame decay that moves each particle, pulls it down, fades it and
    drops it once its life is used up. Colours and ids are not modelled. */
module Particles {
  import opened Common

  datatype Particle = Particle(x: real, y: real, velocityX: real, velocityY: real, life: real, size: real)

  /** The count of particles in the game-over burst. */
  const BurstSize: nat := 15

  /** The draws that place one particle and give it its velocity and size. */
  datatype ParticleDraw = ParticleDraw(dx: Unit, dy: Unit, vx: Unit, vy: Unit, size: Unit)

  /** A fresh particle within 20 units of (x, y), thrown upward, at full life. */
  function NewParticle(x: real, y: real, d: ParticleDraw): Particle
  {
    Particle(x + d.dx * 40.0 - 20.0, y + d.dy * 40.0 - 20.0, (d.vx - 0.5) * 10.0, d.vy * -8.0 - 3.0, 1.0, d.size * 6.0 + 3.0)
  }

  /** The burst described by a sequence of draws, one particle per draw. */
  function Burst(x: real, y: real, draws: seq<ParticleDraw>): (ps: seq<Particle>)
    ensures |ps| == |draws|
    ensures forall i :: 0 <= i < |draws| ==> ps[i] == NewParticle(x, y, draws[i])
  {
    if draws == [] then [] else Burst(x, y, draws[..|draws| - 1]) + [NewParticle(x, y, draws[|draws| - 1])]
  }

  /** The burst, built by pushing one particle per iteration. Every particle
      starts at full life within 20 units of (x, y), moving upward. */
  method CreateParticles(x: real, y: real, count: nat, draws: seq<ParticleDraw>) returns (particles: seq<Particle>)
    requires count <= |draws|
    ensures particles == Burst(x, y, draws[..count])
    ensures |particles| == count
    ensures forall p :: p in particles ==>
      && p.life == 1.0
      && x - 20.0 <= p.x < x + 20.0 && y - 20.0 <= p.y < y + 20.0
      && -5.0 <= p.velocityX < 5.0 && -11.0 < p.velocityY <= -3.0
      && 3.0 <= p.size < 9.0
  {
    particles := [];
    var i := 0;
    while i < count
      invariant 0 <= i <= count
      invariant particles == Burst(x, y, draws[..i])
    {
      var d := draws[i];
      particles := particles + [Particle(x + d.dx * 40.0 - 20.0, y + d.dy * 40.0 - 20.0, (d.vx - 0.5) * 10.0, d.vy * -8.0 - 3.0, 1.0, d.size * 6.0 + 3.0)];
      assert draws[..i + 1][..i] == draws[..i];
      i := i + 1;
    }
  }

  /** One frame of a particle: move, add 0.5 of gravity, fade, shrink. */
  function Decay(p: Particle): Particle
  {
    p.(x := p.x + p.velocityX, y := p.y + p.velocityY, velocityY := p.velocityY + 0.5,
       life := p.life - 0.025, size := p.size * 0.97)
  }

  /** Every particle decays; those whose life is used up are dropped. */
  function UpdateParticles(ps: seq<Particle>): (r: seq<Particle>)
    ensures |r| <= |ps|
    ensures forall i :: 0 <= i < |r| ==> r[i].life > 0.0
  {
    if ps == [] then []
    else
      var d := Decay(ps[0]);
      (if d.life > 0.0 then [d] else []) + UpdateParticles(ps[1..])
  }

  /** Each survivor is a decayed input: its life is 0.025 lower and it
      falls 0.5 faster. */
  lemma {:induction false} SurvivorsDecayed(ps: seq<Particle>)
    ensures forall p :: p in UpdateParticles(ps) ==>
      exists j :: 0 <= j < |ps| && p == Decay(ps[j]) &&
                   p.life == ps[j].life - 0.025 && p.velocityY == ps[j].velocityY + 0.5
  {
    if ps != [] {
      var rest := UpdateParticles(ps[1..]);
      SurvivorsDecayed(ps[1..]);
      forall p | p in UpdateParticles(ps)
        ensures exists j :: 0 <= j < |ps| && p == Decay(ps[j]) &&
                             p.life == ps[j].life - 0.025 && p.velocityY == ps[j].velocityY + 0.5
      {
        if p in rest {
          var k :| 0 <= k < |ps[1..]| && p == Decay(ps[1..][k]);
          assert ps[1..][k] == ps[k + 1];
        } else {
          assert p == Decay(ps[0]);
        }
      }
    }
  }

  /** Every input with more than 0.025 life survives, decayed. */
  lemma {:induction false} LivelySurvive(ps: seq<Particle>)
    ensures forall j :: 0 <= j < |ps| && ps[j].life > 0.025 ==> Decay(ps[j]) in UpdateParticles(ps)
  {
    if ps != [] {
      LivelySurvive(ps[1..]);
      forall j | 0 <= j < |ps| && ps[j].life > 0.025
        ensures Decay(ps[j]) in UpdateParticles(ps)
      {
        if j > 0 {
          assert ps[1..][j - 1] == ps[j];
        }
      }
    }
  }


}
