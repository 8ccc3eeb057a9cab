/**
 * The animation engine of src/components/WeatherBackground.jsx: the particle and cloud
 * pools that `animateCanvas` keeps in its closure, the weather signature remembered in
 * `lastWeatherMain`/`lastWeatherCode`, the set-up one call of `animateCanvas` performs,
 * and one `animate` frame it schedules. Canvas drawing is summarised by the `Scene` a
 * frame returns. When such a call happens is the business of WeatherLifecycle.
 */
module WeatherEngine {
  import opened Wrappers
  import opened WeatherRules
  import opened WeatherMotion

  /** The engine's `Math.random()`: an injected stream of draws, each in [0, 1). */
  class RandomSource {
    const draw: nat -> real
    var drawn: nat

    ghost predicate Valid() {
      forall k :: 0.0 <= draw(k) < 1.0
    }

    constructor (draw: nat -> real)
      requires forall k :: 0.0 <= draw(k) < 1.0
      ensures Valid() && this.draw == draw && drawn == 0
    {
      this.draw := draw;
      drawn := 0;
    }

    method Next() returns (r: real)
      requires Valid()
      modifies this
      ensures r == draw(old(drawn)) && drawn == old(drawn) + 1
      ensures 0.0 <= r < 1.0
    {
      r := draw(drawn);
      drawn := drawn + 1;
    }
  }

  class Engine {
    /** The canvas size captured when the animation was (re)started. */
    var width: nat
    var height: nat
    /** The weather report the running animation closed over. */
    var weather: Option<Snapshot>
    var particles: array<Particle>
    var clouds: array<Cloud>
    /** What the previous frame saw; these survive a restart. */
    var lastMain: Js<string>
    var lastCode: Js<int>

    /** The particle type and tier code the current report selects. */
    function Precipitation(): Option<Precip>
      reads this
    {
      Classify(MainOf(weather), CodeOf(weather))
    }

    /** Between frames: a non-empty particle pool is sized and drawn for the current
        report, and every particle in it is settled. */
    ghost predicate ParticlesOk()
      reads this, particles
    {
      particles.Length > 0 ==>
        Precipitation().Some? && particles.Length == Resolve(Precipitation().value).count &&
        forall k :: 0 <= k < particles.Length ==> Settled(particles[k], Precipitation().value, width, height)
    }

    /** Between frames: there are no clouds or exactly five, all afloat. */
    ghost predicate CloudsOk()
      reads this, clouds
    {
      (clouds.Length == 0 || clouds.Length == CloudPoolSize) &&
      forall k :: 0 <= k < clouds.Length ==> Afloat(clouds[k], width, height)
    }

    ghost predicate Valid()
      reads this, particles, clouds
    {
      ParticlesOk() && CloudsOk()
    }

    /** The next frame rebuilds the particle pool: particles are wanted and the pool is
        empty or the (main, id) pair differs from what the previous frame saw. */
    predicate RebuildDue()
      reads this
    {
      Precipitation().Some? && (particles.Length == 0 || lastMain != MainField(weather) || lastCode != CodeField(weather))
    }

    /** The pools just after a restart on a `w` x `h` canvas with report `snap`. */
    ghost predicate Restarted(w: nat, h: nat, snap: Option<Snapshot>)
      reads this, particles, clouds
    {
      width == w && height == h && weather == snap &&
      particles.Length == PoolCount(MainOf(snap), CodeOf(snap)) &&
      (Precipitation().Some? ==>
         forall k :: 0 <= k < particles.Length ==> Spawned(particles[k], Resolve(Precipitation().value), w, h)) &&
      clouds.Length == (if MainOf(snap) == Some("Clear") then 0 else CloudPoolSize) &&
      forall k :: 0 <= k < clouds.Length ==> CloudSpawned(clouds[k], w, h)
    }

    /** The first call of `animateCanvas`: the refs are still null, then the set-up runs. */
    constructor (w: nat, h: nat, snap: Option<Snapshot>, rng: RandomSource)
      requires rng.Valid()
      modifies rng
      ensures Valid() && Restarted(w, h, snap)
      ensures fresh(particles) && fresh(clouds)
      ensures lastMain == Null && lastCode == Null
    {
      width, height, weather := w, h, snap;
      particles := new Particle[0];
      clouds := new Cloud[0];
      lastMain, lastCode := Null, Null;
      new;
      Init(w, h, snap, rng);
    }

    /** `initParticles(type, code)`: a fresh pool of `count` particles for the resolved tier. */
    method InitParticles(precip: Precip, rng: RandomSource)
      requires rng.Valid()
      modifies this`particles, rng
      ensures fresh(particles)
      ensures particles.Length == Resolve(precip).count
      ensures forall k :: 0 <= k < particles.Length ==> Spawned(particles[k], Resolve(precip), width, height)
    {
      var prof := Resolve(precip);
      var pool := new Particle[prof.count];
      var i := 0;
      while i < prof.count
        invariant 0 <= i <= prof.count
        invariant forall k :: 0 <= k < i ==> Spawned(pool[k], prof, width, height)
      {
        var rx := rng.Next();
        var ry := rng.Next();
        var rs := rng.Next();
        var rv := rng.Next();
        var ro := rng.Next();
        pool[i] := Particle(Scale(rx, 0.0, width as real),
                            Scale(ry, 0.0, height as real),
                            Scale(rs, prof.minSize, prof.maxSize - prof.minSize),
                            Scale(rv, prof.minSpeed, prof.maxSpeed - prof.minSpeed),
                            Scale(ro, 0.5, 0.5));
        i := i + 1;
      }
      particles := pool;
    }

    /** `initClouds()`: a fresh pool of five clouds in the top third of the canvas. */
    method InitClouds(rng: RandomSource)
      requires rng.Valid()
      modifies this`clouds, rng
      ensures fresh(clouds)
      ensures clouds.Length == CloudPoolSize
      ensures forall k :: 0 <= k < clouds.Length ==> CloudSpawned(clouds[k], width, height)
    {
      var pool := new Cloud[CloudPoolSize];
      var i := 0;
      while i < CloudPoolSize
        invariant 0 <= i <= CloudPoolSize
        invariant forall k :: 0 <= k < i ==> CloudSpawned(pool[k], width, height)
      {
        var rx := rng.Next();
        var ry := rng.Next();
        var rw := rng.Next();
        var rh := rng.Next();
        var rs := rng.Next();
        var ro := rng.Next();
        pool[i] := Cloud(Scale(rx, 0.0, width as real),
                         Scale(ry, 0.0, height as real / 3.0),
                         Scale(rw, 100.0, 200.0),
                         Scale(rh, 40.0, 80.0),
                         Scale(rs, 0.1, 0.5),
                         Scale(ro, 0.4, 0.6));
        i := i + 1;
      }
      clouds := pool;
    }

    /** The particle `forEach` of a frame: every particle falls one step, in place. */
    method UpdateParticles(family: Family, rng: RandomSource, sway: real -> real)
      requires rng.Valid()
      modifies particles, rng
      ensures forall k :: 0 <= k < particles.Length ==>
        Fell(old(particles[k]), particles[k], family, width, height, sway)
    {
      var i := 0;
      while i < particles.Length
        invariant 0 <= i <= particles.Length
        invariant forall k :: 0 <= k < i ==> Fell(old(particles[k]), particles[k], family, width, height, sway)
        invariant forall k :: i <= k < particles.Length ==> particles[k] == old(particles[k])
      {
        var p := particles[i];
        var y := p.y + p.speed;
        var x := if family == Snow then p.x + sway(y) else p.x;
        if y > height as real {
          y := 0.0;
          var r := rng.Next();
          x := Scale(r, 0.0, width as real);
        }
        particles[i] := p.(x := x, y := y);
        i := i + 1;
      }
    }

    /** The cloud `forEach` of a frame: every cloud drifts one step, in place. */
    method DriftClouds(rng: RandomSource)
      requires rng.Valid()
      modifies clouds, rng
      ensures forall k :: 0 <= k < clouds.Length ==> Drifted(old(clouds[k]), clouds[k], width, height)
    {
      var i := 0;
      while i < clouds.Length
        invariant 0 <= i <= clouds.Length
        invariant forall k :: 0 <= k < i ==> Drifted(old(clouds[k]), clouds[k], width, height)
        invariant forall k :: i <= k < clouds.Length ==> clouds[k] == old(clouds[k])
      {
        var c := clouds[i];
        var x := c.x + c.speed;
        var y := c.y;
        if x > width as real + c.width / 2.0 {
          x := -c.width / 2.0;
          var r := rng.Next();
          y := Scale(r, 0.0, height as real / 3.0);
        }
        clouds[i] := c.(x := x, y := y);
        i := i + 1;
      }
    }

    /** The set-up of one call of `animateCanvas` (lines 317-336), before its first frame:
        both pools are rebuilt from scratch; the remembered signature is kept. */
    method Init(w: nat, h: nat, snap: Option<Snapshot>, rng: RandomSource)
      requires rng.Valid()
      modifies this, rng
      ensures Valid() && Restarted(w, h, snap)
      ensures fresh(particles) && fresh(clouds)
      ensures lastMain == old(lastMain) && lastCode == old(lastCode)
    {
      width, height, weather := w, h, snap;
      var main := MainOf(snap);
      var precip := Classify(main, CodeOf(snap));
      if precip.Some? {
        InitParticles(precip.value, rng);
      } else {
        particles := new Particle[0];
      }
      if main != Some("Clear") {
        InitClouds(rng);
      } else {
        clouds := new Cloud[0];
      }
      forall k | 0 <= k < particles.Length
        ensures Settled(particles[k], precip.value, width, height)
      {
        SpawnedIsSettled(particles[k], precip.value, width, height);
      }
      forall k | 0 <= k < clouds.Length
        ensures Afloat(clouds[k], width, height)
      {
        CloudSpawnedIsAfloat(clouds[k], width, height);
      }
    }

    /** The particle half of a frame (lines 231-251): rebuild the pool if due, then let
        every particle fall one step; without precipitation the pool is emptied. `pool` is
        the pool as drawn, just before it moved. */
    method FrameParticles(rng: RandomSource, sway: real -> real) returns (ghost rebuilt: bool, ghost pool: seq<Particle>)
      requires ParticlesOk() && rng.Valid()
      modifies this`particles, particles, rng
      ensures ParticlesOk()
      ensures particles == old(particles) || fresh(particles)
      ensures rebuilt == old(RebuildDue())
      ensures particles.Length == PoolCount(MainOf(weather), CodeOf(weather)) == |pool|
      ensures rebuilt ==>
        fresh(particles) &&
        forall k :: 0 <= k < |pool| ==> Spawned(pool[k], Resolve(Precipitation().value), width, height)
      ensures !rebuilt && Precipitation().Some? ==> particles == old(particles) && pool == old(particles[..])
      ensures Precipitation().Some? ==>
        forall k :: 0 <= k < |pool| ==> Fell(pool[k], particles[k], Precipitation().value.family, width, height, sway)
    {
      var precip := Classify(MainOf(weather), CodeOf(weather));
      rebuilt := false;
      if precip.Some? {
        if particles.Length == 0 || lastMain != MainField(weather) || lastCode != CodeField(weather) {
          InitParticles(precip.value, rng);
          rebuilt := true;
          forall k | 0 <= k < particles.Length
            ensures Settled(particles[k], precip.value, width, height)
          {
            SpawnedIsSettled(particles[k], precip.value, width, height);
          }
        }
        pool := particles[..];
        UpdateParticles(precip.value.family, rng, sway);
        forall k | 0 <= k < particles.Length
          ensures Settled(particles[k], precip.value, width, height)
        {
          FellKeepsSettled(pool[k], particles[k], precip.value, width, height, sway);
        }
      } else {
        particles := new Particle[0];
        pool := [];
      }
    }

    /** The cloud half of a frame (lines 253-309): a Clear sky empties the cloud pool;
        any other, known or not, creates the five clouds if there are none and lets each
        drift one step. `sky` is the pool as drawn, just before it moved. */
    method FrameClouds(rng: RandomSource) returns (ghost sky: seq<Cloud>)
      requires CloudsOk() && rng.Valid()
      modifies this`clouds, clouds, rng
      ensures CloudsOk()
      ensures clouds == old(clouds) || fresh(clouds)
      ensures clouds.Length == (if MainOf(weather) == Some("Clear") then 0 else CloudPoolSize) == |sky|
      ensures MainOf(weather) != Some("Clear") && old(clouds.Length) == 0 ==>
        fresh(clouds) &&
        forall k :: 0 <= k < |sky| ==> CloudSpawned(sky[k], width, height)
      ensures MainOf(weather) != Some("Clear") && old(clouds.Length) != 0 ==>
        clouds == old(clouds) && sky == old(clouds[..])
      ensures forall k :: 0 <= k < |sky| ==> Drifted(sky[k], clouds[k], width, height)
    {
      if MainOf(weather) == Some("Clear") {
        if clouds.Length > 0 {
          clouds := new Cloud[0];
        }
        sky := [];
      } else {
        if clouds.Length == 0 {
          InitClouds(rng);
          forall k | 0 <= k < clouds.Length
            ensures Afloat(clouds[k], width, height)
          {
            CloudSpawnedIsAfloat(clouds[k], width, height);
          }
        }
        sky := clouds[..];
        DriftClouds(rng);
        forall k | 0 <= k < clouds.Length
          ensures Afloat(clouds[k], width, height)
        {
          DriftedKeepsAfloat(sky[k], clouds[k], width, height);
        }
      }
    }

    /** One `animate` frame: particles, then clouds, then remember (main, id). `pool` and
        `sky` are the particles and clouds as they were drawn, just before this frame
        moved them; `rebuilt` says whether the frame replaced the particle pool. */
    method Tick(rng: RandomSource, sway: real -> real)
      returns (scene: Scene, ghost rebuilt: bool, ghost pool: seq<Particle>, ghost sky: seq<Cloud>)
      requires Valid() && rng.Valid()
      requires forall y :: -0.5 <= sway(y) <= 0.5
      modifies this, particles, clouds, rng
      ensures Valid()
      ensures particles == old(particles) || fresh(particles)
      ensures clouds == old(clouds) || fresh(clouds)
      ensures width == old(width) && height == old(height) && weather == old(weather)
      ensures lastMain == MainField(weather) && lastCode == CodeField(weather)
      ensures scene == SceneOf(weather, width, height)
      ensures rebuilt == old(RebuildDue()) && !RebuildDue()
      ensures particles.Length == PoolCount(MainOf(weather), CodeOf(weather)) == |pool|
      ensures rebuilt ==>
        fresh(particles) &&
        forall k :: 0 <= k < |pool| ==> Spawned(pool[k], Resolve(Precipitation().value), width, height)
      ensures !rebuilt && Precipitation().Some? ==> particles == old(particles) && pool == old(particles[..])
      ensures Precipitation().Some? ==>
        forall k :: 0 <= k < |pool| ==> Fell(pool[k], particles[k], Precipitation().value.family, width, height, sway)
      ensures Precipitation().Some? && Precipitation().value.family == Snow ==>
        forall k :: 0 <= k < |pool| && pool[k].y + pool[k].speed <= height as real ==>
          -0.5 <= particles[k].x - pool[k].x <= 0.5
      ensures clouds.Length == (if MainOf(weather) == Some("Clear") then 0 else CloudPoolSize) == |sky|
      ensures MainOf(weather) != Some("Clear") && old(clouds.Length) == 0 ==>
        fresh(clouds) &&
        forall k :: 0 <= k < |sky| ==> CloudSpawned(sky[k], width, height)
      ensures MainOf(weather) != Some("Clear") && old(clouds.Length) != 0 ==>
        clouds == old(clouds) && sky == old(clouds[..])
      ensures forall k :: 0 <= k < |sky| ==> Drifted(sky[k], clouds[k], width, height)
    {
      rebuilt, pool := FrameParticles(rng, sway);
      sky := FrameClouds(rng);
      lastMain, lastCode := MainField(weather), CodeField(weather);
      scene := SceneOf(weather, width, height);
    }
  }
}
