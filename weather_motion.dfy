/**
 * Particles and clouds of the weather background (src/components/WeatherBackground.jsx)
 * as values, with the ranges their random attributes are drawn from and the one-frame
 * motion rules, stated as relations between a value before and after a frame.
 */
module WeatherMotion {
  import opened WeatherRules

  datatype Particle = Particle(x: real, y: real, size: real, speed: real, opacity: real)

  datatype Cloud = Cloud(x: real, y: real, width: real, height: real, speed: real, opacity: real)

  /** The number of clouds `initClouds` creates. */
  const CloudPoolSize: nat := 5

  /** The values `Math.random() * span + lo` can take: [lo, lo + span), or exactly lo
      when the span is zero (a zero-sized canvas). */
  predicate InDraw(v: real, lo: real, span: real) {
    lo <= v && (v < lo + span || v == lo)
  }

  /** `Math.random() * span + lo` for a draw `r` in [0, 1). */
  function Scale(r: real, lo: real, span: real): (v: real)
    requires 0.0 <= r < 1.0 && 0.0 <= span
    ensures InDraw(v, lo, span)
    ensures span == 0.0 ==> v == lo
  {
    ScaleInDraw(r, lo, span);
    r * span + lo
  }

  lemma ScaleInDraw(r: real, lo: real, span: real)
    requires 0.0 <= r < 1.0 && 0.0 <= span
    ensures InDraw(r * span + lo, lo, span)
  {
    if span > 0.0 {
      assert (1.0 - r) * span > 0.0;
    }
  }

  /** A particle as `initParticles` creates it on a `width` x `height` canvas. */
  predicate Spawned(p: Particle, prof: Profile, width: nat, height: nat) {
    InDraw(p.x, 0.0, width as real) && InDraw(p.y, 0.0, height as real) &&
    InDraw(p.size, prof.minSize, prof.maxSize - prof.minSize) &&
    InDraw(p.speed, prof.minSpeed, prof.maxSpeed - prof.minSpeed) &&
    InDraw(p.opacity, 0.5, 0.5)
  }

  /** What stays true of a particle of the pool for `precip` between frames: its drawn
      attributes keep their ranges, it is between the top and the bottom edge, and a rain
      particle stays within the canvas horizontally (snow may drift out). */
  predicate Settled(p: Particle, precip: Precip, width: nat, height: nat) {
    var prof := Resolve(precip);
    InDraw(p.size, prof.minSize, prof.maxSize - prof.minSize) &&
    InDraw(p.speed, prof.minSpeed, prof.maxSpeed - prof.minSpeed) &&
    InDraw(p.opacity, 0.5, 0.5) &&
    0.0 <= p.y <= height as real &&
    (precip.family == Rain ==> InDraw(p.x, 0.0, width as real))
  }

  /** One frame of a particle: it falls by its speed; snow also sways by `sway` of the new
      height; past the bottom edge it restarts at the top at a freshly drawn x. */
  predicate Fell(p: Particle, q: Particle, family: Family, width: nat, height: nat, sway: real -> real) {
    var y := p.y + p.speed;
    q.size == p.size && q.speed == p.speed && q.opacity == p.opacity &&
    if y > height as real then q.y == 0.0 && InDraw(q.x, 0.0, width as real)
    else q.y == y && q.x == (if family == Snow then p.x + sway(y) else p.x)
  }

  lemma SpawnedIsSettled(p: Particle, precip: Precip, width: nat, height: nat)
    requires Spawned(p, Resolve(precip), width, height)
    ensures Settled(p, precip, width, height)
  {
  }

  lemma FellKeepsSettled(p: Particle, q: Particle, precip: Precip, width: nat, height: nat, sway: real -> real)
    requires Settled(p, precip, width, height)
    requires Fell(p, q, precip.family, width, height, sway)
    ensures Settled(q, precip, width, height)
  {
  }

  /** Successive frames of one particle. */
  predicate FallRun(run: seq<Particle>, family: Family, width: nat, height: nat, sway: real -> real) {
    forall k :: 0 <= k < |run| - 1 ==> Fell(run[k], run[k + 1], family, width, height, sway)
  }

  /** However many frames pass, a particle spawned for `precip` keeps its size, speed and
      opacity, never leaves [0, height] vertically, and as rain never leaves [0, width). */
  lemma {:induction false} FallRunStaysSettled(run: seq<Particle>, precip: Precip, width: nat, height: nat, sway: real -> real)
    requires |run| > 0 && Spawned(run[0], Resolve(precip), width, height)
    requires FallRun(run, precip.family, width, height, sway)
    ensures forall k :: 0 <= k < |run| ==> Settled(run[k], precip, width, height)
    ensures forall k :: 0 <= k < |run| ==>
      0.0 <= run[k].y <= height as real && run[k].size == run[0].size &&
      run[k].speed == run[0].speed && run[k].opacity == run[0].opacity
  {
    if |run| == 1 {
      SpawnedIsSettled(run[0], precip, width, height);
    } else {
      var prefix := run[..|run| - 1];
      assert FallRun(prefix, precip.family, width, height, sway) by {
        forall k | 0 <= k < |prefix| - 1
          ensures Fell(prefix[k], prefix[k + 1], precip.family, width, height, sway)
        {
          assert prefix[k] == run[k] && prefix[k + 1] == run[k + 1];
        }
      }
      FallRunStaysSettled(prefix, precip, width, height, sway);
      var n := |run| - 1;
      assert prefix[n - 1] == run[n - 1];
      FellKeepsSettled(run[n - 1], run[n], precip, width, height, sway);
      forall k | 0 <= k < |run|
        ensures Settled(run[k], precip, width, height)
        ensures run[k].size == run[0].size && run[k].speed == run[0].speed && run[k].opacity == run[0].opacity
      {
        if k < n { assert run[k] == prefix[k]; }
      }
    }
  }

  /** A cloud as `initClouds` creates it on a `width` x `height` canvas. */
  predicate CloudSpawned(c: Cloud, width: nat, height: nat) {
    InDraw(c.x, 0.0, width as real) && InDraw(c.y, 0.0, height as real / 3.0) &&
    InDraw(c.width, 100.0, 200.0) && InDraw(c.height, 40.0, 80.0) &&
    InDraw(c.speed, 0.1, 0.5) && InDraw(c.opacity, 0.4, 0.6)
  }

  /** What stays true of a cloud between frames: its drawn shape, speed and opacity keep
      their ranges, it stays in the top third, and it lies within half its own width of
      the canvas horizontally. */
  predicate Afloat(c: Cloud, width: nat, height: nat) {
    InDraw(c.y, 0.0, height as real / 3.0) &&
    InDraw(c.width, 100.0, 200.0) && InDraw(c.height, 40.0, 80.0) &&
    InDraw(c.speed, 0.1, 0.5) && InDraw(c.opacity, 0.4, 0.6) &&
    -c.width / 2.0 <= c.x <= width as real + c.width / 2.0
  }

  /** One frame of a cloud: it moves right by its speed; once its x passes the right edge
      by more than half its width it re-enters at x = -width/2 at a freshly drawn height. */
  predicate Drifted(c: Cloud, d: Cloud, width: nat, height: nat) {
    var x := c.x + c.speed;
    d.width == c.width && d.height == c.height && d.speed == c.speed && d.opacity == c.opacity &&
    if x > width as real + c.width / 2.0 then d.x == -c.width / 2.0 && InDraw(d.y, 0.0, height as real / 3.0)
    else d.x == x && d.y == c.y
  }

  lemma CloudSpawnedIsAfloat(c: Cloud, width: nat, height: nat)
    requires CloudSpawned(c, width, height)
    ensures Afloat(c, width, height)
  {
  }

  lemma DriftedKeepsAfloat(c: Cloud, d: Cloud, width: nat, height: nat)
    requires Afloat(c, width, height) && Drifted(c, d, width, height)
    ensures Afloat(d, width, height)
  {
  }

  /** Successive frames of one cloud. */
  predicate DriftRun(run: seq<Cloud>, width: nat, height: nat) {
    forall k :: 0 <= k < |run| - 1 ==> Drifted(run[k], run[k + 1], width, height)
  }

  /** However many frames pass, a spawned cloud keeps its shape, speed and opacity, stays
      in the top third, and never strays more than half its width beyond either edge. */
  lemma {:induction false} DriftRunStaysAfloat(run: seq<Cloud>, width: nat, height: nat)
    requires |run| > 0 && CloudSpawned(run[0], width, height)
    requires DriftRun(run, width, height)
    ensures forall k :: 0 <= k < |run| ==> Afloat(run[k], width, height)
    ensures forall k :: 0 <= k < |run| ==>
      run[k].width == run[0].width && run[k].height == run[0].height &&
      run[k].speed == run[0].speed && run[k].opacity == run[0].opacity
  {
    if |run| == 1 {
      CloudSpawnedIsAfloat(run[0], width, height);
    } else {
      var prefix := run[..|run| - 1];
      assert DriftRun(prefix, width, height) by {
        forall k | 0 <= k < |prefix| - 1
          ensures Drifted(prefix[k], prefix[k + 1], width, height)
        {
          assert prefix[k] == run[k] && prefix[k + 1] == run[k + 1];
        }
      }
      DriftRunStaysAfloat(prefix, width, height);
      var n := |run| - 1;
      assert prefix[n - 1] == run[n - 1];
      DriftedKeepsAfloat(run[n - 1], run[n], width, height);
      forall k | 0 <= k < |run|
        ensures Afloat(run[k], width, height)
        ensures run[k].width == run[0].width && run[k].height == run[0].height &&
          run[k].speed == run[0].speed && run[k].opacity == run[0].opacity
      {
        if k < n { assert run[k] == prefix[k]; }
      }
    }
  }
}
