/**
 * When src/components/WeatherBackground.jsx runs its engine. `animateCanvas` depends on
 * the report and the canvas size (line 347). React calls a function given to `useEffect`
 * after the first render and after every render whose dependencies changed; a function
 * given to `useCallback` it only memoises. The component gives `animateCanvas` to
 * `useCallback` (line 22) and nothing calls the memoised function, so as written no pool
 * is ever filled and no frame is ever drawn. `Animate` is the engine run as the code
 * evidently intends, from an effect with those dependencies.
 */
module WeatherLifecycle {
  import opened Wrappers
  import opened WeatherRules
  import opened WeatherEngine

  /** What one render gives the dependency list of `animateCanvas`: `weatherData` and
      `dimensions`. */
  datatype Render = Render(weather: Option<Snapshot>, width: nat, height: nat)

  /** The two hooks that accept a function and a dependency list. */
  datatype Hook = UseEffect | UseCallback

  /** The hook the component gives `animateCanvas` to (line 22). */
  const AnimationHook: Hook := UseCallback

  /** Render `i` is the first, or its dependencies differ from the previous render's. */
  predicate DepsChanged(renders: seq<Render>, i: nat)
    requires i < |renders|
  {
    i == 0 || renders[i - 1] != renders[i]
  }

  /** The renders after which React calls the function given to `hook`. */
  function CallsAt(hook: Hook, renders: seq<Render>): (calls: set<nat>)
    ensures forall i :: i in calls ==> i < |renders|
    ensures hook == UseCallback ==> calls == {}
    ensures hook == UseEffect ==>
      forall i: nat :: i < |renders| ==> (i in calls <==> DepsChanged(renders, i))
  {
    match hook
    case UseCallback => {}
    case UseEffect => set i: nat | i < |renders| && DepsChanged(renders, i)
  }

  /** As written, `animateCanvas` is called after no render at all, whatever the reports and
      window sizes; run from an effect it would be called after the very first render. */
  lemma NeverAnimatedAsWritten(renders: seq<Render>)
    requires |renders| > 0
    ensures CallsAt(AnimationHook, renders) == {}
    ensures 0 in CallsAt(UseEffect, renders)
  {
  }

  /** `n` consecutive `animate` frames of one running call of `animateCanvas`. */
  method RunFrames(e: Engine, n: nat, rng: RandomSource, sway: real -> real) returns (scenes: seq<Scene>)
    requires e.Valid() && rng.Valid()
    requires forall y :: -0.5 <= sway(y) <= 0.5
    modifies e, e.particles, e.clouds, rng
    ensures e.Valid()
    ensures e.particles == old(e.particles) || fresh(e.particles)
    ensures e.clouds == old(e.clouds) || fresh(e.clouds)
    ensures e.width == old(e.width) && e.height == old(e.height) && e.weather == old(e.weather)
    ensures |scenes| == n
    ensures forall k :: 0 <= k < n ==> scenes[k] == SceneOf(e.weather, e.width, e.height)
    ensures n == 0 ==> e.lastMain == old(e.lastMain) && e.lastCode == old(e.lastCode) &&
                       e.particles == old(e.particles)
    ensures n > 0 ==>
      !e.RebuildDue() && e.lastMain == MainField(e.weather) && e.lastCode == CodeField(e.weather) &&
      e.particles.Length == PoolCount(MainOf(e.weather), CodeOf(e.weather))
  {
    scenes := [];
    var i := 0;
    while i < n
      invariant 0 <= i <= n
      invariant e.Valid()
      invariant e.particles == old(e.particles) || fresh(e.particles)
      invariant e.clouds == old(e.clouds) || fresh(e.clouds)
      invariant e.width == old(e.width) && e.height == old(e.height) && e.weather == old(e.weather)
      invariant |scenes| == i
      invariant forall k :: 0 <= k < i ==> scenes[k] == SceneOf(e.weather, e.width, e.height)
      invariant i == 0 ==> e.lastMain == old(e.lastMain) && e.lastCode == old(e.lastCode) &&
                           e.particles == old(e.particles)
      invariant i > 0 ==>
        !e.RebuildDue() && e.lastMain == MainField(e.weather) && e.lastCode == CodeField(e.weather) &&
        e.particles.Length == PoolCount(MainOf(e.weather), CodeOf(e.weather))
    {
      var scene, rebuilt, pool, sky := e.Tick(rng, sway);
      scenes := scenes + [scene];
      i := i + 1;
    }
  }

  /** The component over a sequence of renders, with `animateCanvas` run from an effect on
      `[weatherData, dimensions]`. After each render whose dependencies changed, the old call
      is cleaned up and a new one sets the pools up (`Init`, or the constructor on mount) and
      runs its first frame at once (line 338). After every render the running call draws
      `frames` further frames. `starts` are the renders after which a call began. */
  method Animate(renders: seq<Render>, frames: nat, rng: RandomSource, sway: real -> real)
    returns (e: Engine, ghost starts: set<nat>)
    requires |renders| > 0 && rng.Valid()
    requires forall y :: -0.5 <= sway(y) <= 0.5
    modifies rng
    ensures starts == CallsAt(UseEffect, renders)
    ensures e.Valid()
    ensures e.weather == renders[|renders| - 1].weather
    ensures e.width == renders[|renders| - 1].width && e.height == renders[|renders| - 1].height
    ensures !e.RebuildDue()
    ensures e.lastMain == MainField(e.weather) && e.lastCode == CodeField(e.weather)
    ensures e.particles.Length == PoolCount(MainOf(e.weather), CodeOf(e.weather))
  {
    e := new Engine(renders[0].width, renders[0].height, renders[0].weather, rng);
    var scenes := RunFrames(e, 1 + frames, rng, sway);
    starts := {0};
    var i := 1;
    while i < |renders|
      invariant 1 <= i <= |renders|
      invariant fresh(e) && fresh(e.particles) && fresh(e.clouds)
      invariant e.Valid() && rng.Valid()
      invariant forall j: nat :: j in starts <==> j < i && DepsChanged(renders, j)
      invariant e.weather == renders[i - 1].weather
      invariant e.width == renders[i - 1].width && e.height == renders[i - 1].height
      invariant !e.RebuildDue()
      invariant e.lastMain == MainField(e.weather) && e.lastCode == CodeField(e.weather)
      invariant e.particles.Length == PoolCount(MainOf(e.weather), CodeOf(e.weather))
    {
      if DepsChanged(renders, i) {
        e.Init(renders[i].width, renders[i].height, renders[i].weather, rng);
        scenes := RunFrames(e, 1 + frames, rng, sway);
        starts := starts + {i};
      } else {
        scenes := RunFrames(e, frames, rng, sway);
      }
      i := i + 1;
    }
    assert forall j: nat :: j in starts <==> j in CallsAt(UseEffect, renders);
  }
}
