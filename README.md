# Weather background engine and AQI card, modelled in Dafny

This project models the animated weather background of the weather dashboard
(`src/components/WeatherBackground.jsx`) and the air-quality card
(`src/components/AqiDisplayCard.jsx`).

The background engine reads one OpenWeatherMap report. The report's `main` category and
`id` code pick a particle family: rain for Rain, Drizzle and Thunderstorm, snow for Snow,
none otherwise. A thunderstorm always uses code 504. An ordered tier table, where the
first match wins, turns family and code into a particle count and speed and size ranges.
The engine keeps a pool of falling particles and a pool of five drifting clouds (none on
a Clear sky). Clouds get a tint for their category. A sun is drawn on a Clear day. Each
frame moves every particle and cloud in place and wraps it at the canvas edge. The
particle pool is rebuilt when it is empty or when the `(main, id)` pair differs from the
one the previous frame saw.

The AQI card maps levels 1..5 to a label and a colour class. It places a pointer over the
middle of the matching band of a five-band bar.

Files:
- `wrappers.dfy`: `Option`, and `Js` for a value that may be `undefined` or `null`.
- `weather_rules.dfy` (module `WeatherRules`): the pure decisions. These are the
  classification, the tier table, the cloud tint, the sun test and the per-frame
  `Scene` (what a frame draws).
- `weather_motion.dfy` (module `WeatherMotion`): particles and clouds as values. It holds
  the ranges their attributes are drawn from, the one-frame motion rules (as relations
  between before and after), and lemmas about any number of frames.
- `weather_engine.dfy` (module `WeatherEngine`): class `Engine`. Its fields are the canvas
  size, the report, the particle and cloud arrays, and `lastMain`/`lastCode`. The engine
  describes one call of `animateCanvas`: `Init` is its set-up and `Tick` is one `animate`
  frame it schedules. A new report or a resize counts as a fresh call. `RandomSource`
  stands in for `Math.random()`: it is an injected stream of draws in [0, 1).
- `weather_lifecycle.dfy` (module `WeatherLifecycle`): when `animateCanvas` is called
  over a sequence of renders. As written it is only memoised by `useCallback` and never
  called (see "## Findings"). `Animate` runs the engine the way an effect with the same
  dependencies would.
- `aqi_card.dfy` (module `AqiCard`): `getAqiInfo`, the colour bar and the pointer position.

Modelling choices:
- Coordinates are `real`. Canvas sizes are `nat`, since canvas dimensions are integers.
- A report's `main` and `id` are `Js` values: `Undefined` (missing), `Null` (a JSON `null`)
  or `Defined`. `MainField`/`CodeField` give them exactly as lines 212-213 read them and the
  refs store them (lines 311-312). The refs start as `Null` (lines 11-12). The rebuild test
  in `RebuildDue` compares with `!==`, so a stored `null` and a current `undefined` differ.
- The classification, the tiers, the tint switch and the sun test treat `undefined` and
  `null` alike. `MainOf`/`CodeOf` give them as `None`. That holds only for the comparisons
  this code makes. In general `null >= 0` holds and `undefined >= 0` does not. But each
  tier test is a `===` or a range whose lower bound is 200 or more, which neither value
  passes (WeatherBackground.jsx:41-90). So a missing code falls to the family's last tier.
- A call of `animateCanvas` closes over one report and one canvas size. `Init` stores them
  and `Tick` reads them. A new report or a resize is a new call, so a new `Init`. The refs
  `lastMain`/`lastCode` outlive a restart, as React refs do, so `Init` leaves them alone.
- `Math.random() * span + lo` is `WeatherMotion.Scale`. `InDraw(v, lo, span)` is the set of
  values it can produce: `[lo, lo + span)`, or exactly `lo` when the span is 0 (a canvas of
  width or height 0).
- The snow sway `Math.sin(p.y * 0.01) * 0.5` is an injected function `sway`, bounded by
  0.5. It is applied to the new height, as in the source.

Details of the code that the model keeps:
- Codes 300 and 310 are in the light rain tier (WeatherBackground.jsx:41). Codes 301, 311
  and 313 are in the moderate tier (WeatherBackground.jsx:48-51).
- The sun needs `sunrise < dt < sunset`, strict at both ends (WeatherBackground.jsx:257-258).
- A frame compares the real `id` with the stored one, not the forced 504
  (WeatherBackground.jsx:235). So two thunderstorms with different ids rebuild the pool.
- A frame never compares canvas sizes. Only a new call of `animateCanvas` picks up a new
  size, and in `Animate` that call is a new `Init`.

## Model

| member | source | states |
|---|---|---|
| `WeatherRules.RainProfile` | src/components/WeatherBackground.jsx:40-76 | first match wins. 500, 300, 310 give 150 particles at speed 3-6 and size 1.5-3. 501, 301, 311, 313 give 300 at 5-9 and 2-4. [502,531], [200,232], 302, 312, 314 give 500 at 8-15 and 3-6. Every other code, or none, gives 200 at 4-7 and 2-3.5. Each tier is stated as an iff on the code |
| `WeatherRules.SnowProfile` | src/components/WeatherBackground.jsx:77-103 | 600, 615, 616 give 50 at 1-3 and 1.5-3. The heavy tier (150, 3-6, 4-7) holds exactly for [602,622] minus 615, 616, 620. 601, 620, no code and any code outside [600,622] give 80 at 2-4 and 2.5-4.5 |
| `WeatherRules.Resolve` | src/components/WeatherBackground.jsx:34-104 | every resolved profile has 50..500 particles, positive ranges with min < max, and belongs to its family's tier list |
| `WeatherRules.Classify` | src/components/WeatherBackground.jsx:219-229 | particles are drawn iff main is Rain, Drizzle, Thunderstorm or Snow. The family is rain exactly for the first three and snow exactly for Snow. Thunderstorm uses code 504. Otherwise the report's own code is used |
| `WeatherRules.PoolCount` | src/components/WeatherBackground.jsx:219-251 | the pool never exceeds 500. It is empty iff main is not a particle category, which includes a missing report. Thunderstorm always gives 500. Rain 500 gives 150 and Snow 601 gives 80 |
| `WeatherRules.CloudTint` | src/components/WeatherBackground.jsx:280-301 | 150-gray iff Rain, Drizzle or Thunderstorm. 200-gray iff Snow. 180-gray iff Mist, Fog, Haze, Smoke, Dust, Sand or Ash. White otherwise, including Clouds, Squall, Tornado and no main |
| `WeatherRules.SunShown` | src/components/WeatherBackground.jsx:254-261 | the sun shows iff the report is present, Clear, and sunrise < dt < sunset. It never shows at dt equal to sunrise or sunset |
| `WeatherRules.SceneOf` | src/components/WeatherBackground.jsx:239-309 | a sunny frame has no clouds and no particles. The sun sits at 85%/15% of the canvas with radius 50. Clouds are absent iff Clear. Rain particles go with 150-gray clouds and snow with 200-gray. A missing report gives no particles, no sun and white clouds. The sun shows iff `SunShown`. A non-Clear frame's clouds carry `CloudTint(main)`. The particles drawn are exactly `Classify`'s family |
| `WeatherMotion.Scale` | src/components/WeatherBackground.jsx:108-112 | `r * span + lo` for r in [0,1) lies in [lo, lo+span), or is lo when the span is 0 |
| `WeatherMotion.SpawnedIsSettled` | src/components/WeatherBackground.jsx:106-114 | a freshly spawned particle satisfies the between-frames invariant of its pool |
| `WeatherMotion.FellKeepsSettled` | src/components/WeatherBackground.jsx:239-248 | one fall step keeps size, speed and opacity in range. It keeps y within [0, height], and keeps a rain particle's x within [0, width) |
| `WeatherMotion.FallRunStaysSettled` | src/components/WeatherBackground.jsx:239-248 | over any number of frames a spawned particle keeps its size, speed and opacity, stays within 0 <= y <= height, and as rain stays within [0, width) |
| `WeatherMotion.CloudSpawnedIsAfloat` | src/components/WeatherBackground.jsx:117-130 | a freshly spawned cloud satisfies the between-frames cloud invariant |
| `WeatherMotion.DriftedKeepsAfloat` | src/components/WeatherBackground.jsx:291-295 | one drift step keeps the cloud in the top third. Its x stays within [-w/2, width + w/2], where w is the cloud's own width |
| `WeatherMotion.DriftRunStaysAfloat` | src/components/WeatherBackground.jsx:291-295 | over any number of frames a spawned cloud keeps its shape, speed and opacity, stays in the top third, and never strays more than half its width past either edge |
| `WeatherEngine.RandomSource.constructor` | src/components/WeatherBackground.jsx:108 | a source over a stream of draws in [0,1), starting at the first draw |
| `WeatherEngine.RandomSource.Next` | src/components/WeatherBackground.jsx:108 | returns the next draw of the stream, a value in [0,1) |
| `WeatherEngine.Engine.constructor` | src/components/WeatherBackground.jsx:11-12 | the first call starts with null refs and runs the set-up. The pools are two freshly allocated arrays, as `Init` leaves them |
| `WeatherEngine.Engine.InitParticles` | src/components/WeatherBackground.jsx:34-115 | a fresh pool with exactly `count` particles of the resolved tier. Each one has x in [0,width), y in [0,height), size in [minSize,maxSize), speed in [minSpeed,maxSpeed) and opacity in [0.5,1) |
| `WeatherEngine.Engine.InitClouds` | src/components/WeatherBackground.jsx:117-130 | a fresh pool of exactly 5 clouds. Each has x in [0,width), y in [0,height/3), width in [100,300), height in [40,120), speed in [0.1,0.6) and opacity in [0.4,1) |
| `WeatherEngine.Engine.UpdateParticles` | src/components/WeatherBackground.jsx:239-248 | every particle, in place: y gains its speed, snow sways, and past the bottom edge the particle restarts at y = 0 with fresh x in [0,width). Size, speed and opacity are kept |
| `WeatherEngine.Engine.DriftClouds` | src/components/WeatherBackground.jsx:291-306 | every cloud, in place: x gains its speed. Past width + w/2 it wraps to -w/2 with a fresh y in [0,height/3) |
| `WeatherEngine.Engine.FrameParticles` | src/components/WeatherBackground.jsx:231-251 | the pool array afterwards is the old one or a freshly allocated one. The pool is rebuilt iff particles are wanted and the pool is empty or (main, id) differs from the remembered pair (`RebuildDue`, with `null` and `undefined` distinct). Otherwise the same array is updated in place. Afterwards the pool has the report's count, every particle made one fall step, and no particles remain when none are wanted |
| `WeatherEngine.Engine.FrameClouds` | src/components/WeatherBackground.jsx:253-309 | the cloud array afterwards is the old one or a freshly allocated one. A Clear frame leaves no clouds. Any other main, missing or unknown included, leaves exactly 5: the same ones, or 5 freshly spawned ones if the pool was empty, each drifted one step |
| `WeatherEngine.Engine.Init` | src/components/WeatherBackground.jsx:317-338 | stores size and report. The particle pool is fresh with the report's count, all spawned in range. The cloud pool is fresh: none for Clear, else 5 spawned clouds. The remembered (main, id) is unchanged and the invariant holds |
| `WeatherEngine.Engine.Tick` | src/components/WeatherBackground.jsx:209-314 | each array afterwards is the old one or a freshly allocated one, so frames can follow each other. The pool is rebuilt iff particles are wanted and the pool is empty or (main, id) differs from the last frame's. Otherwise the same array is updated in place. The pool then has the report's count and every particle made one fall step. Clouds: none on Clear, else the same 5 (or 5 fresh ones if empty), each drifted once. (main, id) is remembered exactly as read (`MainField`/`CodeField`), so the next frame does not rebuild. A snow particle that does not respawn moves at most 0.5 sideways. The frame's scene is `SceneOf` and the invariant is kept |
| `WeatherLifecycle.CallsAt` | src/components/WeatherBackground.jsx:22-347 | a function given to `useCallback` is called after no render. One given to `useEffect` on the same dependencies is called after render i exactly when i is the first render or the report or size changed |
| `WeatherLifecycle.NeverAnimatedAsWritten` | src/components/WeatherBackground.jsx:22-347 | as written `animateCanvas` is never called, whatever the renders. An effect would call it after the first render |
| `WeatherLifecycle.RunFrames` | src/components/WeatherBackground.jsx:209-314 | n frames in a row keep the invariant, size and report. Each one draws `SceneOf` the report. After at least one frame, (main, id) is remembered, nothing is due for rebuild, and the pool has the report's count |
| `WeatherLifecycle.Animate` | src/components/WeatherBackground.jsx:317-347 | run from an effect, the set-up happens after exactly the renders where `CallsAt(UseEffect, ..)` fires. The engine then holds the last render's report and size, its pool has that report's count, and nothing is due for rebuild |
| `AqiCard.InfoFor` | src/components/AqiDisplayCard.jsx:4-19 | levels 1..5 give Good/green-500, Fair/lime-500, Moderate/yellow-500, Poor/orange-500 and Very Poor/red-600 in order. Any other value, missing included, gives N/A/gray-500 |
| `AqiCard.LevelsDistinct` | src/components/AqiDisplayCard.jsx:6-15 | two different levels never share a description or a colour class |
| `AqiCard.PointerLeft` | src/components/AqiDisplayCard.jsx:35 | for a level in 1..5 the pointer lies in [10,90], at the centre of that level's band (20(v-1), 20v). A falsy value gives 50% |
| `AqiCard.PointerIncreasing` | src/components/AqiDisplayCard.jsx:35 | the pointer position strictly increases with the level |
| `AqiCard.BandAt` | src/components/AqiDisplayCard.jsx:53-60 | for each k in 0..4, every position in [20k, 20(k+1)) lies on band k of the five `flex-1` bands. A position below 0 or at 100 and above is off the bar |
| `AqiCard.PointerOverOwnColour` | src/components/AqiDisplayCard.jsx:53-60 | the pointer of every level stands over the band painted in that level's own colour class |
| `AqiCard.Card` | src/components/AqiDisplayCard.jsx:21-61 | no data renders nothing. Otherwise the card shows the level's info and a pointer iff the level is truthy, and a real level's pointer sits over its own colour. A shown pointer is always at `PointerLeft` of the value, so 6 is drawn at 110% |

## Findings

| source | as written | input that shows it | evidently intended | confidence | as-written member | corrected member |
|---|---|---|---|---|---|---|
| src/components/WeatherBackground.jsx:22-347 | `animateCanvas` is given to `useCallback` with dependencies `[weatherData, dimensions]`. Nothing calls it, and the only `useEffect` is the resize listener. So no pool is set up and no frame is drawn | any render, e.g. the first one with a Rain report: the canvas stays blank | `useEffect(…, [weatherData, dimensions])`, so the set-up and the frames run on mount and again on each new report or size, and the returned cleanup cancels the old frame | high, not executed | `WeatherLifecycle.NeverAnimatedAsWritten` | `WeatherLifecycle.Animate` |

## Left out

- Canvas drawing (`arc`, `stroke`, `fill`, shadows, the five-lobe cloud shape and the sun's rays, WeatherBackground.jsx:132-207) is side effects with no result. `Scene` records only what kind of thing a frame draws.
- `requestAnimationFrame`/`cancelAnimationFrame`, the cleanup function and the resize listener (WeatherBackground.jsx:14-20, 314, 317-319, 342-346) are host scheduling. `WeatherLifecycle.Animate` stands for them: a frame is a `Tick`, and cleaning up the old call is starting a new one with `Init`. When frames run is a parameter (`frames` per render).
- The early return when the canvas is not yet attached (WeatherBackground.jsx:23-24) is host plumbing.
- A report that has `main` Clear but no `sys` throws in the source. Here `sunrise`/`sunset` are always present.
- Floating-point rounding is not modelled; coordinates are exact reals.
- WeatherEngine.Engine.UpdateParticles: the snow sway is an injected function in [-0.5, 0.5] standing for `Math.sin(y * 0.01) * 0.5`, because trigonometry is outside the model. No bound on snow x is claimed, because the source enforces none.
- WeatherEngine.Engine.InitParticles: states each drawn attribute as lying in its draw range rather than as the exact stream value consumed, because only the ranges are promised. The same holds for Engine.InitClouds, Engine.UpdateParticles, Engine.DriftClouds and Engine.Tick.
- The pollutant lines with `toFixed(2)` (AqiDisplayCard.jsx:71-78) are float formatting. The level is modelled as an optional integer; a non-numeric value is out of scope.
- src/components/WeatherApp.jsx (network fetches, state glue, gradient lookup), WeatherMap.jsx, WeatherDisplayCard.jsx, DailyForecastCard.jsx, Button.jsx and App.jsx are not part of this model. They are I/O, a map-widget wrapper and static markup.
