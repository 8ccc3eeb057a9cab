/**
 * The pure decisions of the weather background (src/components/WeatherBackground.jsx):
 * which particle family a weather report selects, the ordered tier table that turns a
 * condition code into a particle profile, the cloud tint, the sun test, and the summary
 * of what one frame draws.
 */
module WeatherRules {
  import opened Wrappers

  /** The part of an OpenWeatherMap current-weather report the engine reads:
      `weather[0].main`, `weather[0].id`, `dt`, `sys.sunrise`, `sys.sunset`. A missing
      `weather[0]` or property is `Undefined`; a JSON `null` is `Null`. */
  datatype Snapshot = Snapshot(main: Js<string>, id: Js<int>, dt: int, sunrise: int, sunset: int)

  /** `weatherData?.weather?.[0]?.main`, as the refs store it. */
  function MainField(weather: Option<Snapshot>): Js<string> {
    if weather.Some? then weather.value.main else Undefined
  }

  /** `weatherData?.weather?.[0]?.id`, as the refs store it. */
  function CodeField(weather: Option<Snapshot>): Js<int> {
    if weather.Some? then weather.value.id else Undefined
  }

  /** The category as the classification, the tint switch and the sun test see it. */
  function MainOf(weather: Option<Snapshot>): Option<string> {
    MainField(weather).ToOption()
  }

  /** The code as the tier comparisons see it. */
  function CodeOf(weather: Option<Snapshot>): Option<int> {
    CodeField(weather).ToOption()
  }

  /** The two particle types `initParticles` knows: "rain" and "snow". */
  datatype Family = Rain | Snow

  /** A particle type together with the code handed to `initParticles`. */
  datatype Precip = Precip(family: Family, code: Option<int>)

  /** Particle count with the speed and size ranges of one tier. */
  datatype Profile = Profile(count: nat, minSpeed: real, maxSpeed: real, minSize: real, maxSize: real)

  const LightRain := Profile(150, 3.0, 6.0, 1.5, 3.0)
  const ModerateRain := Profile(300, 5.0, 9.0, 2.0, 4.0)
  const HeavyRain := Profile(500, 8.0, 15.0, 3.0, 6.0)
  const OtherRain := Profile(200, 4.0, 7.0, 2.0, 3.5)
  const LightSnow := Profile(50, 1.0, 3.0, 1.5, 3.0)
  const ModerateSnow := Profile(80, 2.0, 4.0, 2.5, 4.5)
  const HeavySnow := Profile(150, 3.0, 6.0, 4.0, 7.0)
  const OtherSnow := Profile(80, 2.0, 4.0, 2.5, 4.5)

  /** The largest pool any profile asks for. */
  const MaxParticles: nat := 500

  /** Rain tiers, tested in order; the first that matches wins. A missing code passes
      no tier test: each `===` fails, and each range has a lower bound of 200 or more,
      which neither `undefined` nor `null` (converted to 0) reaches. */
  function RainProfile(code: Option<int>): (p: Profile)
    ensures p == LightRain <==> code.Some? && code.value in {500, 300, 310}
    ensures p == ModerateRain <==> code.Some? && code.value in {501, 301, 311, 313}
    ensures p == HeavyRain <==>
      code.Some? && (502 <= code.value <= 531 || 200 <= code.value <= 232 || code.value in {302, 312, 314})
    ensures p == OtherRain <==>
      code.None? || !(code.value in {500, 300, 310, 501, 301, 311, 313, 302, 312, 314}
                      || 502 <= code.value <= 531 || 200 <= code.value <= 232)
  {
    match code
    case None => OtherRain
    case Some(c) =>
      if (c >= 500 && c < 501) || c == 300 || c == 310 then LightRain
      else if (c >= 501 && c < 502) || c == 301 || c == 311 || c == 313 then ModerateRain
      else if (c >= 502 && c <= 531) || (c >= 200 && c <= 232) || c == 302 || c == 312 || c == 314 then HeavyRain
      else OtherRain
  }

  /** Snow tiers, tested in order; the first that matches wins. The moderate tier and
      the fallback carry the same numbers, so they are one profile value. */
  function SnowProfile(code: Option<int>): (p: Profile)
    ensures p == LightSnow <==> code.Some? && code.value in {600, 615, 616}
    ensures p == HeavySnow <==>
      code.Some? && 602 <= code.value <= 622 && code.value !in {615, 616, 620}
    ensures p == ModerateSnow <==>
      code.None? || code.value in {601, 620} || code.value < 600 || code.value > 622
    ensures p in {LightSnow, ModerateSnow, HeavySnow}
  {
    match code
    case None => OtherSnow
    case Some(c) =>
      if (c >= 600 && c < 601) || c == 615 || c == 616 then LightSnow
      else if (c >= 601 && c < 602) || c == 620 then ModerateSnow
      else if c >= 602 && c <= 622 then HeavySnow
      else OtherSnow
  }

  /** The profile `initParticles(type, code)` resolves. */
  function Resolve(precip: Precip): (p: Profile)
    ensures 50 <= p.count <= MaxParticles
    ensures 0.0 < p.minSpeed < p.maxSpeed && 0.0 < p.minSize < p.maxSize
    ensures precip.family == Rain ==> p in {LightRain, ModerateRain, HeavyRain, OtherRain}
    ensures precip.family == Snow ==> p in {LightSnow, ModerateSnow, HeavySnow}
  {
    match precip.family
    case Rain => RainProfile(precip.code)
    case Snow => SnowProfile(precip.code)
  }

  predicate IsRainMain(main: Option<string>) {
    main == Some("Rain") || main == Some("Drizzle") || main == Some("Thunderstorm")
  }

  /** The particle branch at the head of every frame: rain for Rain, Drizzle and
      Thunderstorm (a thunderstorm always uses code 504), snow for Snow, none otherwise. */
  function Classify(main: Option<string>, code: Option<int>): (k: Option<Precip>)
    ensures k.Some? <==> IsRainMain(main) || main == Some("Snow")
    ensures k.Some? && k.value.family == Rain <==> IsRainMain(main)
    ensures k.Some? && k.value.family == Snow <==> main == Some("Snow")
    ensures main == Some("Thunderstorm") ==> k == Some(Precip(Rain, Some(504)))
    ensures k.Some? && main != Some("Thunderstorm") ==> k.value.code == code
  {
    if IsRainMain(main) then Some(Precip(Rain, if main == Some("Thunderstorm") then Some(504) else code))
    else if main == Some("Snow") then Some(Precip(Snow, code))
    else None
  }

  /** How many particles a report's pool holds. */
  function PoolCount(main: Option<string>, code: Option<int>): (n: nat)
    ensures n <= MaxParticles
    ensures n == 0 <==> !(IsRainMain(main) || main == Some("Snow"))
    ensures main == Some("Thunderstorm") ==> n == MaxParticles
    ensures main in {Some("Rain"), Some("Drizzle")} && code == Some(500) ==> n == 150
    ensures main == Some("Snow") && code == Some(601) ==> n == 80
  {
    match Classify(main, code)
    case None => 0
    case Some(precip) => Resolve(precip).count
  }

  /** Fill colours of the clouds; `rgba(150,150,150)`, `rgba(200,200,200)`,
      `rgba(180,180,180)` and the white default of `drawCloud`. */
  datatype Tint = Gray150 | Gray200 | Gray180 | White

  predicate IsHazeMain(main: Option<string>) {
    main.Some? && main.value in {"Mist", "Fog", "Haze", "Smoke", "Dust", "Sand", "Ash"}
  }

  /** The tint chosen for a non-Clear frame (the listed cases and the default branch). */
  function CloudTint(main: Option<string>): (t: Tint)
    ensures t == Gray150 <==> IsRainMain(main)
    ensures t == Gray200 <==> main == Some("Snow")
    ensures t == Gray180 <==> IsHazeMain(main)
    ensures t == White <==> !IsRainMain(main) && main != Some("Snow") && !IsHazeMain(main)
    ensures main in {None, Some("Clouds"), Some("Squall"), Some("Tornado")} ==> t == White
  {
    if IsRainMain(main) then Gray150
    else if main == Some("Snow") then Gray200
    else if IsHazeMain(main) then Gray180
    else White
  }

  /** The sun is drawn on a Clear frame of a present report whose time lies strictly
      between sunrise and sunset. */
  function SunShown(weather: Option<Snapshot>): (shown: bool)
    ensures shown <==>
      MainOf(weather) == Some("Clear") && weather.value.sunrise < weather.value.dt < weather.value.sunset
    ensures weather.Some? && (weather.value.dt == weather.value.sunrise || weather.value.dt == weather.value.sunset)
      ==> !shown
  {
    MainOf(weather) == Some("Clear") && weather.Some? &&
    weather.value.dt > weather.value.sunrise && weather.value.dt < weather.value.sunset
  }

  /** The sun disc: 85% across, 15% down, radius 50. */
  datatype Sun = Sun(x: real, y: real, radius: real)

  /** What one frame draws: rain strokes or snow discs (or no particles), the sun or
      not, and clouds with a tint (none on a Clear frame). */
  datatype Scene = Scene(particles: Option<Family>, sun: Option<Sun>, clouds: Option<Tint>)

  function SceneOf(weather: Option<Snapshot>, width: nat, height: nat): (s: Scene)
    ensures s.sun.Some? ==> s.clouds.None? && s.particles.None?
    ensures s.sun.Some? ==> s.sun.value == Sun(width as real * 0.85, height as real * 0.15, 50.0)
    ensures s.clouds.None? <==> MainOf(weather) == Some("Clear")
    ensures s.particles == Some(Rain) <==> s.clouds == Some(Gray150)
    ensures s.particles == Some(Snow) <==> s.clouds == Some(Gray200)
    ensures weather.None? ==> s == Scene(None, None, Some(White))
    ensures s.sun.Some? <==> SunShown(weather)
    ensures MainOf(weather) != Some("Clear") ==> s.clouds == Some(CloudTint(MainOf(weather)))
    ensures s.particles.Some? <==> Classify(MainOf(weather), CodeOf(weather)).Some?
    ensures s.particles.Some? ==> s.particles.value == Classify(MainOf(weather), CodeOf(weather)).value.family
  {
    var main := MainOf(weather);
    var precip := Classify(main, CodeOf(weather));
    Scene(if precip.Some? then Some(precip.value.family) else None,
          if SunShown(weather) then Some(Sun(width as real * 0.85, height as real * 0.15, 50.0)) else None,
          if main == Some("Clear") then None else Some(CloudTint(main)))
  }
}
