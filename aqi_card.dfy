/**
 * The air-quality card of src/components/AqiDisplayCard.jsx: the label and colour of an
 * OpenWeatherMap air-quality level (1 = Good .. 5 = Very Poor), the five-band colour bar,
 * and where the pointer above that bar sits.
 */
module AqiCard {
  import opened Wrappers

  datatype AqiInfo = AqiInfo(description: string, colorClass: string)

  /** The shown value for anything that is not a level 1..5. */
  const Unknown := AqiInfo("N/A", "bg-gray-500")

  /** The five levels, in order. */
  const Levels: seq<AqiInfo> := [
    AqiInfo("Good", "bg-green-500"),
    AqiInfo("Fair", "bg-lime-500"),
    AqiInfo("Moderate", "bg-yellow-500"),
    AqiInfo("Poor", "bg-orange-500"),
    AqiInfo("Very Poor", "bg-red-600")
  ]

  /** The colour classes of the five equal bands of the bar, left to right. */
  const Bands: seq<string> := ["bg-green-500", "bg-lime-500", "bg-yellow-500", "bg-orange-500", "bg-red-600"]

  predicate IsLevel(aqi: Option<int>) {
    aqi.Some? && 1 <= aqi.value <= 5
  }

  /** `getAqiInfo`: the switch over the five levels with its "N/A" default. */
  function InfoFor(aqi: Option<int>): (info: AqiInfo)
    ensures IsLevel(aqi) ==> info == Levels[aqi.value - 1]
    ensures !IsLevel(aqi) ==> info == Unknown
    ensures IsLevel(aqi) <==> info != Unknown
  {
    match aqi
    case Some(1) => AqiInfo("Good", "bg-green-500")
    case Some(2) => AqiInfo("Fair", "bg-lime-500")
    case Some(3) => AqiInfo("Moderate", "bg-yellow-500")
    case Some(4) => AqiInfo("Poor", "bg-orange-500")
    case Some(5) => AqiInfo("Very Poor", "bg-red-600")
    case _ => Unknown
  }

  /** Different levels never share a label or a colour. */
  lemma LevelsDistinct(a: int, b: int)
    requires 1 <= a <= 5 && 1 <= b <= 5 && a != b
    ensures InfoFor(Some(a)).description != InfoFor(Some(b)).description
    ensures InfoFor(Some(a)).colorClass != InfoFor(Some(b)).colorClass
  {
  }

  /** JavaScript truthiness of the level: missing and 0 are falsy. */
  predicate Truthy(aqi: Option<int>) {
    aqi.Some? && aqi.value != 0
  }

  /** `pointerLeftPosition` as a percentage of the bar's width. */
  function PointerLeft(aqi: Option<int>): (percent: int)
    ensures !Truthy(aqi) ==> percent == 50
    ensures IsLevel(aqi) ==> 10 <= percent <= 90
    ensures IsLevel(aqi) ==> 20 * (aqi.value - 1) < percent < 20 * aqi.value
    ensures IsLevel(aqi) ==> percent - 20 * (aqi.value - 1) == 20 * aqi.value - percent
    ensures Truthy(aqi) ==> percent + 10 == 20 * aqi.value
  {
    if Truthy(aqi) then aqi.value * 20 - 10 else 50
  }

  /** A higher level puts the pointer further right. */
  lemma PointerIncreasing(a: int, b: int)
    requires 1 <= a < b <= 5
    ensures PointerLeft(Some(a)) < PointerLeft(Some(b))
  {
  }

  /** The colour of the band under a position of the bar, if the position is on it. */
  function BandAt(percent: int): (band: Option<string>)
    ensures forall k :: 0 <= k < |Bands| && 20 * k <= percent < 20 * (k + 1) ==> band == Some(Bands[k])
    ensures percent < 0 || percent >= 100 ==> band.None?
  {
    if 0 <= percent < 100 then Some(Bands[percent / 20]) else None
  }

  /** The pointer of a level stands over the band painted in that level's own colour. */
  lemma PointerOverOwnColour(aqi: int)
    requires 1 <= aqi <= 5
    ensures BandAt(PointerLeft(Some(aqi))) == Some(InfoFor(Some(aqi)).colorClass)
  {
  }

  /** `aqiData?.list?.[0]?.main?.aqi` of an air-pollution response. */
  datatype AirReport = AirReport(aqi: Option<int>)

  /** What the card shows: the level's label and colour, and the pointer position when
      the pointer is drawn. */
  datatype CardView = CardView(info: AqiInfo, pointer: Option<int>)

  /** The card: nothing without data; otherwise the info for the level, and a pointer
      only for a truthy level. */
  function Card(data: Option<AirReport>): (view: Option<CardView>)
    ensures view.None? <==> data.None?
    ensures view.Some? ==> view.value.info == InfoFor(data.value.aqi)
    ensures view.Some? ==> (view.value.pointer.Some? <==> Truthy(data.value.aqi))
    ensures view.Some? && view.value.pointer.Some? ==> view.value.pointer.value == PointerLeft(data.value.aqi)
    ensures view.Some? && IsLevel(data.value.aqi) ==>
      view.value.pointer.Some? && BandAt(view.value.pointer.value) == Some(view.value.info.colorClass)
  {
    match data
    case None => None
    case Some(report) =>
      Some(CardView(InfoFor(report.aqi), if Truthy(report.aqi) then Some(PointerLeft(report.aqi)) else None))
  }
}
