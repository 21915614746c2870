/**
 * The falcon logo's mood: derived from the current frame's price and alert
 * state and from the local hour (`getHours()`, passed in).
 */
module FalconLogo {
  import opened Wrappers
  import opened GridTypes
  import opened GridData
  import opened SseService

  datatype FalconState = Normal | Volatility | Scarcity | Calm

  /** The price assumed when there is no current frame. */
  const DefaultPrice: real := 31.85

  /** `frames.length > 0 ? frames[currentIndex] : null`. */
  function CurrentFrame(frames: seq<LiveDataFrame>, currentIndex: int): (r: Option<LiveDataFrame>)
    ensures |frames| == 0 ==> r.None?
    // the logo and the read façade agree on the current frame
    ensures r == At(frames, currentIndex)
  {
    if |frames| > 0 then At(frames, currentIndex) else None
  }

  /** `currentFrame?.lmp_total ?? 31.85`. */
  function LmpPrice(current: Option<LiveDataFrame>): (r: real)
    ensures current.None? ==> r == DefaultPrice
    ensures current.Some? ==> r == current.value.lmpTotal
  {
    if current.Some? then current.value.lmpTotal else DefaultPrice
  }

  /** A critical alert or a RECONNECTING frame is an emergency; no frame is none. */
  function HasEmergency(current: Option<LiveDataFrame>): (r: bool)
    ensures r <==> current.Some? && (HasCriticalAlert(current.value) || current.value.dataQuality == RECONNECTING)
  {
    match current
    case None => false
    case Some(f) => HasCriticalAlert(f) || f.dataQuality == RECONNECTING
  }

  /** Night hours: 23:00 through 05:59. */
  predicate CalmHour(hour: int)
  {
    hour >= 23 || hour <= 5
  }

  /** The four moods, decided in order: calm hours, then scarcity, then volatility. */
  function GetFalconState(hour: int, price: real, emergency: bool): (r: FalconState)
    ensures r == Calm <==> CalmHour(hour)
    ensures r == Scarcity <==> !CalmHour(hour) && (emergency || price > 300.0)
    ensures r == Volatility <==> !CalmHour(hour) && !emergency && 150.0 < price <= 300.0
    ensures r == Normal <==> !CalmHour(hour) && !emergency && price <= 150.0
  {
    if hour >= 23 || hour <= 5 then Calm
    else if emergency || price > 300.0 then Scarcity
    else if price > 150.0 then Volatility
    else Normal
  }

  /** The logo's mood for a store state at a given hour. */
  function FalconStateOf(frames: seq<LiveDataFrame>, currentIndex: int, hour: int): (r: FalconState)
    ensures r == Calm <==> CalmHour(hour)
    ensures r == Scarcity <==>
              !CalmHour(hour) &&
              (HasEmergency(At(frames, currentIndex)) || LmpPrice(At(frames, currentIndex)) > 300.0)
    ensures r == Volatility <==>
              !CalmHour(hour) && !HasEmergency(At(frames, currentIndex)) &&
              150.0 < LmpPrice(At(frames, currentIndex)) <= 300.0
  {
    var current := CurrentFrame(frames, currentIndex);
    GetFalconState(hour, LmpPrice(current), HasEmergency(current))
  }

  /** Without a current frame the price is 31.85 and there is no emergency: normal or calm. */
  lemma NoFrameIsQuiet(frames: seq<LiveDataFrame>, currentIndex: int, hour: int)
    requires CurrentFrame(frames, currentIndex).None?
    ensures FalconStateOf(frames, currentIndex, hour) == (if CalmHour(hour) then Calm else Normal)
  {
  }

  /** Outside calm hours, a RECONNECTING sentinel at the cursor shows scarcity. */
  lemma SentinelShowsScarcity(frames: seq<LiveDataFrame>, currentIndex: int, hour: int, now: string)
    requires 0 <= currentIndex < |frames| && frames[currentIndex] == Sentinel(now)
    requires !CalmHour(hour)
    ensures FalconStateOf(frames, currentIndex, hour) == Scarcity
  {
  }
}
