/**
 * The polling bridge: each cycle asks the live REST endpoint, falls back to
 * the demo endpoint when the live body has no rows, picks the PJM-RTO row (or
 * the first row), normalises it into a live data frame and hands it to the
 * subscriber; any thrown fetch or parse error becomes a RECONNECTING sentinel.
 * Fetches are abstracted as their outcomes; the clock is the `now` parameter.
 */
module SseService {
  import opened Wrappers
  import opened GridTypes

  /** One row of the upstream /lmp response. */
  datatype V1LmpRow = V1LmpRow(
    zoneName: string,
    lmpTotal: real,
    energyComponent: real,
    congestionComponent: real,
    lossComponent: real,
    timestamp: string,
    timestampUtc: string)

  /** A parsed response body: `meta.data_quality` and `data` may each be absent at run time. */
  datatype V1Body = V1Body(quality: Option<string>, data: Option<seq<V1LmpRow>>)

  /** One fetch-and-parse: it threw, or it produced a body (the HTTP status is never inspected). */
  datatype Fetched = Failed | Ok(body: V1Body)

  /** The two endpoints a cycle may request. */
  datatype Endpoint = LiveEndpoint | DemoEndpoint

  /** What one cycle did: the requests it issued, in order, and the frame it emitted, if any. */
  datatype CycleResult = CycleResult(fetches: seq<Endpoint>, emitted: Option<LiveDataFrame>)

  /** The upstream quality string narrowed to the frame's enumeration. */
  function NarrowQuality(quality: string): (r: DataQuality)
    ensures r == LIVE <==> quality == "LIVE"
    ensures r == STALE <==> quality != "LIVE"
    ensures r != RECONNECTING
  {
    if quality == "LIVE" then LIVE else STALE
  }

  /** Normalise one upstream row, tagged with the response's quality string. */
  function MapRowToFrame(row: V1LmpRow, quality: string): (r: LiveDataFrame)
    ensures r.timestampUtc == row.timestampUtc && r.zoneId == row.zoneName
    ensures r.lmpTotal == row.lmpTotal && r.congestion == row.congestionComponent
    ensures r.genMix == map[] && r.loadForecastMw == 0.0 && r.actualLoadMw == 0.0
    ensures !r.isInterpolated && r.alertPayload.None?
    ensures r.dataQuality == LIVE <==> quality == "LIVE"
    ensures r.dataQuality != RECONNECTING
  {
    LiveDataFrame(row.timestampUtc, row.zoneName, row.lmpTotal, row.congestionComponent,
                  map[], 0.0, 0.0, false, NarrowQuality(quality), None)
  }

  /** The synthetic frame emitted when a cycle throws, stamped with the current time. */
  function Sentinel(now: string): (r: LiveDataFrame)
    ensures r.timestampUtc == now && r.zoneId == RtoZone
    ensures r.lmpTotal == 0.0 && r.congestion == 0.0 && r.loadForecastMw == 0.0 && r.actualLoadMw == 0.0
    ensures r.genMix == map[] && !r.isInterpolated && r.alertPayload.None?
    ensures r.dataQuality == RECONNECTING
  {
    LiveDataFrame(now, RtoZone, 0.0, 0.0, map[], 0.0, 0.0, false, RECONNECTING, None)
  }

  /** `data.find(r => r.zone_name === "PJM-RTO")`, as the index of the first match. */
  function FindRto(rows: seq<V1LmpRow>): (r: Option<nat>)
    ensures r.Some? ==> r.value < |rows| && rows[r.value].zoneName == RtoZone
    ensures r.Some? ==> forall j :: 0 <= j < r.value ==> rows[j].zoneName != RtoZone
    ensures r.None? ==> forall j :: 0 <= j < |rows| ==> rows[j].zoneName != RtoZone
  {
    if |rows| == 0 then None
    else if rows[0].zoneName == RtoZone then Some(0)
    else match FindRto(rows[1..])
      case None => None
      case Some(k) => Some(k + 1)
  }

  /** The representative row: the first PJM-RTO row, else the first row, else none. */
  function SelectRow(rows: seq<V1LmpRow>): (r: Option<V1LmpRow>)
    ensures r.None? <==> |rows| == 0
    ensures r.Some? ==> r.value in rows
    ensures (exists j :: 0 <= j < |rows| && rows[j].zoneName == RtoZone) ==>
              r.Some? && r.value.zoneName == RtoZone &&
              exists i :: 0 <= i < |rows| && rows[i] == r.value &&
                forall j :: 0 <= j < i ==> rows[j].zoneName != RtoZone
    ensures r.Some? && r.value.zoneName != RtoZone ==> r.value == rows[0]
  {
    match FindRto(rows)
    case Some(i) => Some(rows[i])
    case None => if |rows| == 0 then None else Some(rows[0])
  }

  /** The live body has no rows to offer (`!body.data || body.data.length === 0`). */
  predicate NeedsFallback(primary: Fetched)
    ensures NeedsFallback(primary) <==>
              primary.Ok? && (primary.body.data.None? || |primary.body.data.value| == 0)
  {
    primary.Ok? && (primary.body.data.None? || primary.body.data == Some([]))
  }

  /** The outcome whose body the rest of the cycle reads. */
  function UsedOutcome(primary: Fetched, demo: Fetched): Fetched
  {
    if NeedsFallback(primary) then demo else primary
  }

  /** The cycle lands in its catch block: a fetch threw, or the body it reads has no `data`. */
  predicate Throws(primary: Fetched, demo: Fetched)
  {
    var used := UsedOutcome(primary, demo);
    used.Failed? || used.body.data.None?
  }

  /**
   * One poll cycle after the `stopped` check, following the source's control
   * flow: live fetch, optional demo fetch, quality default, row choice, emit.
   */
  function Cycle(primary: Fetched, demo: Fetched, now: string): (r: CycleResult)
    ensures r.fetches == if NeedsFallback(primary) then [LiveEndpoint, DemoEndpoint] else [LiveEndpoint]
    ensures Throws(primary, demo) <==> r.emitted == Some(Sentinel(now))
    ensures !Throws(primary, demo) ==>
              var body := UsedOutcome(primary, demo).body;
              r.emitted == (match SelectRow(body.data.value)
                            case None => None
                            case Some(row) => Some(MapRowToFrame(row, body.quality.GetOr("LIVE"))))
  {
    match primary
    case Failed => CycleResult([LiveEndpoint], Some(Sentinel(now)))
    case Ok(live) =>
      var fallback := live.data.None? || |live.data.value| == 0;
      var fetches := if fallback then [LiveEndpoint, DemoEndpoint] else [LiveEndpoint];
      var outcome := if fallback then demo else primary;
      if outcome.Failed? || outcome.body.data.None? then
        CycleResult(fetches, Some(Sentinel(now)))
      else
        var quality := outcome.body.quality.GetOr("LIVE");
        var row := SelectRow(outcome.body.data.value);
        CycleResult(fetches, if row.Some? then Some(MapRowToFrame(row.value, quality)) else None)
  }

  /** A cycle emits a RECONNECTING frame exactly when it throws: real rows are never tagged so. */
  lemma ReconnectingIffThrows(primary: Fetched, demo: Fetched, now: string)
    ensures Cycle(primary, demo, now).emitted.Some? &&
            Cycle(primary, demo, now).emitted.value.dataQuality == RECONNECTING
            <==> Throws(primary, demo)
  {
  }

  /** A cycle emits nothing exactly when the body it reads has an empty `data` array. */
  lemma SilentIffNoRows(primary: Fetched, demo: Fetched, now: string)
    ensures Cycle(primary, demo, now).emitted.None? <==>
            UsedOutcome(primary, demo).Ok? && UsedOutcome(primary, demo).body.data == Some([])
  {
  }

  /** When the live body has rows, the demo outcome is never requested and cannot matter. */
  lemma DemoIgnoredWithoutFallback(primary: Fetched, demo1: Fetched, demo2: Fetched, now: string)
    requires !NeedsFallback(primary)
    ensures Cycle(primary, demo1, now) == Cycle(primary, demo2, now)
    ensures DemoEndpoint !in Cycle(primary, demo1, now).fetches
  {
  }

  /** A well-formed envelope with rows is used as is, tagged with its narrowed meta quality. */
  lemma EnvelopeWithRows<U>(env: ApiEnvelope<V1LmpRow, U>, demo: Fetched, now: string)
    requires |env.data| > 0
    ensures var r := Cycle(Ok(V1Body(Some(env.meta.dataQuality), Some(env.data))), demo, now);
            r.fetches == [LiveEndpoint] && r.emitted.Some? &&
            r.emitted.value.dataQuality == NarrowQuality(env.meta.dataQuality) &&
            r.emitted.value == MapRowToFrame(SelectRow(env.data).value, env.meta.dataQuality)
  {
  }

  /**
   * The bridge returned by `startPollingBridge`: the `stopped` flag, plus the
   * requests issued and the frames handed to `onFrame`, both in order.
   */
  class PollingBridge {
    var stopped: bool
    var fetched: seq<Endpoint>
    var delivered: seq<LiveDataFrame>

    /** A freshly started bridge: running, nothing requested or delivered yet. */
    constructor ()
      ensures !stopped && fetched == [] && delivered == []
    {
      stopped := false;
      fetched := [];
      delivered := [];
    }

    /** The entry check of `poll`: a cycle proceeds only if the bridge is not stopped. */
    method Enter() returns (proceed: bool)
      ensures proceed == !stopped
    {
      proceed := !stopped;
    }

    /**
     * The body of `poll` past the entry check. It does not look at `stopped`
     * again, so a cycle already in flight completes after `Stop`.
     */
    method Complete(primary: Fetched, demo: Fetched, now: string) returns (emitted: Option<LiveDataFrame>)
      modifies this
      ensures emitted == Cycle(primary, demo, now).emitted
      ensures fetched == old(fetched) + Cycle(primary, demo, now).fetches
      ensures delivered == old(delivered) + (if emitted.Some? then [emitted.value] else [])
      ensures stopped == old(stopped)
    {
      fetched := fetched + [LiveEndpoint];
      var outcome := primary;
      if primary.Ok? && (primary.body.data.None? || |primary.body.data.value| == 0) {
        fetched := fetched + [DemoEndpoint];
        outcome := demo;
      }
      if outcome.Failed? || outcome.body.data.None? {
        emitted := Some(Sentinel(now));
      } else {
        var quality := outcome.body.quality.GetOr("LIVE");
        var row := SelectRow(outcome.body.data.value);
        emitted := if row.Some? then Some(MapRowToFrame(row.value, quality)) else None;
      }
      if emitted.Some? {
        delivered := delivered + [emitted.value];
      }
    }

    /** One `poll`: return at once when stopped, otherwise run a whole cycle. */
    method Poll(primary: Fetched, demo: Fetched, now: string) returns (emitted: Option<LiveDataFrame>)
      modifies this
      ensures old(stopped) ==> emitted.None? && fetched == old(fetched) && delivered == old(delivered)
      ensures !old(stopped) ==> emitted == Cycle(primary, demo, now).emitted &&
                                fetched == old(fetched) + Cycle(primary, demo, now).fetches
      ensures delivered == old(delivered) + (if emitted.Some? then [emitted.value] else [])
      ensures stopped == old(stopped)
    {
      var proceed := Enter();
      if !proceed {
        return None;
      }
      emitted := Complete(primary, demo, now);
    }

    /** The cleanup closure: set `stopped`; safe to call any number of times. */
    method Stop()
      modifies this
      ensures stopped
      ensures fetched == old(fetched) && delivered == old(delivered)
    {
      stopped := true;
    }
  }

  /** A failed live fetch delivers exactly one frame, the RECONNECTING sentinel, and no demo request. */
  method FailedFetchScenario(demo: Fetched, now: string) returns (delivered: seq<LiveDataFrame>, fetched: seq<Endpoint>)
    ensures delivered == [Sentinel(now)] && delivered[0].dataQuality == RECONNECTING
    ensures delivered[0].lmpTotal == 0.0 && delivered[0].congestion == 0.0
    ensures fetched == [LiveEndpoint]
  {
    var bridge := new PollingBridge();
    var _ := bridge.Poll(Failed, demo, now);
    delivered, fetched := bridge.delivered, bridge.fetched;
  }

  /** After `Stop` (called twice), further cycles neither fetch nor deliver. */
  method StopScenario(primary: Fetched, demo: Fetched, now: string)
    returns (delivered: seq<LiveDataFrame>, fetched: seq<Endpoint>)
    ensures delivered == [] && fetched == []
  {
    var bridge := new PollingBridge();
    bridge.Stop();
    bridge.Stop();
    var _ := bridge.Poll(primary, demo, now);
    var _ := bridge.Poll(primary, demo, now);
    delivered, fetched := bridge.delivered, bridge.fetched;
  }

  /** A cycle that passed its entry check before `Stop` still delivers its frame. */
  method InFlightScenario(primary: Fetched, demo: Fetched, now: string) returns (delivered: seq<LiveDataFrame>)
    ensures var c := Cycle(primary, demo, now);
            delivered == if c.emitted.Some? then [c.emitted.value] else []
  {
    var bridge := new PollingBridge();
    var proceed := bridge.Enter();
    assert proceed;
    bridge.Stop();
    var _ := bridge.Complete(primary, demo, now);
    delivered := bridge.delivered;
  }
}
