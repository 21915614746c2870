/**
 * The domain records of the dashboard: the live data frame that flows from the
 * polling bridge into the ring-buffer store, and the REST envelope it is read from.
 * TypeScript string unions become enumerations; `number` becomes `real`.
 */
module GridTypes {
  import opened Wrappers

  /** Freshness indicator surfaced in the UI badge: exactly three tags. */
  datatype DataQuality = LIVE | STALE | RECONNECTING

  /** Alert severity level. */
  datatype Severity = Warning | Critical

  /** An alert attached to a frame. */
  datatype Alert = Alert(severity: Severity, message: string)

  /** Fuel-type label to percentage of generation. */
  type GenMix = map<string, real>

  /** One real-time observation of one market zone. */
  datatype LiveDataFrame = LiveDataFrame(
    timestampUtc: string,
    zoneId: string,
    lmpTotal: real,
    congestion: real,
    genMix: GenMix,
    loadForecastMw: real,
    actualLoadMw: real,
    isInterpolated: bool,
    dataQuality: DataQuality,
    alertPayload: Option<Alert>)

  /** Adaptive-performance fallback tier (1 = full fidelity). */
  type Tier = t: int | 1 <= t <= 3 witness 1

  /** Response metadata; `dataQuality` is a free string, narrowed by the bridge. */
  datatype ApiMeta = ApiMeta(
    apiVersion: string,
    isDemo: bool,
    lastUpdatedUtc: string,
    zone: string,
    dataQuality: string,
    units: string)

  /** Generic wrapper returned by every REST endpoint; `U` stands for the summary's unknown values. */
  datatype ApiEnvelope<T, U> = ApiEnvelope(meta: ApiMeta, data: seq<T>, summary: map<string, U>)

  /** The system-reference zone that the bridge prefers and that its sentinel carries. */
  const RtoZone: string := "PJM-RTO"

  /** Every frame carries exactly one of the three freshness tags. */
  lemma DataQualityIsOneTag(f: LiveDataFrame)
    ensures f.dataQuality == LIVE || f.dataQuality == STALE || f.dataQuality == RECONNECTING
    ensures !(f.dataQuality == LIVE && f.dataQuality == STALE)
    ensures !(f.dataQuality == STALE && f.dataQuality == RECONNECTING)
    ensures !(f.dataQuality == LIVE && f.dataQuality == RECONNECTING)
  {
  }

  /** True when the alert attached to `f` is critical. */
  predicate HasCriticalAlert(f: LiveDataFrame)
    ensures HasCriticalAlert(f) <==>
              exists message :: f.alertPayload == Some(Alert(Critical, message))
  {
    f.alertPayload.Some? && f.alertPayload.value.severity == Critical
  }
}
