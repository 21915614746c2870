# GridAlpha live-data core in Dafny

This project models the live-data ingestion and time-travel core of the GridAlpha V2
electricity-market dashboard:

- **Ring-buffer store** (`GridStore`): the single store holding the frames (oldest first,
  at most `MAX_BUFFER_LENGTH = 48 × 12 = 576`), the scrubber index `currentIndex`, the
  live pin `isLive` and the performance `tierLevel`, with its three mutators `addFrame`,
  `setIndex` and `setTierLevel`. It is a class with a `seq` field; the capacity is a
  constructor parameter, so both 576 and small scenarios (capacity 3) are covered.
- **Polling bridge** (`SseService`): `mapRowToFrame`, and one poll cycle as a pure
  function `Cycle` from two abstract fetch outcomes (`Failed`, or a body whose quality
  and rows may each be absent) and the current time to the requests issued and the frame
  emitted. The `stopped` flag and the `stop` closure form the `PollingBridge` class,
  whose `Complete` method follows the source's control flow and is proved equal to `Cycle`.
- **Read projections**: the `useGridData` snapshot and its `onFrame → addFrame` wiring
  (`GridData`), the slider range, position, labels and change handler (`TimeSlider`),
  and the falcon logo's mood (`FalconLogo`).
- **Domain types** (`GridTypes`): `LiveDataFrame` with an enumerated `data_quality`
  (`LIVE | STALE | RECONNECTING`) and an optional `{severity ∈ {warning, critical}, message}`
  alert; `gen_mix` as a map from fuel label to number; `ApiEnvelope` whose
  `meta.data_quality` is an unconstrained string and which carries `data` rows and a
  `summary` map.

The model follows the code where a conventional design would differ:
`setIndex` does not clamp its index, there is no "resume live" operation, an upstream
quality of `"RECONNECTING"` becomes `STALE` (only a thrown error yields `RECONNECTING`),
and `stop()` does not cancel a cycle that has already passed its entry check: such a
cycle still delivers its frame (`SseService.InFlightScenario`).

Main results: any sequence of appends leaves exactly the newest `capacity` frames in
arrival order (`PushedAllKeepsNewest`); the live pin keeps the cursor on the tail and a
frozen cursor names the next-newer frame after an eviction; a cycle emits a
`RECONNECTING` frame exactly when it throws, and nothing exactly when the body it reads
has an empty `data` array; the slider, the read façade and the logo agree on the current
frame.

## Model

| member | source | states |
|---|---|---|
| `GridTypes.DataQualityIsOneTag` | src/types/index.ts:38 | a frame's `data_quality` is exactly one of `LIVE`, `STALE`, `RECONNECTING` |
| `GridTypes.HasCriticalAlert` | src/components/FalconLogo.tsx:20-21 | the `?.severity === 'critical'` test: a frame's alert is critical iff its payload, declared in src/types/index.ts at lines 41-46 as absent or `{severity, message}`, is present with severity `critical` |
| `GridStore.Store.constructor` | src/stores/grid.store.ts:45-49 | initial state: empty buffer, index 0, live, tier 1; buffer bound, live pin and cursor range hold |
| `GridStore.Store.AddFrame` | src/stores/grid.store.ts:51-63 | new buffer is the newest `capacity` frames of old buffer + frame, frame is last; bound kept; cursor follows the tail iff live, else unchanged; after an eviction a frozen cursor names the next-newer frame; `isLive`, `tierLevel` unchanged; live pin and cursor range preserved |
| `GridStore.Store.SetIndex` | src/stores/grid.store.ts:65-69 | index set exactly (no clamping), live mode off, frames and tier unchanged; buffer bound kept |
| `GridStore.Store.SetTierLevel` | src/stores/grid.store.ts:71-74 | only the tier changes; buffer bound and live pin kept |
| `GridStore.Pushed` | src/stores/grid.store.ts:53-56 | frame is last; below capacity the result is old frames + frame, at capacity old frames without the head + frame; length stays within capacity; equals the newest-`capacity` window of old + frame |
| `GridStore.PushedAllKeepsNewest` | src/stores/grid.store.ts:51-63 | after any sequence of appends the buffer is exactly the most recent `capacity` frames in arrival order, and never exceeds capacity |
| `GridStore.MaxBufferLengthIs576` | src/stores/grid.store.ts:14-16 | the buffer bound is 48 hours × 12 frames = 576 |
| `GridStore.DeployedStoreScenario` | src/stores/grid.store.ts:14-16 | a store built with `MAX_BUFFER_LENGTH` has capacity 576; a first append while live gives `[f]` with index 0 |
| `GridStore.LiveAppendScenario` | src/stores/grid.store.ts:51-63 | capacity 3, live, appending A, B, C, D gives [B, C, D] with index 2 |
| `GridStore.SeekThenEvictScenario` | src/stores/grid.store.ts:51-69 | capacity 3: seek 0 on [A, B, C] shows A and leaves live mode; appending D gives [B, C, D] with index 0 now naming B |
| `SseService.NarrowQuality` | src/services/sse.service.ts:49 | `LIVE` iff the string is `"LIVE"`, otherwise `STALE`; never `RECONNECTING` |
| `SseService.MapRowToFrame` | src/services/sse.service.ts:39-52 | copies timestamp, zone, total price and congestion; empty generation mix, zero loads, not interpolated, no alert; quality `LIVE` iff `"LIVE"`, never `RECONNECTING` |
| `SseService.Sentinel` | src/services/sse.service.ts:106-117 | the failure frame: zone `PJM-RTO`, zero price, congestion and loads, empty generation mix, not interpolated, `RECONNECTING`, no alert, stamped `now` |
| `SseService.NeedsFallback` | src/services/sse.service.ts:83 | the demo fallback is taken iff the live fetch produced a body whose `data` is missing or has length 0 |
| `SseService.FindRto` | src/services/sse.service.ts:93 | index of the first row whose zone is `PJM-RTO`, or none when no row is |
| `SseService.SelectRow` | src/services/sse.service.ts:92-95 | none iff there are no rows; the first `PJM-RTO` row when one exists, otherwise the first row |
| `SseService.Cycle` | src/services/sse.service.ts:77-118 | requests live, then demo iff the live body's data is missing or empty; emits the sentinel stamped `now` iff a fetch fails or the body read has no `data`; otherwise emits the selected row mapped with the body's quality (default `"LIVE"`), or nothing when there is no row |
| `SseService.ReconnectingIffThrows` | src/services/sse.service.ts:102-118 | an emitted frame is `RECONNECTING` exactly when the cycle threw |
| `SseService.SilentIffNoRows` | src/services/sse.service.ts:92-101 | a cycle emits nothing exactly when the body it reads has an empty `data` array |
| `SseService.DemoIgnoredWithoutFallback` | src/services/sse.service.ts:82-87 | when the live body has rows the demo endpoint is not requested and its outcome cannot change the cycle |
| `SseService.EnvelopeWithRows` | src/services/sse.service.ts:79-96 | a well-formed envelope with rows is used without fallback and its string quality is narrowed into the frame |
| `SseService.PollingBridge.constructor` | src/services/sse.service.ts:69-72 | a started bridge is not stopped and has fetched and delivered nothing |
| `SseService.PollingBridge.Enter` | src/services/sse.service.ts:75 | a cycle proceeds iff the bridge is not stopped |
| `SseService.PollingBridge.Complete` | src/services/sse.service.ts:77-118 | issues exactly the cycle's requests and delivers exactly its frame, in order; does not consult `stopped` |
| `SseService.PollingBridge.Poll` | src/services/sse.service.ts:74-119 | when stopped: no request, no delivery; otherwise one whole cycle |
| `SseService.PollingBridge.Stop` | src/services/sse.service.ts:125-128 | sets `stopped`; changes nothing else, so repeating it is harmless |
| `SseService.FailedFetchScenario` | src/services/sse.service.ts:102-118 | a failed live fetch delivers exactly one frame, the zero-priced `RECONNECTING` sentinel, without a demo request |
| `SseService.StopScenario` | src/services/sse.service.ts:125-128 | after stopping twice, later cycles neither fetch nor deliver |
| `SseService.InFlightScenario` | src/services/sse.service.ts:74-118 | a cycle that passed its entry check before `stop()` still delivers whatever the cycle emits, a real frame included |
| `GridData.At` | src/hooks/useGridData.ts:49 | array indexing yields the element iff the index is within bounds, undefined otherwise |
| `GridData.Snapshot` | src/hooks/useGridData.ts:47-52 | frames, live flag and tier are the store's unchanged; current frame is `frames[currentIndex]` when in range, undefined otherwise and for an empty buffer; reads the store only |
| `GridData.CurrentFramePresent` | src/hooks/useGridData.ts:49 | with the cursor in range, the current frame is missing exactly for an empty buffer |
| `GridData.LiveShowsNewest` | src/hooks/useGridData.ts:49 | while live the current frame is the newest frame |
| `GridData.PollIntoStore` | src/hooks/useGridData.ts:37-45 | one cycle's frame (if any) goes to `addFrame`; nothing emitted leaves the store alone; cursor follows the tail iff live, else stays frozen; live pin, cursor range and buffer bound kept; if live, the next snapshot's current frame is the emitted frame; `stopped` unchanged; the bridge logs the cycle's requests unless stopped |
| `TimeSlider.MaxIdx` | src/components/dashboard/TimeSlider.tsx:35 | 0 for an empty buffer, length − 1 otherwise |
| `TimeSlider.SliderValue` | src/components/dashboard/TimeSlider.tsx:62 | `maxIdx` when live regardless of the cursor, the cursor when not |
| `TimeSlider.SliderShowsCursor` | src/components/dashboard/TimeSlider.tsx:62 | in every state where the live pin holds, the slider position equals the cursor |
| `TimeSlider.SliderWithinRange` | src/components/dashboard/TimeSlider.tsx:58-62 | with the cursor in range the position lies in [0, maxIdx] |
| `TimeSlider.OnChange` | src/components/dashboard/TimeSlider.tsx:63 | any change calls `setIndex`: cursor set to the value, live mode off, buffer bound kept; an in-range value keeps the cursor in range |
| `TimeSlider.FmtTime` | src/components/dashboard/TimeSlider.tsx:15-25 | `"--:--"` exactly for a missing frame |
| `TimeSlider.SliderLabels` | src/components/dashboard/TimeSlider.tsx:52-88 | oldest and newest labels are `"--:--"` iff the buffer is empty; the current label iff the cursor names no frame |
| `TimeSlider.EmptyBufferLabels` | src/components/dashboard/TimeSlider.tsx:52-88 | on an empty buffer the oldest, current and newest labels are all `"--:--"` |
| `TimeSlider.FilledBufferLabels` | src/components/dashboard/TimeSlider.tsx:52-88 | on a non-empty buffer with the cursor in range no label is `"--:--"` |
| `FalconLogo.CurrentFrame` | src/components/FalconLogo.tsx:14-17 | none for an empty buffer; always the same frame the read façade shows |
| `FalconLogo.LmpPrice` | src/components/FalconLogo.tsx:19 | the current frame's total price, or 31.85 without a frame |
| `FalconLogo.HasEmergency` | src/components/FalconLogo.tsx:20-22 | emergency iff there is a current frame with a critical alert or `RECONNECTING` quality |
| `FalconLogo.GetFalconState` | src/components/FalconLogo.tsx:25-31 | calm iff hour ≥ 23 or ≤ 5; otherwise scarcity iff emergency or price > 300; volatility iff no emergency and 150 < price ≤ 300; normal otherwise |
| `FalconLogo.FalconStateOf` | src/components/FalconLogo.tsx:19-31 | for a store state and hour: calm iff calm hours; scarcity iff otherwise the frame at the cursor is an emergency or priced above 300; volatility iff otherwise no emergency and 150 < price ≤ 300 |
| `FalconLogo.NoFrameIsQuiet` | src/components/FalconLogo.tsx:19-31 | with no current frame (price 31.85, no emergency) the mood is calm or normal |
| `FalconLogo.SentinelShowsScarcity` | src/components/FalconLogo.tsx:19-31 | outside calm hours a `RECONNECTING` sentinel at the cursor shows scarcity |

## Left out

- Network I/O: `fetch` and `res.json()` are abstracted as `Fetched` outcomes; a thrown fetch or parse error and a `null` body are `Failed`. A falsy `data` (absent, `null`, `0`, `""`, `false`) is `V1Body(_, None)` and, in the live body, triggers the demo fallback. A truthy `data` whose `length` is 0 (an empty array, or an object such as `{"length": 0}`) also triggers the fallback and behaves as `Some([])` in the live body. Any other truthy non-array `data` skips the fallback and throws at the row lookup, which is what `Failed` does (one request, the sentinel); in the demo body every non-array `data` throws there and is `Failed`. The HTTP status is never checked by the source and is not modelled.
- Rows are taken to be objects of the `V1LmpRow` shape. Three behaviours of malformed rows are not modelled: a `null` row before any `PJM-RTO` row makes the `find` callback throw, so the cycle emits the sentinel; a falsy primitive first row (such as `0`) with no `PJM-RTO` row fails the `if (rtoRow)` test, so nothing is emitted; an empty object row `{}` is mapped into a frame whose fields are all undefined, which is delivered.
- SseService.ReconnectingIffThrows: the "exactly when" holds for rows of the `V1LmpRow` shape only; a `null` row before any `PJM-RTO` row also yields the sentinel in the source.
- SseService.SilentIffNoRows: the "exactly when" holds for rows of the `V1LmpRow` shape only; a falsy primitive first row with no `PJM-RTO` row also yields no frame in the source.
- `createSSEConnection` (the `EventSource` wrapper) is not part of this model: it is unused I/O glue.
- Timers and concurrency: the immediate first poll, the 30-second `setInterval`, `clearInterval`, and overlapping in-flight cycles. No ordering across cycles is claimed; a cycle that crosses `stop()` is modelled by calling `Enter` and `Complete` separately.
- Clock and dates: `new Date().toISOString()` for the sentinel is the `now` parameter; `getHours()` is the `hour` parameter; the Date-based "HH:mm" rendering inside `fmtTime` is the `hhmm` function parameter.
- React, Zustand and Spline plumbing: subscriptions, re-rendering, `useMemo`, `useEffect` mounting/unmounting and the logo's `emitEvent` call; console logging.
- Floating point: prices and loads are `real`; the scrubber index is an `int`, so non-integer JavaScript numbers passed to `setIndex` are not modelled. The browser's own clamping of a range input's displayed value is not modelled.
- `onFrame` throwing inside the `try` block (it would add a sentinel after the frame): the registered callback, `addFrame`, never throws.
- The summary map's values are `unknown` in the source and are a type parameter here; they are never read.
- The performance-tier thresholds (FPS limits and durations) are not part of this model: only the stored tier slot is.
- `GridStore.Store.constructor`: requires a positive capacity; the deployed capacity is the constant 576, and with capacity 0 the source's buffer would hold one frame.
