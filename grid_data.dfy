/**
 * The read façade `useGridData`: a snapshot of the store with the frame at the
 * cursor looked up, and the wiring that feeds every frame the polling bridge
 * emits into the store's `addFrame`.
 */
module GridData {
  import opened Wrappers
  import opened GridTypes
  import opened GridStore
  import opened SseService

  /** JavaScript array indexing: the element, or undefined outside the array. */
  function At<T>(s: seq<T>, i: int): (r: Option<T>)
    ensures r.Some? <==> 0 <= i < |s|
    ensures r.Some? ==> r.value == s[i]
  {
    if 0 <= i < |s| then Some(s[i]) else None
  }

  /** What the hook returns to its renderers. */
  datatype GridDataSnapshot = GridDataSnapshot(
    frames: seq<LiveDataFrame>,
    currentFrame: Option<LiveDataFrame>,
    isLive: bool,
    tierLevel: Tier)

  /** The snapshot of the store: its values unchanged, plus the frame at the cursor. */
  function Snapshot(store: Store): (r: GridDataSnapshot)
    reads store
    ensures r.frames == store.frames && r.isLive == store.isLive && r.tierLevel == store.tierLevel
    ensures r.currentFrame.Some? <==> 0 <= store.currentIndex < |store.frames|
    ensures r.currentFrame.Some? ==> r.currentFrame.value == store.frames[store.currentIndex]
    ensures |store.frames| == 0 ==> r.currentFrame.None?
  {
    GridDataSnapshot(store.frames, At(store.frames, store.currentIndex), store.isLive, store.tierLevel)
  }

  /** In a reachable state (cursor in range) the current frame is missing only for an empty buffer. */
  lemma CurrentFramePresent(store: Store)
    requires store.CursorInRange()
    ensures Snapshot(store).currentFrame.None? <==> |store.frames| == 0
  {
  }

  /** While live, the current frame is the newest frame. */
  lemma LiveShowsNewest(store: Store)
    requires store.LiveTracksTail() && store.isLive && |store.frames| > 0
    ensures Snapshot(store).currentFrame == Some(store.frames[|store.frames| - 1])
  {
  }

  /**
   * The `onFrame` callback `useGridData` registers, run for one poll: the frame
   * the bridge delivers (if any) goes straight to `addFrame`.
   */
  method PollIntoStore(bridge: PollingBridge, store: Store, primary: Fetched, demo: Fetched, now: string)
    returns (emitted: Option<LiveDataFrame>)
    requires store.Valid()
    modifies bridge, store
    ensures store.Valid()
    ensures bridge.delivered == old(bridge.delivered) + (if emitted.Some? then [emitted.value] else [])
    ensures old(bridge.stopped) ==> emitted.None?
    ensures !old(bridge.stopped) ==> emitted == Cycle(primary, demo, now).emitted
    ensures emitted.None? ==> store.frames == old(store.frames) && store.currentIndex == old(store.currentIndex)
    ensures emitted.Some? ==> store.frames == Newest(old(store.frames) + [emitted.value], store.capacity)
    ensures emitted.Some? ==>
              store.currentIndex == (if old(store.isLive) then |store.frames| - 1 else old(store.currentIndex))
    ensures store.isLive == old(store.isLive) && store.tierLevel == old(store.tierLevel)
    ensures old(store.LiveTracksTail()) ==> store.LiveTracksTail()
    ensures old(store.CursorInRange()) ==> store.CursorInRange()
    ensures old(store.isLive) && emitted.Some? ==> Snapshot(store).currentFrame == emitted
    ensures bridge.stopped == old(bridge.stopped)
    ensures bridge.fetched == old(bridge.fetched) + (if old(bridge.stopped) then [] else Cycle(primary, demo, now).fetches)
  {
    emitted := bridge.Poll(primary, demo, now);
    if emitted.Some? {
      store.AddFrame(emitted.value);
    }
  }
}
