/**
 * The time-travel scrubber: the slider's range and position derived from the
 * store, the labels it shows, and its change handler, which calls `setIndex`.
 */
module TimeSlider {
  import opened Wrappers
  import opened GridTypes
  import opened GridStore
  import opened GridData

  /** `Math.max(frames.length - 1, 0)`: the slider's upper bound. */
  function MaxIdx(count: nat): (r: nat)
    ensures count == 0 ==> r == 0
    ensures count > 0 ==> r == count - 1
  {
    var last := count - 1;
    if last > 0 then last else 0
  }

  /** The slider position: pinned to the end while live, else the cursor. */
  function SliderValue(frames: seq<LiveDataFrame>, currentIndex: int, isLive: bool): (r: int)
    ensures isLive ==> r == MaxIdx(|frames|)
    ensures !isLive ==> r == currentIndex
  {
    if isLive then MaxIdx(|frames|) else currentIndex
  }

  /** In every state the store can reach, the slider shows exactly the cursor. */
  lemma SliderShowsCursor(store: Store)
    requires store.LiveTracksTail()
    ensures SliderValue(store.frames, store.currentIndex, store.isLive) == store.currentIndex
  {
  }

  /** With the cursor in range, the slider position lies within [0, maxIdx]. */
  lemma SliderWithinRange(store: Store)
    requires store.CursorInRange()
    ensures 0 <= SliderValue(store.frames, store.currentIndex, store.isLive) <= MaxIdx(|store.frames|)
  {
  }

  /**
   * `onChange`: the range input yields a value in [0, maxIdx] and it goes to
   * `setIndex`, so any movement of the slider leaves live mode.
   */
  method OnChange(store: Store, value: int)
    requires store.Valid()
    modifies store
    ensures store.Valid()
    ensures store.currentIndex == value && !store.isLive
    ensures store.frames == old(store.frames) && store.tierLevel == old(store.tierLevel)
    ensures store.LiveTracksTail()
    ensures 0 <= value <= MaxIdx(|store.frames|) ==> store.CursorInRange()
    ensures SliderValue(store.frames, store.currentIndex, store.isLive) == value
  {
    store.SetIndex(value);
  }

  /** The label for a missing frame. */
  const NoTime: string := "--:--"

  /**
   * `fmtTime`: the placeholder for a missing frame, otherwise the frame's
   * timestamp rendered by `hhmm` (the Date-based "HH:mm" formatting) and " UTC".
   */
  function FmtTime(frame: Option<LiveDataFrame>, hhmm: string -> string): (r: string)
    ensures r == NoTime <==> frame.None?
  {
    if frame.None? then NoTime
    else
      var s := hhmm(frame.value.timestampUtc) + " UTC";
      assert s[|s| - 1] == 'C' != NoTime[|NoTime| - 1];
      s
  }

  /** The oldest, current and newest timestamps shown around the slider. */
  datatype Labels = Labels(oldest: string, current: string, newest: string)

  function SliderLabels(frames: seq<LiveDataFrame>, currentIndex: int, hhmm: string -> string): (r: Labels)
    ensures r.oldest == NoTime <==> |frames| == 0
    ensures r.newest == NoTime <==> |frames| == 0
    ensures r.current == NoTime <==> !(0 <= currentIndex < |frames|)
  {
    Labels(FmtTime(At(frames, 0), hhmm),
           FmtTime(At(frames, currentIndex), hhmm),
           FmtTime(At(frames, |frames| - 1), hhmm))
  }

  /** On an empty buffer all three labels are the placeholder, whatever the cursor. */
  lemma EmptyBufferLabels(currentIndex: int, hhmm: string -> string)
    ensures SliderLabels([], currentIndex, hhmm) == Labels(NoTime, NoTime, NoTime)
  {
  }

  /** On a non-empty buffer with the cursor in range, no label is the placeholder. */
  lemma FilledBufferLabels(store: Store, hhmm: string -> string)
    requires store.CursorInRange() && |store.frames| > 0
    ensures var l := SliderLabels(store.frames, store.currentIndex, hhmm);
            l.oldest != NoTime && l.current != NoTime && l.newest != NoTime
  {
  }
}
