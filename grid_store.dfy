/**
 * The ring-buffer store: a bounded, oldest-first history of live data frames,
 * a scrubber cursor into it, the live-pin flag and the performance tier slot.
 */
module GridStore {
  import opened GridTypes

  /** Five-minute intervals: twelve frames per hour. */
  const FramesPerHour: nat := 12
  /** Hours of history retained in the client-side ring buffer. */
  const RingBufferHours: nat := 48
  /** Maximum frames retained in the ring buffer. */
  const MaxBufferLength: nat := RingBufferHours * FramesPerHour

  /** `frames.slice(1)`: everything but the oldest frame (an empty buffer stays empty). */
  function DropOldest<T>(s: seq<T>): seq<T>
  {
    if |s| == 0 then [] else s[1..]
  }

  /** Reference definition of a FIFO window: the newest `n` elements of `s`, in order. */
  function Newest<T>(s: seq<T>, n: nat): seq<T>
  {
    if |s| <= n then s else s[|s| - n..]
  }

  /** The buffer `addFrame` builds: evict the head when full, then append `f` at the tail. */
  function Pushed<T>(frames: seq<T>, f: T, capacity: nat): (r: seq<T>)
    ensures |r| > 0 && r[|r| - 1] == f
    ensures 0 < capacity && |frames| <= capacity ==> |r| <= capacity
    ensures 0 < capacity && |frames| <= capacity ==> r == Newest(frames + [f], capacity)
    ensures |frames| < capacity ==> r[..|r| - 1] == frames
    ensures 0 < capacity <= |frames| ==> r[..|r| - 1] == frames[1..]
  {
    if |frames| >= capacity then DropOldest(frames) + [f] else frames + [f]
  }

  /** The buffer after a sequence of `addFrame` calls, applied oldest first. */
  function PushedAll<T>(frames: seq<T>, fs: seq<T>, capacity: nat): seq<T>
  {
    if fs == [] then frames
    else Pushed(PushedAll(frames, fs[..|fs| - 1], capacity), fs[|fs| - 1], capacity)
  }

  /** Trimming to the newest `n` and then appending keeps the same newest `n`. */
  lemma NewestAppend<T>(a: seq<T>, b: seq<T>, n: nat)
    ensures Newest(Newest(a, n) + b, n) == Newest(a + b, n)
  {
  }

  /** One append onto a window of the newest frames is the window of everything seen plus the frame. */
  lemma PushedOntoNewest<T>(seen: seq<T>, f: T, capacity: nat)
    requires 0 < capacity
    ensures Pushed(Newest(seen, capacity), f, capacity) == Newest(seen + [f], capacity)
  {
    var window := Newest(seen, capacity);
    assert |window| <= capacity;
    assert Pushed(window, f, capacity) == Newest(window + [f], capacity);
    NewestAppend(seen, [f], capacity);
  }

  /** `fs` is its prefix followed by its last element. */
  lemma SplitLast<T>(frames: seq<T>, fs: seq<T>)
    requires fs != []
    ensures frames + fs == (frames + fs[..|fs| - 1]) + [fs[|fs| - 1]]
  {
    assert fs == fs[..|fs| - 1] + [fs[|fs| - 1]];
  }

  /**
   * FIFO eviction: whatever the appends, the buffer holds exactly the most
   * recent `capacity` frames of everything seen, in arrival order.
   */
  lemma {:induction false} PushedAllKeepsNewest<T>(frames: seq<T>, fs: seq<T>, capacity: nat)
    requires 0 < capacity && |frames| <= capacity
    ensures PushedAll(frames, fs, capacity) == Newest(frames + fs, capacity)
    ensures |PushedAll(frames, fs, capacity)| <= capacity
  {
    if fs == [] {
      assert frames + fs == frames;
    } else {
      PushedAllKeepsNewest(frames, fs[..|fs| - 1], capacity);
      PushedOntoNewest(frames + fs[..|fs| - 1], fs[|fs| - 1], capacity);
      SplitLast(frames, fs);
    }
  }

  /**
   * The single store instance: frames (oldest first), the scrubber index,
   * the live pin and the tier. All changes go through the three mutators.
   */
  class Store {
    const capacity: nat
    var frames: seq<LiveDataFrame>
    var currentIndex: int
    var isLive: bool
    var tierLevel: Tier

    /** The buffer bound. */
    ghost predicate Valid()
      reads this
    {
      0 < capacity && |frames| <= capacity
    }

    /** While live, the cursor sits on the newest frame (on 0 for an empty buffer). */
    predicate LiveTracksTail()
      reads this
    {
      isLive ==> currentIndex == (if |frames| == 0 then 0 else |frames| - 1)
    }

    /** The cursor names a frame, or is 0 on an empty buffer. */
    predicate CursorInRange()
      reads this
    {
      0 <= currentIndex && (currentIndex < |frames| || currentIndex == 0)
    }

    /** The initial state: empty buffer, cursor 0, live, full-fidelity tier. */
    constructor (capacity: nat)
      requires 0 < capacity
      ensures Valid() && LiveTracksTail() && CursorInRange()
      ensures this.capacity == capacity
      ensures frames == [] && currentIndex == 0 && isLive && tierLevel == 1
    {
      this.capacity := capacity;
      frames := [];
      currentIndex := 0;
      isLive := true;
      tierLevel := 1;
    }

    /** Push a new frame, evicting the oldest when the buffer is full. */
    method AddFrame(frame: LiveDataFrame)
      requires Valid()
      modifies this
      ensures Valid()
      ensures frames == Pushed(old(frames), frame, capacity)
      ensures frames == Newest(old(frames) + [frame], capacity)
      ensures frames[|frames| - 1] == frame
      ensures currentIndex == if old(isLive) then |frames| - 1 else old(currentIndex)
      ensures isLive == old(isLive) && tierLevel == old(tierLevel)
      ensures old(LiveTracksTail()) ==> LiveTracksTail()
      ensures old(CursorInRange()) ==> CursorInRange()
      // after an eviction a frozen cursor names the next-newer frame
      ensures !old(isLive) && |old(frames)| == capacity && 0 <= currentIndex < capacity - 1 ==>
                frames[currentIndex] == old(frames)[currentIndex + 1]
    {
      var next := if |frames| >= capacity then DropOldest(frames) + [frame] else frames + [frame];
      frames := next;
      currentIndex := if isLive then |next| - 1 else currentIndex;
    }

    /** Jump the scrubber to an arbitrary index; leaves live mode. No clamping. */
    method SetIndex(index: int)
      requires Valid()
      modifies this
      ensures Valid()
      ensures currentIndex == index && !isLive
      ensures frames == old(frames) && tierLevel == old(tierLevel)
      ensures LiveTracksTail()
    {
      currentIndex := index;
      isLive := false;
    }

    /** Override the performance tier; nothing else changes. */
    method SetTierLevel(tier: Tier)
      requires Valid()
      modifies this
      ensures Valid()
      ensures tierLevel == tier
      ensures frames == old(frames) && currentIndex == old(currentIndex) && isLive == old(isLive)
      ensures old(LiveTracksTail()) ==> LiveTracksTail()
    {
      tierLevel := tier;
    }
  }

  /** The buffer bound of the deployed store. */
  lemma MaxBufferLengthIs576()
    ensures MaxBufferLength == 576
  {
  }

  /** The deployed store holds 576 frames; its first frame becomes current while live. */
  method DeployedStoreScenario(f: LiveDataFrame) returns (capacity: nat, frames: seq<LiveDataFrame>, index: int)
    ensures capacity == 576 && frames == [f] && index == 0
  {
    var store := new Store(MaxBufferLength);
    store.AddFrame(f);
    capacity, frames, index := store.capacity, store.frames, store.currentIndex;
  }

  /** With capacity 3, appending A, B, C, D while live leaves [B, C, D] with the cursor on D. */
  method LiveAppendScenario(a: LiveDataFrame, b: LiveDataFrame, c: LiveDataFrame, d: LiveDataFrame)
    returns (frames: seq<LiveDataFrame>, index: int, live: bool)
    ensures frames == [b, c, d] && index == 2 && live
  {
    var store := new Store(3);
    store.AddFrame(a);
    store.AddFrame(b);
    store.AddFrame(c);
    store.AddFrame(d);
    frames, index, live := store.frames, store.currentIndex, store.isLive;
  }

  /**
   * With capacity 3 and [A, B, C] live, seeking to 0 freezes the cursor on A;
   * appending D then evicts A and the unchanged cursor 0 names B.
   */
  method SeekThenEvictScenario(a: LiveDataFrame, b: LiveDataFrame, c: LiveDataFrame, d: LiveDataFrame)
    returns (seekFrame: LiveDataFrame, frames: seq<LiveDataFrame>, index: int, live: bool)
    ensures seekFrame == a
    ensures frames == [b, c, d] && index == 0 && !live && frames[index] == b
  {
    var store := new Store(3);
    store.AddFrame(a);
    store.AddFrame(b);
    store.AddFrame(c);
    store.SetIndex(0);
    seekFrame := store.frames[store.currentIndex];
    store.AddFrame(d);
    frames, index, live := store.frames, store.currentIndex, store.isLive;
  }
}
