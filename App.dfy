/**
 The reaction-time game of src/App.tsx without React and the DOM: the session
 state of the component as a class, each event handler as a method on it, and
 the pure computations the handlers use (interval clamp, reaction time, the
 appended entry, the random placement) as functions with the properties the
 game relies on.

 The wall clock (`Date.now()`), the random source (`Math.random()`) and the
 measured play area (`playAreaRef.current`) are parameters of the handlers.
 */
module App {
  import opened Wrappers

  /** Lower and upper bound of the interval input, in seconds. */
  const MinTime: real := 1.0
  const MaxTime: real := 10.0

  /** The target's footprint in pixels, subtracted from the play area's extent. */
  const TargetSize: int := 10

  /** Offsets of the target from the play area's top-left corner, in pixels. */
  datatype Position = Position(top: real, left: real)

  /** One row of the results table: the click's ordinal and its latency in seconds. */
  datatype ReactionTimeEntry = ReactionTimeEntry(id: int, time: real)

  /** The measured play area, `offsetWidth` by `offsetHeight`, in whole pixels. */
  datatype PlayArea = PlayArea(width: nat, height: nat)

  // ---------------------------------------------------------------------------
  // Interval

  function Max(a: real, b: real): real { if a < b then b else a }
  function Min(a: real, b: real): real { if a < b then a else b }
  function Dist(a: real, b: real): real { if a < b then b - a else a - b }

  /** `Math.max(minTime, Math.min(maxTime, v))`: the requested interval forced
      into [MinTime, MaxTime]; it is the point of that range closest to `v`. */
  function Clamp(v: real): (r: real)
    ensures MinTime <= r <= MaxTime
    ensures MinTime <= v <= MaxTime ==> r == v
    ensures v < MinTime ==> r == MinTime
    ensures MaxTime < v ==> r == MaxTime
    ensures forall x :: MinTime <= x <= MaxTime ==> Dist(r, v) <= Dist(x, v)
  {
    Max(MinTime, Min(MaxTime, v))
  }

  /** Clamping twice is clamping once. */
  lemma ClampIdempotent(v: real)
    ensures Clamp(Clamp(v)) == Clamp(v)
  {
  }

  // ---------------------------------------------------------------------------
  // Reaction times

  /** JavaScript truthiness of a nullable timestamp: `null` and `0` are both falsy. */
  predicate Truthy(t: Option<int>): (r: bool)
    ensures t == None ==> !r
    ensures t == Some(0) ==> !r
    ensures t.Some? && t.value != 0 ==> r
  {
    t.Some? && t.value != 0
  }

  /** Seconds between the placement at `placedAt` and the click at `now`
      (both in milliseconds). */
  function ReactionTime(now: int, placedAt: int): (seconds: real)
    ensures placedAt as real + seconds * 1000.0 == now as real
    ensures now >= placedAt ==> seconds >= 0.0
    ensures now < placedAt ==> seconds < 0.0
  {
    (now - placedAt) as real / 1000.0
  }

  /** The entries are numbered 1, 2, ..., n in list order. */
  ghost predicate SequentialIds(s: seq<ReactionTimeEntry>)
  {
    forall i :: 0 <= i < |s| ==> s[i].id == i + 1
  }

  /** The list after one recorded click: the old entries untouched and one new
      entry whose id is one more than the number of earlier entries. */
  function Recorded(entries: seq<ReactionTimeEntry>, time: real): (r: seq<ReactionTimeEntry>)
    ensures |r| == |entries| + 1
    ensures r[..|entries|] == entries
    ensures r[|entries|] == ReactionTimeEntry(|entries| + 1, time)
    ensures SequentialIds(entries) <==> SequentialIds(r)
  {
    entries + [ReactionTimeEntry(|entries| + 1, time)]
  }

  /** The list built from the empty list by recording the given latencies in order. */
  function Replay(times: seq<real>): (r: seq<ReactionTimeEntry>)
    ensures |r| == |times|
    ensures SequentialIds(r)
    ensures forall i :: 0 <= i < |times| ==> r[i].time == times[i]
    decreases |times|
  {
    if times == [] then [] else Recorded(Replay(times[..|times| - 1]), times[|times| - 1])
  }

  /** The latency column of a list of entries. */
  function TimesOf(s: seq<ReactionTimeEntry>): seq<real>
  {
    seq(|s|, i requires 0 <= i < |s| => s[i].time)
  }

  /** A list has ids 1..n exactly when it is what recording its own latencies,
      one click at a time from the empty list, produces. */
  lemma SequentialIdsIffReplay(s: seq<ReactionTimeEntry>)
    ensures SequentialIds(s) <==> s == Replay(TimesOf(s))
  {
  }

  /** Ids in a numbered list are strictly increasing, hence distinct. */
  lemma SequentialIdsIncrease(s: seq<ReactionTimeEntry>, i: int, j: int)
    requires SequentialIds(s)
    requires 0 <= i < j < |s|
    ensures s[i].id < s[j].id
  {
  }

  // ---------------------------------------------------------------------------
  // Placement

  /** `Math.random() * span` for one axis, where `span` is the extent of the
      play area less the target's size and `0 <= r < 1`: the offset lies
      between 0 (inclusive) and `span` (exclusive), on whichever side of 0
      `span` is. */
  function Scaled(r: real, span: real): (c: real)
    requires 0.0 <= r < 1.0
    ensures 0.0 <= span ==> 0.0 <= c <= span
    ensures 0.0 < span ==> c < span
    ensures span < 0.0 ==> span < c <= 0.0
  {
    assert span - r * span == (1.0 - r) * span;
    assert 0.0 < span ==> 0.0 < (1.0 - r) * span && 0.0 <= r * span;
    assert span < 0.0 ==> (1.0 - r) * span < 0.0 && r * span <= 0.0;
    r * span
  }

  /** The target, of size TargetSize, lies wholly inside the area. */
  predicate InArea(p: Position, area: PlayArea)
  {
    0.0 <= p.top <= (area.height - TargetSize) as real &&
    0.0 <= p.left <= (area.width - TargetSize) as real
  }

  /** The new position computed from two random draws. */
  function Place(area: PlayArea, r1: real, r2: real): (p: Position)
    requires 0.0 <= r1 < 1.0 && 0.0 <= r2 < 1.0
    ensures TargetSize <= area.height && TargetSize <= area.width ==> InArea(p, area)
    ensures TargetSize < area.height ==> p.top < (area.height - TargetSize) as real
    ensures TargetSize < area.width ==> p.left < (area.width - TargetSize) as real
  {
    Position(Scaled(r1, (area.height - TargetSize) as real), Scaled(r2, (area.width - TargetSize) as real))
  }

  /** Every position strictly inside the admissible range is produced by some
      pair of random draws: placement can reach the whole play area. */
  lemma PlaceReachesEveryPoint(area: PlayArea, p: Position)
    requires TargetSize < area.height && TargetSize < area.width
    requires 0.0 <= p.top < (area.height - TargetSize) as real
    requires 0.0 <= p.left < (area.width - TargetSize) as real
    ensures exists r1, r2 :: 0.0 <= r1 < 1.0 && 0.0 <= r2 < 1.0 && Place(area, r1, r2) == p
  {
    var h := (area.height - TargetSize) as real;
    var w := (area.width - TargetSize) as real;
    var r1 := p.top / h;
    var r2 := p.left / w;
    assert r1 * h == p.top;
    assert r2 * w == p.left;
    assert Place(area, r1, r2) == p;
  }

  // ---------------------------------------------------------------------------
  // Session

  /** The component's state and its event handlers. */
  class Session {
    var isPlaying: bool
    var isPaused: bool
    var intervalTime: real
    var pixelPosition: Position
    var reactionTimes: seq<ReactionTimeEntry>
    var lastClickedTime: Option<int>
    var lastPixelMoveTime: Option<int>

    /** What every handler keeps: the interval is in range and the results
        are numbered 1..n. */
    ghost predicate Valid()
      reads this
    {
      MinTime <= intervalTime <= MaxTime && SequentialIds(reactionTimes)
    }

    /** The target is rendered, and can be clicked, exactly in this state. */
    predicate TargetVisible(): (r: bool)
      reads this
      ensures !isPlaying ==> !r
      ensures isPaused ==> !r
      ensures isPlaying && !isPaused ==> r
    {
      isPlaying && !isPaused
    }

    /** The component's initial state. */
    constructor ()
      ensures Valid()
      ensures !isPlaying && !isPaused && !TargetVisible()
      ensures intervalTime == 1.0
      ensures pixelPosition == Position(0.0, 0.0)
      ensures reactionTimes == []
      ensures lastClickedTime == None && lastPixelMoveTime == None
    {
      isPlaying := false;
      isPaused := false;
      intervalTime := 1.0;
      pixelPosition := Position(0.0, 0.0);
      reactionTimes := [];
      lastClickedTime := None;
      lastPixelMoveTime := None;
    }

    /** Move the target to a random spot and stamp the time; a no-op while the
        play area is not mounted. */
    method MovePixelRandomly(area: Option<PlayArea>, r1: real, r2: real, now: int)
      requires Valid()
      requires 0.0 <= r1 < 1.0 && 0.0 <= r2 < 1.0
      modifies this`pixelPosition, this`lastPixelMoveTime
      ensures Valid()
      ensures area.None? ==> pixelPosition == old(pixelPosition) && lastPixelMoveTime == old(lastPixelMoveTime)
      ensures area.Some? ==> pixelPosition == Place(area.value, r1, r2) && lastPixelMoveTime == Some(now)
      ensures area.Some? && TargetSize <= area.value.height && TargetSize <= area.value.width ==>
                InArea(pixelPosition, area.value)
    {
      if area.Some? {
        pixelPosition := Place(area.value, r1, r2);
        lastPixelMoveTime := Some(now);
      }
    }

    /** Start (or restart) the run and place the target at once. */
    method HandleStart(area: Option<PlayArea>, r1: real, r2: real, now: int)
      requires Valid()
      requires 0.0 <= r1 < 1.0 && 0.0 <= r2 < 1.0
      modifies this`isPlaying, this`isPaused, this`lastClickedTime, this`pixelPosition, this`lastPixelMoveTime
      ensures Valid()
      ensures isPlaying && !isPaused && TargetVisible()
      ensures lastClickedTime == None
      ensures area.None? ==> pixelPosition == old(pixelPosition) && lastPixelMoveTime == old(lastPixelMoveTime)
      ensures area.Some? ==> pixelPosition == Place(area.value, r1, r2) && lastPixelMoveTime == Some(now)
    {
      isPlaying := true;
      isPaused := false;
      lastClickedTime := None;
      MovePixelRandomly(area, r1, r2, now);
    }

    /** Toggle pause; nothing else in the session changes. */
    method HandlePause()
      requires Valid()
      modifies this`isPaused
      ensures Valid()
      ensures isPaused == !old(isPaused)
      ensures isPlaying ==> TargetVisible() == !old(TargetVisible())
      ensures !isPlaying ==> !TargetVisible()
    {
      isPaused := !isPaused;
    }

    /** Stop the run and clear the results; interval, position and placement
        time are kept. */
    method HandleReset()
      requires Valid()
      modifies this`isPlaying, this`isPaused, this`reactionTimes
      ensures Valid()
      ensures !isPlaying && !isPaused && !TargetVisible()
      ensures reactionTimes == []
    {
      isPlaying := false;
      isPaused := false;
      reactionTimes := [];
    }

    /** Store the requested interval, clamped into [MinTime, MaxTime]. */
    method HandleIntervalChange(value: real)
      requires Valid()
      modifies this`intervalTime
      ensures Valid()
      ensures intervalTime == Clamp(value)
      ensures MinTime <= value <= MaxTime ==> intervalTime == value
    {
      intervalTime := Clamp(value);
    }

    /** A click on the target: record the latency since the last placement, if
        one is recorded, then place the target again. `now` is the clock read
        by the handler, `placedAt` the one read by the placement it triggers. */
    method HandlePixelClick(area: Option<PlayArea>, r1: real, r2: real, now: int, placedAt: int)
      requires Valid()
      requires 0.0 <= r1 < 1.0 && 0.0 <= r2 < 1.0
      modifies this`reactionTimes, this`lastClickedTime, this`pixelPosition, this`lastPixelMoveTime
      ensures Valid()
      ensures Truthy(old(lastPixelMoveTime)) ==>
                reactionTimes == Recorded(old(reactionTimes), ReactionTime(now, old(lastPixelMoveTime).value))
      ensures !Truthy(old(lastPixelMoveTime)) ==> reactionTimes == old(reactionTimes)
      ensures old(reactionTimes) <= reactionTimes
      ensures lastClickedTime == Some(now)
      ensures area.None? ==> pixelPosition == old(pixelPosition) && lastPixelMoveTime == old(lastPixelMoveTime)
      ensures area.Some? ==> pixelPosition == Place(area.value, r1, r2) && lastPixelMoveTime == Some(placedAt)
    {
      if Truthy(lastPixelMoveTime) {
        var reactionTime := ReactionTime(now, lastPixelMoveTime.value);
        reactionTimes := Recorded(reactionTimes, reactionTime);
      }
      lastClickedTime := Some(now);
      MovePixelRandomly(area, r1, r2, placedAt);
    }
  }
}
