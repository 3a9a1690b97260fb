# Reaction-time game: session model

A Dafny model of the single React component in `src/App.tsx`. The component runs a
reaction-time game. A small target is placed at a random spot inside a play area,
the user clicks it, and each click's latency since the last placement is appended
to a numbered results list. With React and the DOM removed, the component is a
session state machine. Its state is the record of `useState` fields. Each event
handler is one atomic transition on that state.

- `App.dfy`, module `App`:
  - the value types `Position`, `ReactionTimeEntry` and `PlayArea`;
  - the pure computations behind the handlers and the lemmas about them;
  - the class `Session`. Its fields are the component's state. Its constructor
    is the initial state, and its methods are the handlers. Each method names
    the fields it writes in a field-level `modifies` frame, so every other field
    is unchanged. `Session.Valid()` is the invariant every handler keeps: the
    interval lies in [1, 10] and the results are numbered 1..n in order.
- `Wrappers.dfy`: `Option`, which stands for TypeScript's `T | null`.
- `Scenarios.dfy`: client code that drives a `Session` through a few concrete
  play sessions. These are the interval clamp, a first click 250 ms after start,
  numbering restarting after reset, a double pause, a click before any
  placement (`ClickWithoutPlacement`) and a placement stamped at time 0.

Nondeterminism and the DOM are parameters of the handlers:
- `Date.now()` is an integer `now` in milliseconds. `handlePixelClick` reads the
  clock twice: once itself, and once more in the placement it triggers. So
  `HandlePixelClick` takes both `now` and `placedAt`.
- `Math.random()` is a pair of reals `r1`, `r2` in [0, 1).
- `playAreaRef.current` is an `Option<PlayArea>` of whole-pixel
  `offsetWidth`/`offsetHeight`. `None` means the ref is null.

The test `if (lastPixelMoveTime)` is modelled as JavaScript truthiness (`Truthy`).
A placement stamped with time 0 therefore counts as no placement.
`Scenarios.PlacementAtEpochZeroIsIgnored` shows this case.

When the play area is narrower or shorter than the target (10 px), the source's
`Math.random() * (extent - 10)` gives an offset between `extent - 10` and 0.
That offset is at most 0. `Scaled` states this case as well.

## Model

| member | source | states |
|---|---|---|
| App.Session.constructor | src/App.tsx:18-25 | initial state: not playing, not paused, interval 1, position (0,0), no results, no timestamps; the invariant holds and no target is shown |
| App.Clamp | src/App.tsx:81-84 | the stored interval always lies in [1,10], equals the request when that is in range, is 1 below and 10 above, and is the point of [1,10] nearest the request |
| App.ClampIdempotent | src/App.tsx:82 | clamping an already clamped interval changes nothing |
| App.Session.HandleIntervalChange | src/App.tsx:81-84 | stores the clamped request and changes no other field; the invariant is kept |
| App.Truthy | src/App.tsx:88 | a placement time counts exactly when it is present and not 0 |
| App.ReactionTime | src/App.tsx:89 | the latency in seconds, multiplied by 1000 and added to the placement time, gives back the click time; it is non-negative exactly when the click is not earlier than the placement |
| App.Recorded | src/App.tsx:90-94 | appending a result keeps every earlier entry, adds exactly one entry whose id is the old count + 1 and whose time is the latency, and the new list is numbered 1..n exactly when the old one was |
| App.Replay | src/App.tsx:86-95 | recording latencies one click at a time from an empty list gives a list of the same length, with ids 1..n and the latencies in click order |
| App.SequentialIdsIffReplay | src/App.tsx:91-94 | a list is numbered 1..n exactly when it equals the replay of its own latencies, so the invariant describes exactly the lists built by recording latencies one click at a time from the empty list |
| App.SequentialIdsIncrease | src/App.tsx:141 | in a numbered list the ids strictly increase, so the row keys are distinct |
| App.Scaled | src/App.tsx:54-55 | a random draw in [0,1) times the span gives an offset from 0 (inclusive) up to the span (exclusive), on the span's side of 0, and exactly 0 for a zero span |
| App.Place | src/App.tsx:52-57 | with both sides at least 10 px, the target lies wholly inside the play area, strictly short of the far edge when the side exceeds 10 px |
| App.PlaceReachesEveryPoint | src/App.tsx:54-57 | every position strictly inside the admissible range is produced by some pair of random draws |
| App.Session.TargetVisible | src/App.tsx:118 | the target is rendered exactly when the game is playing and not paused |
| App.Session.MovePixelRandomly | src/App.tsx:50-59 | keeps the invariant; with a play area, the position becomes the placement from the draws and the placement time becomes `now`, and the target is in bounds when both sides are at least 10 px; without one, nothing changes |
| App.Session.HandleStart | src/App.tsx:62-67 | playing, not paused, target visible, last click cleared, then a placement; results and interval are untouched and the invariant is kept |
| App.Session.HandlePause | src/App.tsx:69-72 | flips `isPaused` only; while playing this toggles visibility, and when not playing the target stays hidden |
| App.Session.HandleReset | src/App.tsx:74-79 | not playing, not paused, no target, empty results, whatever the prior state; interval, position and timestamps are untouched |
| App.Session.HandlePixelClick | src/App.tsx:86-98 | with a truthy placement time, appends exactly the entry for `now` minus that time, with id = old count + 1; otherwise the list is unchanged. The list only grows, the last click becomes `now`, and a placement follows |

## Left out

- The repeating timer: the `useEffect` that re-creates it, `setInterval`, `clearInterval` and the `timer` handle (src/App.tsx:23, 31-47, 71, 78). This is React lifecycle and scheduling, not sequential state. A timer tick only calls `movePixelRandomly`, which `Session.MovePixelRandomly` models.
- React's batched `setState` and stale closures: each handler is one atomic transition on the current state.
- `Math.random()` and `Date.now()`: they are foreign calls, passed in as parameters. No clock monotonicity is assumed.
- IEEE floating point: numbers are Dafny `real`/`int`. Rounding in `/ 1000` and `Math.random() * …` is not modelled, and neither is `Number(e.target.value)` producing `NaN`. The interval handler takes the already-converted number.
- The DOM measurement (`offsetWidth`/`offsetHeight`): it enters only as the optional `PlayArea`. Changes of the area between placements are not tracked, so staying in bounds is a property of each placement and not a session invariant.
- Rendering and JSX (src/App.tsx:100-151): the results table shows `entry.id.toFixed(3)` where the latency belongs (line 143), and `left` lacks its `px` unit (line 124). Both are presentation only.
- The visibility guard on clicks: the handler is attached only while the target is rendered (src/App.tsx:118-121). The handler itself does not check this, so the model does not require `TargetVisible()`.
