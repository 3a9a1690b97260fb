/**
 Client code driving a Session through a few concrete play sessions; each
 assertion follows from the handlers' contracts alone.
 */
module Scenarios {
  import opened Wrappers
  import opened App

  /** Out-of-range interval requests are clamped, not rejected. */
  method IntervalIsClamped()
  {
    var s := new Session();
    s.HandleIntervalChange(15.0);
    assert s.intervalTime == 10.0;
    s.HandleIntervalChange(0.0);
    assert s.intervalTime == 1.0;
    s.HandleIntervalChange(2.5);
    assert s.intervalTime == 2.5;
  }

  /** Start at t0, click 250 ms later: one entry, id 1, 0.25 seconds. */
  method FirstClickAfterStart(t0: int)
    requires t0 > 0
  {
    var area := Some(PlayArea(400, 300));
    var s := new Session();
    s.HandleStart(area, 0.5, 0.25, t0);
    assert s.TargetVisible();
    assert s.pixelPosition == Position(145.0, 97.5);
    s.HandlePixelClick(area, 0.1, 0.9, t0 + 250, t0 + 251);
    assert s.reactionTimes == [ReactionTimeEntry(1, 0.25)];
    assert s.lastPixelMoveTime == Some(t0 + 251);
  }

  /** Numbering restarts after a reset: it is per run, not global. */
  method NumberingRestartsAfterReset(t0: int)
    requires t0 > 0
  {
    var area := Some(PlayArea(400, 300));
    var s := new Session();
    s.HandleStart(area, 0.0, 0.0, t0);
    s.HandlePixelClick(area, 0.0, 0.0, t0 + 300, t0 + 300);
    s.HandlePixelClick(area, 0.0, 0.0, t0 + 700, t0 + 700);
    s.HandlePixelClick(area, 0.0, 0.0, t0 + 900, t0 + 900);
    assert |s.reactionTimes| == 3;
    assert s.reactionTimes[0].id == 1 && s.reactionTimes[1].id == 2 && s.reactionTimes[2].id == 3;
    assert s.reactionTimes[1].time == 0.4;
    s.HandleReset();
    assert s.reactionTimes == [] && !s.TargetVisible();
    s.HandleStart(area, 0.0, 0.0, t0 + 2000);
    s.HandlePixelClick(area, 0.0, 0.0, t0 + 2500, t0 + 2500);
    assert s.reactionTimes == [ReactionTimeEntry(1, 0.5)];
  }

  /** Two pauses in a row give back the original state. */
  method PauseTwiceRestores(s: Session)
    requires s.Valid()
    modifies s
  {
    var paused, visible := s.isPaused, s.TargetVisible();
    s.HandlePause();
    s.HandlePause();
    assert s.isPaused == paused && s.TargetVisible() == visible;
  }

  /** A click before any placement (no play area yet) records nothing. */
  method ClickWithoutPlacement(t: int)
  {
    var s := new Session();
    s.HandleStart(None, 0.0, 0.0, t);
    s.HandlePixelClick(None, 0.0, 0.0, t + 100, t + 100);
    assert s.reactionTimes == [] && s.lastClickedTime == Some(t + 100);
    assert s.lastPixelMoveTime == None;
  }

  /** Date.now() equal to 0 reads as "no placement": the click is not recorded. */
  method PlacementAtEpochZeroIsIgnored()
  {
    var area := Some(PlayArea(400, 300));
    var s := new Session();
    s.HandleStart(area, 0.0, 0.0, 0);
    s.HandlePixelClick(area, 0.0, 0.0, 250, 250);
    assert s.reactionTimes == [];
  }
}
