/** `stopGame`, `resetGame` and `endGame` of `js/gameControl.js`, without the music,
    the button label, the hp/combo/judgement display and the alert. */
module GameControl {
  import opened Chart
  import opened State

  /** Stopping turns both modes off, raises the stopped flag and removes every note
      element from the board; the hold bookkeeping stays until a reset. */
  function StopState(e: EngineState): EngineState
  {
    e.(playing := false, recording := false, gameStopped := true, taps := [])
  }

  function ResetState(e: EngineState): EngineState
  {
    StopState(e).(activeHoldNotes := [], holdCheckpoints := [], startTime := 0, combo := 0,
                  hp := InitialHp, keysPressed := map[], keysHit := map[], gameStopped := false)
  }

  method StopGame(g: Game)
    requires g.Valid()
    modifies g
    ensures g.Valid()
    ensures g.View() == StopState(old(g.View()))
  {
    g.playing := false;
    g.recording := false;
    g.gameStopped := true;
    g.taps := [];
  }

  method ResetGame(g: Game)
    requires g.Valid()
    modifies g
    ensures g.Valid()
    ensures g.View() == ResetState(old(g.View()))
  {
    StopGame(g);
    g.activeHoldNotes := [];
    g.holdCheckpoints := [];
    g.startTime := 0;
    g.combo := 0;
    g.hp := InitialHp;
    g.keysPressed := map[];
    g.keysHit := map[];
    g.gameStopped := false;
  }

  /** Game over: the same state change as stopGame (the alert is left out). */
  method EndGame(g: Game)
    requires g.Valid()
    modifies g
    ensures g.Valid()
    ensures g.View() == StopState(old(g.View()))
  {
    StopGame(g);
  }

  /** After a stop neither mode is on and the game counts as stopped; the charts,
      the recorded notes, the counters and the press times are untouched. */
  lemma StopEffect(e: EngineState)
    ensures var e' := StopState(e);
      && !e'.playing && !e'.recording && e'.gameStopped && e'.taps == []
      && e'.notes == e.notes && e'.chartData == e.chartData && e'.originalChartData == e.originalChartData
      && e'.combo == e.combo && e'.hp == e.hp && e'.holdStartTimes == e.holdStartTimes
      && e'.activeHoldNotes == e.activeHoldNotes && e'.holdCheckpoints == e.holdCheckpoints
  {
  }

  /** A reset leaves an idle, unstopped game with a full hp bar, no combo, no live
      notes and no key state, but keeps the recorded notes, both charts and, as
      written, the record-mode press times. */
  lemma ResetEffect(e: EngineState)
    ensures var e' := ResetState(e);
      && !e'.playing && !e'.recording && !e'.gameStopped
      && e'.activeHoldNotes == [] && e'.holdCheckpoints == [] && e'.taps == []
      && e'.startTime == 0 && e'.combo == 0 && e'.hp == 500
      && e'.keysPressed == map[] && e'.keysHit == map[]
      && e'.notes == e.notes && e'.chartData == e.chartData && e'.originalChartData == e.originalChartData
      && e'.holdStartTimes == e.holdStartTimes
      && e'.lanes == e.lanes && e'.spawnOffset == e.spawnOffset
  {
  }

  /** Resetting twice is resetting once. */
  lemma ResetIdempotent(e: EngineState)
    ensures ResetState(ResetState(e)) == ResetState(e)
  {
  }
}
