/** The record, stop-recording and play click handlers of `js/controls.js`, as mode
    transitions. The music calls and the button label are left out; the chart file
    that stop-recording offers for download is returned instead of written. */
module Controls {
  import opened Chart
  import opened State
  import opened GameControl
  import Input
  import GameLoop
  import HoldLogic

  function RecordClickState(e: EngineState, clock: int): EngineState
  {
    if e.recording then e
    else ResetState(e).(recording := true, notes := [], startTime := clock)
  }

  function StopRecordingState(e: EngineState): EngineState
  {
    if !e.recording then e else e.(recording := false)
  }

  /** What `downloadNotes` is handed and writes out: nothing for an empty recording. */
  function Download(e: EngineState): Option<seq<ChartEntry>>
  {
    if e.recording && |e.notes| > 0 then Some(e.notes) else None
  }

  function PlayClickState(e: EngineState, clock: int): EngineState
  {
    if e.playing then StopState(e)
    else if |e.originalChartData| == 0 then e
    else ResetState(e).(chartData := e.originalChartData, playing := true, startTime := clock)
  }

  method RecordClick(g: Game, clock: int)
    requires g.Valid()
    modifies g
    ensures g.Valid()
    ensures g.View() == RecordClickState(old(g.View()), clock)
  {
    if g.recording {
      return;
    }
    ResetGame(g);
    g.recording := true;
    g.notes := [];
    g.startTime := clock;
  }

  method StopRecordingClick(g: Game) returns (download: Option<seq<ChartEntry>>)
    requires g.Valid()
    modifies g
    ensures g.Valid()
    ensures g.View() == StopRecordingState(old(g.View()))
    ensures download == Download(old(g.View()))
  {
    if !g.recording {
      return None;
    }
    g.recording := false;
    download := if |g.notes| > 0 then Some(g.notes) else None;
  }

  method PlayClick(g: Game, clock: int)
    requires g.Valid()
    modifies g
    ensures g.Valid()
    ensures g.View() == PlayClickState(old(g.View()), clock)
  {
    if g.playing {
      StopGame(g);
      return;
    }
    if |g.originalChartData| == 0 {
      return;
    }
    ResetGame(g);
    g.chartData := g.originalChartData;
    g.playing := true;
    g.startTime := clock;
  }

  /** Record: ignored while recording; otherwise a reset followed by record mode with
      an empty recording starting now, and play mode off. */
  lemma RecordClickEffect(e: EngineState, clock: int)
    ensures e.recording ==> RecordClickState(e, clock) == e
    ensures !e.recording ==>
              var e' := RecordClickState(e, clock);
              && e'.recording && !e'.playing && !e'.gameStopped && e'.notes == [] && e'.startTime == clock
              && e' == ResetState(e).(recording := true, notes := [], startTime := clock)
  {
  }

  /** Stop recording: ignored unless recording; otherwise record mode ends, nothing
      else changes, and the recording is offered for download just when it is non-empty. */
  lemma StopRecordingEffect(e: EngineState)
    ensures !e.recording ==> StopRecordingState(e) == e && Download(e) == None
    ensures e.recording ==>
              && StopRecordingState(e) == e.(recording := false)
              && (Download(e) == Some(e.notes) <==> |e.notes| > 0)
              && (|e.notes| == 0 <==> Download(e) == None)
  {
  }

  /** Play: while playing only a stop; with no chart loaded nothing; otherwise a reset
      with the queue refilled from the loaded chart, play mode on, record mode off,
      and the clock origin at now. */
  lemma PlayClickEffect(e: EngineState, clock: int)
    ensures e.playing ==> PlayClickState(e, clock) == StopState(e)
    ensures !e.playing && |e.originalChartData| == 0 ==> PlayClickState(e, clock) == e
    ensures !e.playing && |e.originalChartData| > 0 ==>
              var e' := PlayClickState(e, clock);
              && e'.playing && !e'.recording && !e'.gameStopped
              && e'.chartData == e.originalChartData && e'.originalChartData == e.originalChartData
              && e'.startTime == clock && e'.hp == InitialHp && e'.combo == 0
              && e'.activeHoldNotes == [] && e'.holdCheckpoints == [] && e'.taps == []
  {
  }

  /** A tick keeps record mode and play mode from being on together: the judge and the
      spawn loop leave both flags alone, and a game over turns both off. */
  lemma TickKeepsModesExclusive(e: EngineState, clock: int, checkClock: int,
                                rects: seq<Rect>, hz: Rect, tops: seq<int>)
    requires ModesExclusive(e)
    requires |rects| == |e.activeHoldNotes| && |tops| == |e.taps|
    ensures ModesExclusive(GameLoop.TickState(e, clock, checkClock, rects, hz, tops))
  {
    if e.playing && !e.gameStopped {
      var elapsed := clock - e.startTime;
      var judged := HoldLogic.JudgeState(e, elapsed, checkClock, rects, hz, tops);
      assert judged.recording == e.recording && judged.playing == e.playing;
      if judged.hp > 0 {
        var n := GameLoop.DueCount(judged.chartData, elapsed, judged.spawnOffset);
        GameLoop.SpawnAllAppends(judged, judged.chartData[..n]);
        var spawned := GameLoop.SpawnAll(judged, judged.chartData[..n]);
        assert spawned.recording == judged.recording && spawned.playing == judged.playing;
        assert GameLoop.TickState(e, clock, checkClock, rects, hz, tops) == spawned.(chartData := judged.chartData[n..]);
      }
    }
  }

  /** Every handler and the tick keep record mode and play mode from being on together. */
  lemma EveryHandlerKeepsModesExclusive(e: EngineState, key: Lane, clock: int, checkClock: int,
                                        rects: seq<Rect>, hz: Rect, tops: seq<int>)
    requires ModesExclusive(e)
    ensures ModesExclusive(RecordClickState(e, clock))
    ensures ModesExclusive(StopRecordingState(e))
    ensures ModesExclusive(PlayClickState(e, clock))
    ensures ModesExclusive(StopState(e)) && ModesExclusive(ResetState(e))
    ensures ModesExclusive(Input.KeyDownState(e, key, clock))
    ensures ModesExclusive(Input.KeyUpState(e, key, clock))
    ensures |rects| == |e.activeHoldNotes| && |tops| == |e.taps| ==>
              ModesExclusive(GameLoop.TickState(e, clock, checkClock, rects, hz, tops))
  {
    if |rects| == |e.activeHoldNotes| && |tops| == |e.taps| {
      TickKeepsModesExclusive(e, clock, checkClock, rects, hz, tops);
    }
  }
}
