/** Record mode: the keydown/keyup handlers of `js/input.js`. The key is given
    already upper-cased, and the clock reading (`Date.now()`) is a parameter. */
module Input {
  import opened Chart
  import opened State

  /** A press held for less than this many milliseconds records a tap. */
  const TapThreshold := 200

  /** The entry one press/release pair records, with both times relative to the session start. */
  function RecordedNote(press: int, release: int, key: Lane): ChartEntry
  {
    if release - press < TapThreshold then Tap(press, key) else Hold(press, release, key)
  }

  function KeyDownState(e: EngineState, key: Lane, clock: int): EngineState
  {
    if key !in e.lanes then e
    else
      e.(keysPressed := e.keysPressed[key := true],
         keysHit := e.keysHit[key := false],
         holdStartTimes :=
           if e.recording && key !in e.holdStartTimes
           then e.holdStartTimes[key := clock - e.startTime]
           else e.holdStartTimes)
  }

  function KeyUpState(e: EngineState, key: Lane, clock: int): EngineState
  {
    if key !in e.lanes then e
    else if e.recording && key in e.holdStartTimes then
      e.(keysPressed := e.keysPressed[key := false],
         notes := e.notes + [RecordedNote(e.holdStartTimes[key], clock - e.startTime, key)],
         holdStartTimes := e.holdStartTimes - {key})
    else
      e.(keysPressed := e.keysPressed[key := false])
  }

  method KeyDown(g: Game, key: Lane, clock: int)
    requires g.Valid()
    modifies g
    ensures g.Valid()
    ensures g.View() == KeyDownState(old(g.View()), key, clock)
  {
    if key !in g.lanes {
      return;
    }
    g.keysPressed := g.keysPressed[key := true];
    g.keysHit := g.keysHit[key := false];
    if g.recording && key !in g.holdStartTimes {
      g.holdStartTimes := g.holdStartTimes[key := clock - g.startTime];
    }
  }

  method KeyUp(g: Game, key: Lane, clock: int)
    requires g.Valid()
    modifies g
    ensures g.Valid()
    ensures g.View() == KeyUpState(old(g.View()), key, clock)
  {
    if key !in g.lanes {
      return;
    }
    g.keysPressed := g.keysPressed[key := false];
    if g.recording && key in g.holdStartTimes {
      var holdTime := clock - g.startTime;
      var duration := holdTime - g.holdStartTimes[key];
      if duration < TapThreshold {
        g.notes := g.notes + [Tap(g.holdStartTimes[key], key)];
      } else {
        g.notes := g.notes + [Hold(g.holdStartTimes[key], holdTime, key)];
      }
      g.holdStartTimes := g.holdStartTimes - {key};
    }
  }

  /** A key that is not a lane leaves the whole state untouched, on press and on release. */
  lemma ForeignKeyIgnored(e: EngineState, key: Lane, clock: int)
    requires key !in e.lanes
    ensures KeyDownState(e, key, clock) == e
    ensures KeyUpState(e, key, clock) == e
  {
  }

  /** A press marks the lane pressed and re-arms its tap credit; the press time is
      stored only while recording and only if none is stored; nothing else changes. */
  lemma KeyDownEffect(e: EngineState, key: Lane, clock: int)
    requires key in e.lanes
    ensures var e' := KeyDownState(e, key, clock);
      && Flag(e'.keysPressed, key) && key in e'.keysHit && !e'.keysHit[key]
      && (e.recording && key !in e.holdStartTimes ==>
            e'.holdStartTimes == e.holdStartTimes[key := clock - e.startTime])
      && (!e.recording || key in e.holdStartTimes ==> e'.holdStartTimes == e.holdStartTimes)
      && e'.notes == e.notes
      && e' == e.(keysPressed := e'.keysPressed, keysHit := e'.keysHit, holdStartTimes := e'.holdStartTimes)
  {
  }

  /** Key repeat: a second press before the release never moves the stored press time. */
  lemma RepeatedPressKeepsPressTime(e: EngineState, key: Lane, t1: int, t2: int)
    ensures var e1 := KeyDownState(e, key, t1);
      KeyDownState(e1, key, t2).holdStartTimes == e1.holdStartTimes
  {
  }

  /** A release always marks a lane released. While recording with a stored press
      time it appends exactly one entry, built from the press and release times,
      after the untouched earlier entries, and forgets the press time. */
  lemma KeyUpEffect(e: EngineState, key: Lane, clock: int)
    requires key in e.lanes
    ensures var e' := KeyUpState(e, key, clock);
      && key in e'.keysPressed && !e'.keysPressed[key]
      && (e.recording && key in e.holdStartTimes ==>
            && |e'.notes| == |e.notes| + 1
            && e'.notes[..|e.notes|] == e.notes
            && e'.notes[|e.notes|] == RecordedNote(e.holdStartTimes[key], clock - e.startTime, key)
            && key !in e'.holdStartTimes
            && e'.holdStartTimes == e.holdStartTimes - {key})
      && (!e.recording || key !in e.holdStartTimes ==>
            e' == e.(keysPressed := e.keysPressed[key := false]))
  {
  }

  /** Outside record mode neither handler touches the recorded notes or the press times. */
  lemma NotRecordingRecordsNothing(e: EngineState, key: Lane, clock: int)
    requires !e.recording
    ensures KeyDownState(e, key, clock).notes == e.notes
    ensures KeyDownState(e, key, clock).holdStartTimes == e.holdStartTimes
    ensures KeyUpState(e, key, clock).notes == e.notes
    ensures KeyUpState(e, key, clock).holdStartTimes == e.holdStartTimes
  {
  }

  /** A press held for `release - press` milliseconds: under 200 is a tap at the
      press time, 200 or more (200 included) is a hold from press to release, and a
      recorded hold always lasts at least 200 ms. */
  lemma RecordedNoteClassifies(press: int, release: int, key: Lane)
    ensures RecordedNote(press, release, key).lane == key
    ensures RecordedNote(press, release, key) == Tap(press, key) <==> release - press < 200
    ensures RecordedNote(press, release, key) == Hold(press, release, key) <==> release - press >= 200
    ensures RecordedNote(press, release, key).Hold? ==>
              RecordedNote(press, release, key).endTime >= RecordedNote(press, release, key).startTime + 200
    ensures RecordedNote(press, press + 200, key) == Hold(press, press + 200, key)
  {
  }

  /** A complete press/release cycle in record mode, starting with no stored press
      time, appends the one entry for that pair, leaves the lane released and the
      press-time map as it was, and touches nothing else. */
  lemma PressReleaseCycle(e: EngineState, key: Lane, down: int, up: int)
    requires e.recording && key in e.lanes && key !in e.holdStartTimes
    ensures var e' := KeyUpState(KeyDownState(e, key, down), key, up);
      && e'.notes == e.notes + [RecordedNote(down - e.startTime, up - e.startTime, key)]
      && e'.holdStartTimes == e.holdStartTimes
      && e'.keysPressed == e.keysPressed[key := false]
      && e'.keysHit == e.keysHit[key := false]
      && e' == e.(notes := e'.notes, keysPressed := e'.keysPressed, keysHit := e'.keysHit)
  {
    var e1 := KeyDownState(e, key, down);
    assert e1.holdStartTimes - {key} == e.holdStartTimes;
  }
}
