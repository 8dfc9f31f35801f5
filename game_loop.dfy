/** `gameLoop` of `js/gameLoop.js` as one tick: the guard, the judge, the hp check
    and the spawn loop over the chart queue. The per-frame DOM movement and the
    `requestAnimationFrame` re-arming are left out. */
module GameLoop {
  import opened Chart
  import opened State
  import opened NoteSpawner
  import opened HoldLogic
  import opened GameControl

  /** The loop condition on the queue head: `elapsed >= effectiveTime - spawnOffset`,
      which is false when the effective time is undefined. */
  predicate Due(d: ChartEntry, elapsed: int, spawnOffset: int)
  {
    EffectiveTime(d).Some? && elapsed >= EffectiveTime(d).value - spawnOffset
  }

  /** How many entries the spawn loop pops: the longest due prefix of the queue. */
  function DueCount(q: seq<ChartEntry>, elapsed: int, spawnOffset: int): (n: nat)
    ensures n <= |q|
    ensures forall i :: 0 <= i < n ==> Due(q[i], elapsed, spawnOffset)
    ensures n < |q| ==> !Due(q[n], elapsed, spawnOffset)
  {
    if q == [] || !Due(q[0], elapsed, spawnOffset) then 0
    else 1 + DueCount(q[1..], elapsed, spawnOffset)
  }

  /** `spawnNote` applied to every entry of `ds`, in order. */
  function SpawnAll(e: EngineState, ds: seq<ChartEntry>): EngineState
  {
    if ds == [] then e else SpawnState(SpawnAll(e, ds[..|ds| - 1]), ds[|ds| - 1])
  }

  /** The lanes of the taps among `ds` whose lane is known, in order. */
  function KnownTapLanes(ds: seq<ChartEntry>, lanes: seq<Lane>): seq<Lane>
  {
    if ds == [] then []
    else
      var d := ds[|ds| - 1];
      KnownTapLanes(ds[..|ds| - 1], lanes) + (if d.Tap? && d.lane in lanes then [d.lane] else [])
  }

  /** The fresh runtime records of the holds among `ds` whose lane is known, in order. */
  function KnownHoldNotes(ds: seq<ChartEntry>, lanes: seq<Lane>): seq<HoldNote>
  {
    if ds == [] then []
    else
      var d := ds[|ds| - 1];
      KnownHoldNotes(ds[..|ds| - 1], lanes)
        + (if d.Hold? && d.lane in lanes then [NewHoldNote(d.startTime, d.endTime, d.lane)] else [])
  }

  /** The checkpoint groups of the holds among `ds` whose lane is known, in order:
      each the hold's one-second checkpoints, in its lane. */
  function KnownCheckGroups(ds: seq<ChartEntry>, lanes: seq<Lane>): seq<CheckGroup>
  {
    if ds == [] then []
    else
      var d := ds[|ds| - 1];
      KnownCheckGroups(ds[..|ds| - 1], lanes)
        + (if d.Hold? && d.lane in lanes then [CheckGroup(Checkpoints(d.startTime, d.endTime), d.lane)] else [])
  }

  /** Spawning a run of entries appends, in chart order, one tap element per known-lane
      tap, and one fresh runtime note and one checkpoint group per known-lane hold;
      nothing else changes. */
  lemma {:induction false} SpawnAllAppends(e: EngineState, ds: seq<ChartEntry>)
    ensures var e' := SpawnAll(e, ds);
      && e'.taps == e.taps + KnownTapLanes(ds, e.lanes)
      && e'.activeHoldNotes == e.activeHoldNotes + KnownHoldNotes(ds, e.lanes)
      && e'.holdCheckpoints == e.holdCheckpoints + KnownCheckGroups(ds, e.lanes)
      && e' == e.(taps := e'.taps, activeHoldNotes := e'.activeHoldNotes, holdCheckpoints := e'.holdCheckpoints)
  {
    if ds != [] {
      var init := ds[..|ds| - 1];
      SpawnAllAppends(e, init);
      var mid := SpawnAll(e, init);
      SpawnEffect(mid, ds[|ds| - 1]);
      assert mid.lanes == e.lanes;
    }
  }

  /** The state after the spawn loop: the due prefix spawned in order, the queue cut to
      the matching suffix. */
  function SpawnDueState(e: EngineState, elapsed: int): EngineState
  {
    var n := DueCount(e.chartData, elapsed, e.spawnOffset);
    SpawnAll(e, e.chartData[..n]).(chartData := e.chartData[n..])
  }

  /** The state after one call of `gameLoop`: `clock` is the reading at the start of the
      tick, `checkClock` the reading the checkpoint loop takes; `rects`, `hz` and `tops`
      are the on-screen extents of the hold notes, the hit zone and the tap tops. */
  function TickState(e: EngineState, clock: int, checkClock: int, rects: seq<Rect>, hz: Rect, tops: seq<int>): EngineState
    requires |rects| == |e.activeHoldNotes| && |tops| == |e.taps|
  {
    if !e.playing || e.gameStopped then e
    else
      var elapsed := clock - e.startTime;
      var judged := JudgeState(e, elapsed, checkClock, rects, hz, tops);
      if judged.hp <= 0 then StopState(judged)
      else SpawnDueState(judged, elapsed)
  }

  method SpawnDue(g: Game, elapsed: int)
    modifies g
    ensures g.View() == SpawnDueState(old(g.View()), elapsed)
  {
    ghost var e0 := g.View();
    ghost var k := 0;
    while |g.chartData| > 0 && Due(g.chartData[0], elapsed, g.spawnOffset)
      invariant k <= |e0.chartData| && DueCount(e0.chartData, elapsed, e0.spawnOffset) >= k
      invariant g.View() == SpawnAll(e0, e0.chartData[..k]).(chartData := e0.chartData[k..])
      decreases |g.chartData|
    {
      ghost var before := SpawnAll(e0, e0.chartData[..k]);
      assert e0.chartData[k..][1..] == e0.chartData[k + 1..];
      assert e0.chartData[..k + 1][..k] == e0.chartData[..k];
      assert SpawnAll(e0, e0.chartData[..k + 1]) == SpawnState(before, e0.chartData[k]);
      DueCountStep(e0.chartData, k, elapsed, e0.spawnOffset);
      var d := g.chartData[0];
      g.chartData := g.chartData[1..];
      assert g.View() == before.(chartData := e0.chartData[k + 1..]);
      SpawnNote(g, d);
      SpawnIgnoresQueue(before, d, e0.chartData[k + 1..]);
      k := k + 1;
    }
    DueCountStop(e0.chartData, k, elapsed, e0.spawnOffset);
  }

  lemma SpawnIgnoresQueue(e: EngineState, d: ChartEntry, q: seq<ChartEntry>)
    ensures SpawnState(e.(chartData := q), d) == SpawnState(e, d).(chartData := q)
  {
    var e' := e.(chartData := q);
    assert e'.lanes == e.lanes;
    if d.lane in e.lanes {
      match d
      case Tap(_, lane) =>
        assert SpawnState(e', d) == e'.(taps := e.taps + [lane]);
      case Hold(st, en, lane) =>
        var cps := Checkpoints(st, en);
        assert SpawnState(e', d) == e'.(holdCheckpoints := e.holdCheckpoints + [CheckGroup(cps, lane)],
                                        activeHoldNotes := e.activeHoldNotes + [NewHoldNote(st, en, lane)]);
    }
  }

  lemma {:induction false} DueCountStep(q: seq<ChartEntry>, k: nat, elapsed: int, spawnOffset: int)
    requires k < |q| && DueCount(q, elapsed, spawnOffset) >= k && Due(q[k], elapsed, spawnOffset)
    ensures DueCount(q, elapsed, spawnOffset) >= k + 1
  {
    if k > 0 {
      assert q[1..][k - 1] == q[k];
      DueCountStep(q[1..], k - 1, elapsed, spawnOffset);
    }
  }

  lemma {:induction false} DueCountStop(q: seq<ChartEntry>, k: nat, elapsed: int, spawnOffset: int)
    requires k <= |q| && DueCount(q, elapsed, spawnOffset) >= k && (k == |q| || !Due(q[k], elapsed, spawnOffset))
    ensures DueCount(q, elapsed, spawnOffset) == k
  {
  }

  method Tick(g: Game, clock: int, checkClock: int, rects: seq<Rect>, hz: Rect, tops: seq<int>)
    requires |rects| == |g.activeHoldNotes| && |tops| == |g.taps|
    requires g.Valid()
    modifies g
    ensures g.Valid()
    ensures g.View() == TickState(old(g.View()), clock, checkClock, rects, hz, tops)
  {
    if !g.playing || g.gameStopped {
      return;
    }
    var elapsed := clock - g.startTime;
    HandleActiveHoldNotes(g, elapsed, checkClock, rects, hz, tops);
    if g.hp <= 0 {
      EndGame(g);
      return;
    }
    ghost var judged := g.View();
    SpawnAllAppends(judged, judged.chartData[..DueCount(judged.chartData, elapsed, judged.spawnOffset)]);
    SpawnDue(g, elapsed);
  }

  /** A tick while not playing, or after a stop, changes nothing. */
  lemma TickIdle(e: EngineState, clock: int, checkClock: int, rects: seq<Rect>, hz: Rect, tops: seq<int>)
    requires |rects| == |e.activeHoldNotes| && |tops| == |e.taps|
    requires !e.playing || e.gameStopped
    ensures TickState(e, clock, checkClock, rects, hz, tops) == e
  {
  }

  /** If the judge leaves hp at 0 or below, the game ends in the same tick and nothing
      is spawned: the queue and the live hold notes are as the judge left them. */
  lemma TickGameOver(e: EngineState, clock: int, checkClock: int, rects: seq<Rect>, hz: Rect, tops: seq<int>)
    requires |rects| == |e.activeHoldNotes| && |tops| == |e.taps|
    requires e.playing && !e.gameStopped
    requires JudgeState(e, clock - e.startTime, checkClock, rects, hz, tops).hp <= 0
    ensures var e' := TickState(e, clock, checkClock, rects, hz, tops);
      var judged := JudgeState(e, clock - e.startTime, checkClock, rects, hz, tops);
      && !e'.playing && !e'.recording && e'.gameStopped
      && e'.chartData == e.chartData
      && e'.activeHoldNotes == judged.activeHoldNotes
      && e'.holdCheckpoints == judged.holdCheckpoints
      && e'.taps == []
  {
  }

  /** The spawn loop takes a prefix of due entries off the queue, stops at the first
      entry that is not due, and spawns exactly the entries it took, in order. */
  lemma SpawnDuePrefix(e: EngineState, elapsed: int)
    ensures var e' := SpawnDueState(e, elapsed);
      var n := |e.chartData| - |e'.chartData|;
      && 0 <= n <= |e.chartData|
      && e'.chartData == e.chartData[n..]
      && (forall i :: 0 <= i < n ==> Due(e.chartData[i], elapsed, e.spawnOffset))
      && (e'.chartData == [] || !Due(e'.chartData[0], elapsed, e.spawnOffset))
      && e'.taps == e.taps + KnownTapLanes(e.chartData[..n], e.lanes)
      && e'.activeHoldNotes == e.activeHoldNotes + KnownHoldNotes(e.chartData[..n], e.lanes)
      && e'.holdCheckpoints == e.holdCheckpoints + KnownCheckGroups(e.chartData[..n], e.lanes)
      && e' == e.(chartData := e'.chartData, taps := e'.taps, activeHoldNotes := e'.activeHoldNotes,
                  holdCheckpoints := e'.holdCheckpoints)
  {
    var n := DueCount(e.chartData, elapsed, e.spawnOffset);
    SpawnAllAppends(e, e.chartData[..n]);
  }

  /** A tick that survives the hp check spawns exactly a prefix of the queue, in order,
      leaves the matching suffix, and stops at the first entry that is not due, so
      afterwards the queue is empty or its head is not due yet. */
  lemma TickSpawnsDuePrefix(e: EngineState, clock: int, checkClock: int, rects: seq<Rect>, hz: Rect, tops: seq<int>)
    requires |rects| == |e.activeHoldNotes| && |tops| == |e.taps|
    requires e.playing && !e.gameStopped
    requires JudgeState(e, clock - e.startTime, checkClock, rects, hz, tops).hp > 0
    ensures var e' := TickState(e, clock, checkClock, rects, hz, tops);
      var judged := JudgeState(e, clock - e.startTime, checkClock, rects, hz, tops);
      var n := |e.chartData| - |e'.chartData|;
      && 0 <= n <= |e.chartData|
      && e'.chartData == e.chartData[n..]
      && (forall i :: 0 <= i < n ==> Due(e.chartData[i], clock - e.startTime, e.spawnOffset))
      && (e'.chartData == [] || !Due(e'.chartData[0], clock - e.startTime, e.spawnOffset))
      && e'.taps == judged.taps + KnownTapLanes(e.chartData[..n], e.lanes)
      && e'.activeHoldNotes == judged.activeHoldNotes + KnownHoldNotes(e.chartData[..n], e.lanes)
      && e'.holdCheckpoints == judged.holdCheckpoints + KnownCheckGroups(e.chartData[..n], e.lanes)
      && e'.playing && !e'.gameStopped && e'.hp == judged.hp && e'.combo == judged.combo
  {
    var elapsed := clock - e.startTime;
    var judged := JudgeState(e, elapsed, checkClock, rects, hz, tops);
    SpawnDuePrefix(judged, elapsed);
    assert TickState(e, clock, checkClock, rects, hz, tops) == SpawnDueState(judged, elapsed);
  }

  /** A tap at time 0 is never due: `0 || startTime` is undefined, so such an entry at
      the head blocks the queue for good, and nothing behind it is ever spawned. */
  lemma ZeroTimeTapBlocksQueue(q: seq<ChartEntry>, elapsed: int, spawnOffset: int)
    requires q != [] && q[0].Tap? && q[0].time == 0
    ensures DueCount(q, elapsed, spawnOffset) == 0
  {
  }

  /** The effective time of an entry: a tap's nonzero time, a hold's start time. */
  lemma EffectiveTimeCases(d: ChartEntry)
    ensures d.Tap? && d.time != 0 ==> EffectiveTime(d) == Some(d.time)
    ensures d.Hold? ==> EffectiveTime(d) == Some(d.startTime)
    ensures d.Tap? && d.time == 0 ==> EffectiveTime(d) == None
  {
  }
}
