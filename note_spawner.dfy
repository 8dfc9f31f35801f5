/** `spawnNote` of `js/noteSpawner.js`, without the element's height and placement. */
module NoteSpawner {
  import opened Chart
  import opened State

  /** Checkpoints are one second apart. */
  const CheckpointSpacing := 1000

  /** How many whole seconds t >= 1 lie strictly inside a hold lasting `duration` ms. */
  function CheckpointCount(duration: int): nat
  {
    if duration <= 0 then 0 else (duration - 1) / CheckpointSpacing
  }

  /** The checkpoints of a hold: one, unpassed, at every whole second strictly
      between its start and its end. */
  function Checkpoints(startTime: int, endTime: int): (cps: seq<Checkpoint>)
    ensures forall t :: 1 <= t ==>
              (t * CheckpointSpacing < endTime - startTime <==> t <= |cps|)
    ensures forall i :: 0 <= i < |cps| ==>
              cps[i] == Checkpoint(startTime + (i + 1) * CheckpointSpacing, false)
    ensures forall i :: 0 <= i < |cps| ==> startTime < cps[i].time < endTime
    ensures forall i, j :: 0 <= i < j < |cps| ==> cps[i].time < cps[j].time
    ensures endTime - startTime <= CheckpointSpacing ==> cps == []
  {
    var n := CheckpointCount(endTime - startTime);
    CountIsWholeSeconds(endTime - startTime);
    seq(n, i => Checkpoint(startTime + (i + 1) * CheckpointSpacing, false))
  }

  lemma CountIsWholeSeconds(d: int)
    ensures forall t :: 1 <= t ==> (t * CheckpointSpacing < d <==> t <= CheckpointCount(d))
  {
    if d > 0 {
      var n := (d - 1) / CheckpointSpacing;
      assert n * CheckpointSpacing <= d - 1 < (n + 1) * CheckpointSpacing;
      forall t | 1 <= t
        ensures t * CheckpointSpacing < d <==> t <= n
      {
        if t <= n {
          assert t * CheckpointSpacing <= n * CheckpointSpacing;
        } else {
          assert t * CheckpointSpacing >= (n + 1) * CheckpointSpacing;
        }
      }
    }
  }

  /** The `for (t = 1; t < seconds; t++)` loop that fills a hold's checkpoint list. */
  method BuildCheckpoints(startTime: int, endTime: int) returns (cps: seq<Checkpoint>)
    ensures cps == Checkpoints(startTime, endTime)
  {
    cps := [];
    var t := 1;
    while t * CheckpointSpacing < endTime - startTime
      invariant 1 <= t
      invariant t == 1 || (t - 1) * CheckpointSpacing < endTime - startTime
      invariant |cps| == t - 1
      invariant forall i :: 0 <= i < |cps| ==>
                  cps[i] == Checkpoint(startTime + (i + 1) * CheckpointSpacing, false)
      decreases endTime - startTime - t * CheckpointSpacing
    {
      cps := cps + [Checkpoint(startTime + t * CheckpointSpacing, false)];
      t := t + 1;
    }
    CountIsWholeSeconds(endTime - startTime);
    assert |cps| == CheckpointCount(endTime - startTime) by {
      if t > 1 {
        assert (t - 1) * CheckpointSpacing < endTime - startTime;
      } else {
        assert !(1 * CheckpointSpacing < endTime - startTime);
      }
    }
  }

  /** The runtime record a spawned hold gets: not yet held, never ticked, not missed. */
  function NewHoldNote(startTime: int, endTime: int, lane: Lane): HoldNote
  {
    HoldNote(startTime, endTime, lane, false, 0, false)
  }

  /** The state after `spawnNote(state, d)`. */
  function SpawnState(e: EngineState, d: ChartEntry): EngineState
  {
    if d.lane !in e.lanes then e
    else match d
      case Tap(_, lane) => e.(taps := e.taps + [lane])
      case Hold(s, t, lane) =>
        e.(holdCheckpoints := e.holdCheckpoints + [CheckGroup(Checkpoints(s, t), lane)],
           activeHoldNotes := e.activeHoldNotes + [NewHoldNote(s, t, lane)])
  }

  method SpawnNote(g: Game, d: ChartEntry)
    modifies g
    ensures g.View() == SpawnState(old(g.View()), d)
  {
    if d.lane !in g.lanes {
      return;
    }
    match d
    case Tap(_, lane) =>
      g.taps := g.taps + [lane];
    case Hold(s, t, lane) =>
      var cps := BuildCheckpoints(s, t);
      g.holdCheckpoints := g.holdCheckpoints + [CheckGroup(cps, lane)];
      g.activeHoldNotes := g.activeHoldNotes + [NewHoldNote(s, t, lane)];
  }

  /** An entry whose lane is unknown is dropped; a tap adds one tap element and no
      hold bookkeeping; a hold adds exactly one checkpoint group and one fresh
      runtime note, and leaves the tap elements alone. */
  lemma SpawnEffect(e: EngineState, d: ChartEntry)
    ensures d.lane !in e.lanes ==> SpawnState(e, d) == e
    ensures d.lane in e.lanes && d.Tap? ==>
              && SpawnState(e, d).taps == e.taps + [d.lane]
              && SpawnState(e, d).activeHoldNotes == e.activeHoldNotes
              && SpawnState(e, d).holdCheckpoints == e.holdCheckpoints
    ensures d.lane in e.lanes && d.Hold? ==>
              && SpawnState(e, d).taps == e.taps
              && SpawnState(e, d).activeHoldNotes
                 == e.activeHoldNotes + [HoldNote(d.startTime, d.endTime, d.lane, false, 0, false)]
              && SpawnState(e, d).holdCheckpoints
                 == e.holdCheckpoints + [CheckGroup(Checkpoints(d.startTime, d.endTime), d.lane)]
    ensures SpawnState(e, d)
            == e.(taps := SpawnState(e, d).taps,
                  activeHoldNotes := SpawnState(e, d).activeHoldNotes,
                  holdCheckpoints := SpawnState(e, d).holdCheckpoints)
  {
  }
}
