/** The shared `state` object of the editor/player in `js/`. */
module State {
  import opened Chart

  /** A vertical extent on screen (what `getBoundingClientRect` reports), in pixels. */
  datatype Rect = Rect(top: int, bottom: int)

  /** An entry of `state.activeHoldNotes`; `missed` is the element's `dataset.missed`. */
  datatype HoldNote = HoldNote(startTime: int, endTime: int, lane: Lane,
                               holding: bool, lastTick: int, missed: bool)

  datatype Checkpoint = Checkpoint(time: int, passed: bool)

  /** An entry of `state.holdCheckpoints`: the checkpoints of one spawned hold. */
  datatype CheckGroup = CheckGroup(checkpoints: seq<Checkpoint>, lane: Lane)

  /** The hp that resetGame restores. */
  const InitialHp := 500

  /** A snapshot of every field of the game state the core reads or writes.
      `taps` lists the lanes of the tap-note elements on the board, in document order. */
  datatype EngineState = EngineState(
    lanes: seq<Lane>,
    spawnOffset: int,
    recording: bool,
    playing: bool,
    gameStopped: bool,
    startTime: int,
    combo: nat,
    hp: int,
    keysPressed: map<Lane, bool>,
    keysHit: map<Lane, bool>,
    holdStartTimes: map<Lane, int>,
    notes: seq<ChartEntry>,
    chartData: seq<ChartEntry>,
    originalChartData: seq<ChartEntry>,
    activeHoldNotes: seq<HoldNote>,
    holdCheckpoints: seq<CheckGroup>,
    taps: seq<Lane>)

  /** JavaScript truthiness of `m[k]`: an absent key reads as `undefined`, i.e. false. */
  predicate Flag(m: map<Lane, bool>, k: Lane)
  {
    k in m && m[k]
  }

  /** Record mode and play mode are never on together. */
  predicate ModesExclusive(e: EngineState)
  {
    !(e.recording && e.playing)
  }

  class Game {
    const lanes: seq<Lane>
    const spawnOffset: int
    var recording: bool
    var playing: bool
    var gameStopped: bool
    var startTime: int
    var combo: nat
    var hp: int
    var keysPressed: map<Lane, bool>
    var keysHit: map<Lane, bool>
    var holdStartTimes: map<Lane, int>
    var notes: seq<ChartEntry>
    var chartData: seq<ChartEntry>
    var originalChartData: seq<ChartEntry>
    var activeHoldNotes: seq<HoldNote>
    var holdCheckpoints: seq<CheckGroup>
    var taps: seq<Lane>

    function View(): EngineState
      reads this
    {
      EngineState(lanes, spawnOffset, recording, playing, gameStopped, startTime,
                  combo, hp, keysPressed, keysHit, holdStartTimes, notes, chartData,
                  originalChartData, activeHoldNotes, holdCheckpoints, taps)
    }

    ghost predicate Valid()
      reads this
    {
      ModesExclusive(View())
    }

    /** The initial game state: idle, nothing loaded, hp full. */
    constructor (lanes: seq<Lane>, spawnOffset: int)
      ensures Valid()
      ensures View() == EngineState(lanes, spawnOffset, false, false, false, 0, 0, InitialHp,
                                    map[], map[], map[], [], [], [], [], [], [])
    {
      this.lanes := lanes;
      this.spawnOffset := spawnOffset;
      recording, playing, gameStopped := false, false, false;
      startTime, combo, hp := 0, 0, InitialHp;
      keysPressed, keysHit, holdStartTimes := map[], map[], map[];
      notes, chartData, originalChartData := [], [], [];
      activeHoldNotes, holdCheckpoints, taps := [], [], [];
    }
  }

  /** Loading a chart file stores it twice: the pristine copy and the play queue. */
  method LoadChart(g: Game, chart: seq<ChartEntry>)
    modifies g
    ensures g.View() == old(g.View()).(originalChartData := chart, chartData := chart)
  {
    g.originalChartData := chart;
    g.chartData := chart;
  }
}
