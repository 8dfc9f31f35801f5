/** The older standalone player of `play/play.js`. Vertical positions are kept in
    half-pixels (y doubled) so that the 7.5 px fall step is an integer: the step is
    15, the 600 px miss line is 1200, the 500 px hit line 1000 and the 50 px hit
    window 100. Chart loading, audio, the DOM and the animation-frame callbacks are
    left out; a frame is one call of `Frame`. */
module Play {
  import opened Chart

  const PlayLanes: seq<Lane> := ["a", "s", "d", "f"]
  const FallStep := 15
  const MissLine := 1200
  const HitLine := 1000
  const HitWindow := 100
  const MaxHp := 100
  const Heal := 2
  const FallMissPenalty := 10
  const KeyMissPenalty := 5
  /** The `offset` added to the clock; the source sets it to 0. */
  const Offset := 0

  datatype FallingNote = FallingNote(lane: Lane, y: int)

  /** `currentTime >= chartData[i].time`: a hold entry has no `time`, so it never comes due. */
  predicate PlayDue(d: ChartEntry, currentTime: int)
  {
    d.Tap? && currentTime >= d.time
  }

  /** The notes `createNote` makes for a run of chart entries: one per entry, at the
      top, whatever its lane. */
  function NewNotes(ds: seq<ChartEntry>): (r: seq<FallingNote>)
    ensures |r| == |ds|
    ensures forall i :: 0 <= i < |ds| ==> r[i] == FallingNote(ds[i].lane, 0)
  {
    if ds == [] then [] else NewNotes(ds[..|ds| - 1]) + [FallingNote(ds[|ds| - 1].lane, 0)]
  }

  function Advance(n: FallingNote): FallingNote
  {
    n.(y := n.y + FallStep)
  }

  /** The notes one call of `moveNotes` keeps: every note advanced, those now below
      the miss line dropped, the rest in their order. */
  function Fallen(notes: seq<FallingNote>): seq<FallingNote>
  {
    if notes == [] then []
    else
      var m := Advance(notes[|notes| - 1]);
      Fallen(notes[..|notes| - 1]) + (if m.y > MissLine then [] else [m])
  }

  /** How many notes one call of `moveNotes` drops. */
  function MissCount(notes: seq<FallingNote>): nat
  {
    if notes == [] then 0
    else MissCount(notes[..|notes| - 1]) + (if Advance(notes[|notes| - 1]).y > MissLine then 1 else 0)
  }

  /** moveNotes drops as many notes as it counts misses. */
  lemma {:induction false} FallenCount(notes: seq<FallingNote>)
    ensures |Fallen(notes)| + MissCount(notes) == |notes|
  {
    if notes != [] {
      FallenCount(notes[..|notes| - 1]);
    }
  }

  /** moveNotes keeps exactly the advanced notes that are not below the miss line. */
  lemma {:induction false} FallenMembers(notes: seq<FallingNote>)
    ensures forall n :: n in Fallen(notes) <==> n.y <= MissLine && exists m :: m in notes && n == Advance(m)
  {
    if notes != [] {
      var init := notes[..|notes| - 1];
      var last := notes[|notes| - 1];
      FallenMembers(init);
      assert notes == init + [last];
      forall n: FallingNote | n.y <= MissLine && exists m :: m in notes && n == Advance(m)
        ensures n in Fallen(notes)
      {
        var m :| m in notes && n == Advance(m);
        if m != last {
          assert m in init;
        }
      }
    }
  }

  /** No miss is counted exactly when no note crosses the line, and then every note is
      simply advanced in place. */
  lemma {:induction false} NoMissAdvancesAll(notes: seq<FallingNote>)
    ensures MissCount(notes) == 0 <==> forall i :: 0 <= i < |notes| ==> Advance(notes[i]).y <= MissLine
    ensures MissCount(notes) == 0 ==> Fallen(notes) == seq(|notes|, i requires 0 <= i < |notes| => Advance(notes[i]))
  {
    if notes != [] {
      var init := notes[..|notes| - 1];
      NoMissAdvancesAll(init);
      assert forall i :: 0 <= i < |init| ==> init[i] == notes[i];
    }
  }

  /** The keydown hit test: a note of the pressed lane within 50 px of the hit line. */
  predicate Hits(n: FallingNote, key: Lane)
  {
    n.lane == key && Abs(n.y - HitLine) < HitWindow
  }

  /** The index of the first note the key hits, if any. */
  function FirstHit(notes: seq<FallingNote>, key: Lane): (r: Option<nat>)
    ensures r.Some? ==> r.value < |notes| && Hits(notes[r.value], key)
    ensures r.Some? ==> forall j :: 0 <= j < r.value ==> !Hits(notes[j], key)
    ensures r.None? ==> forall j :: 0 <= j < |notes| ==> !Hits(notes[j], key)
  {
    if notes == [] then None
    else if Hits(notes[0], key) then Some(0)
    else match FirstHit(notes[1..], key)
      case None => None
      case Some(j) => Some(j + 1)
  }

  function Min(a: int, b: int): int
  {
    if a < b then a else b
  }

  /** The module-level variables of the player; `noteIndex` and `startTime` belong to
      the running frame loop started by `spawnNotes`. */
  class Player {
    var fallingNotes: seq<FallingNote>
    var chartData: seq<ChartEntry>
    var isPlaying: bool
    var hp: int
    var combo: nat
    var noteIndex: nat
    var startTime: int

    /** hp never exceeds its starting value, and a running loop's index stays inside the chart. */
    ghost predicate Valid()
      reads this
    {
      hp <= MaxHp && (isPlaying ==> noteIndex <= |chartData|)
    }

    constructor ()
      ensures Valid()
      ensures fallingNotes == [] && chartData == [] && !isPlaying && hp == MaxHp && combo == 0
    {
      fallingNotes, chartData := [], [];
      isPlaying := false;
      hp, combo := MaxHp, 0;
      noteIndex, startTime := 0, 0;
    }

    /** The start button: `songName` is the selected song (empty when none is), `loaded`
        the chart the fetch produced (empty when it failed), `clock` the reading of
        `Date.now()` that `spawnNotes` takes as its start time once the chart has loaded. */
    method Start(songName: string, loaded: seq<ChartEntry>, clock: int)
      requires Valid()
      modifies this
      ensures Valid()
      ensures old(isPlaying) || songName == "" ==> unchanged(this)
      ensures !old(isPlaying) && songName != "" ==>
                && fallingNotes == [] && chartData == loaded
                && hp == old(hp) && combo == old(combo)
                && (isPlaying <==> |loaded| > 0)
                && (|loaded| > 0 ==> noteIndex == 0 && startTime == clock)
                && (|loaded| == 0 ==> noteIndex == old(noteIndex) && startTime == old(startTime))
    {
      if isPlaying {
        return;
      }
      if songName == "" {
        return;
      }
      fallingNotes := [];
      chartData := loaded;
      if |chartData| == 0 {
        return;
      }
      isPlaying := true;
      noteIndex := 0;
      startTime := clock;
    }

    method CreateNote(lane: Lane)
      modifies this`fallingNotes
      ensures fallingNotes == old(fallingNotes) + [FallingNote(lane, 0)]
    {
      fallingNotes := fallingNotes + [FallingNote(lane, 0)];
    }

    /** The spawn loop at the head of each frame. */
    method SpawnNotes(currentTime: int)
      requires Valid() && isPlaying
      modifies this`fallingNotes, this`noteIndex
      ensures Valid()
      ensures old(noteIndex) <= noteIndex <= |chartData|
      ensures fallingNotes == old(fallingNotes) + NewNotes(chartData[old(noteIndex)..noteIndex])
      ensures forall i :: old(noteIndex) <= i < noteIndex ==> PlayDue(chartData[i], currentTime)
      ensures noteIndex == |chartData| || !PlayDue(chartData[noteIndex], currentTime)
    {
      var chart := chartData;
      var first := noteIndex;
      var i := first;
      ghost var notes := fallingNotes;
      while i < |chart| && PlayDue(chart[i], currentTime)
        invariant first <= i <= |chart|
        invariant fallingNotes == notes + NewNotes(chart[first..i])
        invariant forall j :: first <= j < i ==> PlayDue(chart[j], currentTime)
        decreases |chart| - i
      {
        assert chart[first..i + 1][..i - first] == chart[first..i];
        CreateNote(chart[i].lane);
        i := i + 1;
      }
      noteIndex := i;
    }

    method EndGame()
      modifies this`isPlaying
      ensures !isPlaying
    {
      isPlaying := false;
    }

    /** `moveNotes`: the splice-and-step-back loop, then the game-over check. */
    method MoveNotes()
      requires Valid()
      modifies this`fallingNotes, this`hp, this`combo, this`isPlaying
      ensures Valid()
      ensures fallingNotes == Fallen(old(fallingNotes))
      ensures hp == old(hp) - FallMissPenalty * MissCount(old(fallingNotes))
      ensures combo == if MissCount(old(fallingNotes)) > 0 then 0 else old(combo)
      ensures isPlaying == (old(isPlaying) && hp > 0)
    {
      ghost var notes := fallingNotes;
      var cur, health, streak := fallingNotes, hp, combo;
      ghost var j := 0;
      var i: int := 0;
      while i < |cur|
        invariant 0 <= i <= |cur| && 0 <= j <= |notes|
        invariant cur[..i] == Fallen(notes[..j])
        invariant cur[i..] == notes[j..]
        invariant health == hp - FallMissPenalty * MissCount(notes[..j])
        invariant streak == if MissCount(notes[..j]) > 0 then 0 else combo
        decreases |notes| - j
      {
        assert notes[..j + 1][..j] == notes[..j];
        assert cur[i] == notes[j];
        cur := cur[i := Advance(cur[i])];
        if cur[i].y > MissLine {
          cur := cur[..i] + cur[i + 1..];
          i := i - 1;
          health := health - FallMissPenalty;
          streak := 0;
        }
        i := i + 1;
        j := j + 1;
      }
      assert notes[..j] == notes;
      fallingNotes, hp, combo := cur, health, streak;
      if hp <= 0 {
        EndGame();
      }
    }

    /** One animation frame of the running loop (a frame is only ever scheduled while playing). */
    method Frame(clock: int)
      requires Valid() && isPlaying
      modifies this`fallingNotes, this`noteIndex, this`hp, this`combo, this`isPlaying
      ensures Valid()
      ensures old(noteIndex) <= noteIndex <= |chartData|
      ensures forall i :: old(noteIndex) <= i < noteIndex ==> PlayDue(chartData[i], clock - startTime + Offset)
      ensures noteIndex == |chartData| || !PlayDue(chartData[noteIndex], clock - startTime + Offset)
      ensures var spawned := old(fallingNotes) + NewNotes(chartData[old(noteIndex)..noteIndex]);
        && fallingNotes == Fallen(spawned)
        && hp == old(hp) - FallMissPenalty * MissCount(spawned)
        && combo == (if MissCount(spawned) > 0 then 0 else old(combo))
        && isPlaying == (hp > 0)
    {
      var currentTime := clock - startTime + Offset;
      SpawnNotes(currentTime);
      MoveNotes();
    }

    /** The keydown handler: the first note the key hits is removed for one more combo
        and up to 2 hp, never above 100; a press that hits nothing costs 5 hp and the combo. */
    method KeyDown(key: Lane)
      requires Valid()
      modifies this`fallingNotes, this`hp, this`combo
      ensures Valid()
      ensures !old(isPlaying) || key !in PlayLanes ==>
                fallingNotes == old(fallingNotes) && hp == old(hp) && combo == old(combo)
      ensures old(isPlaying) && key in PlayLanes ==>
                match FirstHit(old(fallingNotes), key)
                case Some(i) =>
                  && fallingNotes == old(fallingNotes)[..i] + old(fallingNotes)[i + 1..]
                  && combo == old(combo) + 1 && hp == Min(MaxHp, old(hp) + Heal)
                case None =>
                  && fallingNotes == old(fallingNotes)
                  && hp == old(hp) - KeyMissPenalty && combo == 0
    {
      if !isPlaying {
        return;
      }
      if key !in PlayLanes {
        return;
      }
      var i := 0;
      while i < |fallingNotes|
        invariant 0 <= i <= |fallingNotes| && fallingNotes == old(fallingNotes)
        invariant forall j :: 0 <= j < i ==> !Hits(fallingNotes[j], key)
      {
        var note := fallingNotes[i];
        if note.lane == key {
          var distance := Abs(note.y - HitLine);
          if distance < HitWindow {
            fallingNotes := fallingNotes[..i] + fallingNotes[i + 1..];
            combo := combo + 1;
            hp := Min(MaxHp, hp + Heal);
            return;
          }
        }
        i := i + 1;
      }
      hp := hp - KeyMissPenalty;
      combo := 0;
    }
  }
}
