/** `handleActiveHoldNotes` of `js/holdLogic.js`: the per-tick judge. Every
    position is given as integer pixels: the hit zone's extent, one extent per
    active hold note, and the top of every tap-note element. */
module HoldLogic {
  import opened Chart
  import opened State

  /** The two counters every judgement moves. */
  datatype Score = Score(combo: nat, hp: int)

  const TickInterval := 250
  const MissMargin := 100
  const CheckpointWindow := 150
  const CheckpointGrace := 200
  const TapTolerance := 30
  const TapMissPenalty: nat := 5
  const HoldMissPenalty: nat := 1

  /** A miss: combo back to 0 and `penalty` hp lost. */
  function Penalize(s: Score, penalty: nat): Score
  {
    Score(0, s.hp - penalty)
  }

  predicate Overlaps(r: Rect, hz: Rect)
  {
    r.top <= hz.bottom && r.bottom >= hz.top
  }

  /** `(elapsed - startTime) / (endTime - startTime) >= 1` in IEEE double
      arithmetic: a zero duration divides to +Infinity, NaN or -Infinity, and a
      negative one flips the comparison. */
  predicate ProgressDone(elapsed: int, startTime: int, endTime: int)
  {
    var p, d := elapsed - startTime, endTime - startTime;
    if d > 0 then p >= d else if d == 0 then p > 0 else p <= d
  }

  /** For a hold that ends after it starts (every recorded hold does), the progress
      fraction reaches 1 exactly when the clock reaches the end. */
  lemma ProgressDoneAtEnd(elapsed: int, startTime: int, endTime: int)
    requires startTime < endTime
    ensures ProgressDone(elapsed, startTime, endTime) <==> elapsed >= endTime
  {
  }

  // ---------------------------------------------------------------------------
  // Hold notes: the body of the `activeHoldNotes.forEach` callback, in three stages.

  /** Lines 11-27: while overlapping the hit zone, a pressed lane starts or keeps the
      hold, and a released lane ends a running hold as an early release. */
  function Engage(n: HoldNote, overlap: bool, pressed: bool, s: Score): (HoldNote, Score)
  {
    if !overlap then (n, s)
    else if pressed then (n.(holding := true), if n.holding then s else s.(combo := s.combo + 1))
    else if n.holding then (n.(holding := false), Penalize(s, HoldMissPenalty))
    else (n, s)
  }

  /** Lines 29-46 without the height: the 250 ms combo tick and whether the note is
      spliced out because its progress reached 1. */
  function Sustain(n: HoldNote, elapsed: int, s: Score): (HoldNote, Score, bool)
  {
    if !n.holding then (n, s, false)
    else if elapsed - n.lastTick >= TickInterval then
      (n.(lastTick := elapsed), s.(combo := s.combo + 1), ProgressDone(elapsed, n.startTime, n.endTime))
    else (n, s, ProgressDone(elapsed, n.startTime, n.endTime))
  }

  /** Lines 48-55: a note whose bottom has passed 100 px below the hit zone without
      being held is flagged missed, once. */
  function MissCheck(n: HoldNote, r: Rect, hz: Rect, s: Score): (HoldNote, Score)
  {
    if r.bottom > hz.bottom + MissMargin && !n.holding && !n.missed then
      (n.(missed := true), Penalize(s, HoldMissPenalty))
    else (n, s)
  }

  datatype HoldOutcome = HoldOutcome(note: HoldNote, score: Score, removed: bool)

  /** One visit of the callback to note `n`, whose extent this tick is `r`. */
  function HoldStep(n: HoldNote, r: Rect, hz: Rect, pressed: bool, elapsed: int, s: Score): (o: HoldOutcome)
    ensures s.hp - 2 <= o.score.hp <= s.hp
    ensures o.removed ==> o.note.holding && ProgressDone(elapsed, n.startTime, n.endTime)
    ensures n.missed ==> o.note.missed
    ensures o.note.startTime == n.startTime && o.note.endTime == n.endTime && o.note.lane == n.lane
  {
    var (n1, s1) := Engage(n, Overlaps(r, hz), pressed, s);
    var (n2, s2, removed) := Sustain(n1, elapsed, s1);
    var (n3, s3) := MissCheck(n2, r, hz, s2);
    HoldOutcome(n3, s3, removed)
  }

  /** Starting a hold: overlap, lane pressed, not yet holding gives holding and
      exactly one more combo; overlap with the lane released ends a running hold
      with hp - 1 and combo 0; an overlapping, held note that stays held scores nothing here. */
  lemma EngageTransitions(n: HoldNote, pressed: bool, s: Score)
    ensures !n.holding && pressed ==>
              Engage(n, true, pressed, s) == (n.(holding := true), Score(s.combo + 1, s.hp))
    ensures n.holding && !pressed ==>
              Engage(n, true, pressed, s) == (n.(holding := false), Score(0, s.hp - 1))
    ensures n.holding && pressed ==> Engage(n, true, pressed, s) == (n, s)
    ensures Engage(n, false, pressed, s) == (n, s)
  {
  }

  /** While holding, 250 ms or more since the last tick gives one more combo and
      moves the tick time to now; otherwise the tick time and combo stay. */
  lemma SustainTicks(n: HoldNote, elapsed: int, s: Score)
    requires n.holding
    ensures elapsed - n.lastTick >= 250 ==>
              Sustain(n, elapsed, s).0.lastTick == elapsed && Sustain(n, elapsed, s).1 == Score(s.combo + 1, s.hp)
    ensures elapsed - n.lastTick < 250 ==>
              Sustain(n, elapsed, s).0 == n && Sustain(n, elapsed, s).1 == s
    ensures Sustain(n, elapsed, s).2 <==> ProgressDone(elapsed, n.startTime, n.endTime)
  {
  }

  /** A visit removes the note exactly when it is holding after the engage stage and
      its progress reached 1; for a proper hold that is when the clock reached its end. */
  lemma HoldRemovedExactly(n: HoldNote, r: Rect, hz: Rect, pressed: bool, elapsed: int, s: Score)
    requires n.startTime < n.endTime
    ensures HoldStep(n, r, hz, pressed, elapsed, s).removed
            <==> Engage(n, Overlaps(r, hz), pressed, s).0.holding && elapsed >= n.endTime
  {
    ProgressDoneAtEnd(elapsed, n.startTime, n.endTime);
  }

  /** The miss-hold penalty latches: a flagged note is never penalised by the miss
      check again, a penalised note comes out flagged, and the miss check never
      removes a note. */
  lemma MissLatches(n: HoldNote, r: Rect, hz: Rect, pressed: bool, elapsed: int, s: Score)
    ensures n.missed ==> MissCheck(n, r, hz, s) == (n, s)
    ensures MissCheck(n, r, hz, s).1 != s ==> !n.missed && MissCheck(n, r, hz, s).0.missed
    ensures n.missed ==> HoldStep(n, r, hz, pressed, elapsed, s).note.missed
    ensures var o := HoldStep(n, r, hz, pressed, elapsed, s);
      o.note.missed && !n.missed ==> !o.removed
  {
  }

  /** The `forEach` over `activeHoldNotes`, from index `k` on, with `shift` notes
      already spliced out. `rects` are the extents of the notes as they were when
      the loop began, so the note now at `k` had index `k + shift` then. Splicing
      the current note shifts its successor into the current index, and the next
      visit is at `k + 1`: the successor is skipped for this tick. */
  function HoldSweep(arr: seq<HoldNote>, rects: seq<Rect>, k: nat, shift: nat, hz: Rect,
                     keys: map<Lane, bool>, elapsed: int, s: Score): (r: (seq<HoldNote>, Score))
    requires |arr| + shift == |rects|
    decreases |arr| - k
    ensures r.1.hp <= s.hp
    ensures |r.0| <= |arr|
  {
    if k >= |arr| then (arr, s)
    else
      var o := HoldStep(arr[k], rects[k + shift], hz, Flag(keys, arr[k].lane), elapsed, s);
      if o.removed then
        HoldSweep(arr[..k] + arr[k + 1..], rects, k + 1, shift + 1, hz, keys, elapsed, o.score)
      else
        HoldSweep(arr[k := o.note], rects, k + 1, shift, hz, keys, elapsed, o.score)
  }

  /** Two runtime records of the same chart hold. */
  predicate SameHold(a: HoldNote, b: HoldNote)
  {
    a.lane == b.lane && a.startTime == b.startTime && a.endTime == b.endTime
  }

  /** Every note of `xs` is a record of some hold of `ys`. */
  predicate Traces(xs: seq<HoldNote>, ys: seq<HoldNote>)
  {
    forall n :: n in xs ==> exists m :: m in ys && SameHold(n, m)
  }

  lemma TracesTrans(xs: seq<HoldNote>, ys: seq<HoldNote>, zs: seq<HoldNote>)
    requires Traces(xs, ys) && Traces(ys, zs)
    ensures Traces(xs, zs)
  {
    forall n | n in xs
      ensures exists m :: m in zs && SameHold(n, m)
    {
      var m :| m in ys && SameHold(n, m);
      var m' :| m' in zs && SameHold(m, m');
      assert SameHold(n, m');
    }
  }

  /** The sweep never invents a hold: every note it leaves is a record, possibly
      updated, of a note that was there before. */
  lemma {:induction false} HoldSweepTraces(arr: seq<HoldNote>, rects: seq<Rect>, k: nat, shift: nat, hz: Rect,
                                           keys: map<Lane, bool>, elapsed: int, s: Score)
    requires |arr| + shift == |rects|
    decreases |arr| - k
    ensures Traces(HoldSweep(arr, rects, k, shift, hz, keys, elapsed, s).0, arr)
  {
    if k >= |arr| {
      forall n | n in arr
        ensures exists m :: m in arr && SameHold(n, m)
      {
        assert SameHold(n, n);
      }
    } else {
      var o := HoldStep(arr[k], rects[k + shift], hz, Flag(keys, arr[k].lane), elapsed, s);
      var next := if o.removed then arr[..k] + arr[k + 1..] else arr[k := o.note];
      forall n | n in next
        ensures exists m :: m in arr && SameHold(n, m)
      {
        var j :| 0 <= j < |next| && next[j] == n;
        var w := if o.removed && j >= k then arr[j + 1] else arr[j];
        assert w in arr && SameHold(n, w);
      }
      if o.removed {
        HoldSweepTraces(next, rects, k + 1, shift + 1, hz, keys, elapsed, o.score);
      } else {
        HoldSweepTraces(next, rects, k + 1, shift, hz, keys, elapsed, o.score);
      }
      TracesTrans(HoldSweep(arr, rects, k, shift, hz, keys, elapsed, s).0, next, arr);
    }
  }

  method JudgeHolds(g: Game, elapsed: int, rects: seq<Rect>, hz: Rect)
    requires |rects| == |g.activeHoldNotes|
    modifies g
    ensures var r := HoldSweep(old(g.activeHoldNotes), rects, 0, 0, hz, old(g.keysPressed), elapsed,
                               Score(old(g.combo), old(g.hp)));
      g.View() == old(g.View()).(activeHoldNotes := r.0, combo := r.1.combo, hp := r.1.hp)
  {
    var keys := g.keysPressed;
    var arr, score := g.activeHoldNotes, Score(g.combo, g.hp);
    ghost var goal := HoldSweep(arr, rects, 0, 0, hz, keys, elapsed, score);
    var k, shift := 0, 0;
    while k < |arr|
      invariant |arr| + shift == |rects|
      invariant HoldSweep(arr, rects, k, shift, hz, keys, elapsed, score) == goal
      decreases |arr| - k
    {
      var o := HoldStep(arr[k], rects[k + shift], hz, Flag(keys, arr[k].lane), elapsed, score);
      score := o.score;
      if o.removed {
        arr := arr[..k] + arr[k + 1..];
        shift := shift + 1;
      } else {
        arr := arr[k := o.note];
      }
      k := k + 1;
    }
    g.activeHoldNotes, g.combo, g.hp := arr, score.combo, score.hp;
  }

  /** Two held notes that both reach their end in the same tick: the first is
      spliced out, and the second, shifted into its slot, is not visited, so it stays,
      unchanged, although a visit would have removed it too. */
  lemma SpliceSkipsSuccessor(s: Score)
    ensures var a := HoldNote(0, 1000, "D", true, 900, false);
      var b := HoldNote(0, 1000, "F", true, 900, false);
      var rects := [Rect(0, 0), Rect(0, 0)];
      var hz := Rect(500, 600);
      && HoldStep(b, rects[1], hz, false, 1000, s).removed
      && HoldSweep([a, b], rects, 0, 0, hz, map[], 1000, s) == ([b], s)
  {
    var a := HoldNote(0, 1000, "D", true, 900, false);
    var b := HoldNote(0, 1000, "F", true, 900, false);
    var rects := [Rect(0, 0), Rect(0, 0)];
    var hz := Rect(500, 600);
    assert HoldStep(a, rects[0], hz, false, 1000, s) == HoldOutcome(a, s, true);
    assert [a, b][..0] + [a, b][1..] == [b];
    assert HoldSweep([a, b], rects, 0, 0, hz, map[], 1000, s) == HoldSweep([b], rects, 1, 1, hz, map[], 1000, s);
  }

  // ---------------------------------------------------------------------------
  // Checkpoints: the nested `forEach` over `holdCheckpoints`.

  /** One checkpoint. The second branch (a miss once `now > time + 200`) can never
      run, because it is guarded by `|now - time| <= 150`: the ensures show that a
      visit never touches hp and never resolves a checkpoint without the lane pressed. */
  function CheckpointStep(cp: Checkpoint, now: int, pressed: bool, s: Score): (r: (Checkpoint, Score))
    ensures r.1.hp == s.hp
    ensures r.0.time == cp.time
    ensures cp.passed ==> r == (cp, s)
    ensures r.0.passed <==> cp.passed || (pressed && Abs(now - cp.time) <= CheckpointWindow)
    ensures r.1.combo == if r.0.passed && !cp.passed then s.combo + 1 else s.combo
  {
    if !cp.passed && Abs(now - cp.time) <= CheckpointWindow then
      if pressed then (cp.(passed := true), s.(combo := s.combo + 1))
      else if now > cp.time + CheckpointGrace then (cp.(passed := true), Penalize(s, HoldMissPenalty))
      else (cp, s)
    else (cp, s)
  }

  /** A checkpoint this visit newly passes: not yet passed, its lane pressed, and the
      clock within 150 ms of its time. */
  predicate PassesNow(cp: Checkpoint, now: int, pressed: bool)
  {
    !cp.passed && pressed && Abs(now - cp.time) <= CheckpointWindow
  }

  /** How many of `cps[i..]` a visit at `now` newly passes. */
  function PassCount(cps: seq<Checkpoint>, i: nat, now: int, pressed: bool): nat
    requires i <= |cps|
    decreases |cps| - i
  {
    if i == |cps| then 0
    else (if PassesNow(cps[i], now, pressed) then 1 else 0) + PassCount(cps, i + 1, now, pressed)
  }

  /** `PassCount` reads only the checkpoints from `i` on. */
  lemma {:induction false} PassCountFrom(a: seq<Checkpoint>, b: seq<Checkpoint>, i: nat, now: int, pressed: bool)
    requires i <= |a| == |b|
    requires forall j :: i <= j < |a| ==> a[j] == b[j]
    decreases |a| - i
    ensures PassCount(a, i, now, pressed) == PassCount(b, i, now, pressed)
  {
    if i < |a| {
      PassCountFrom(a, b, i + 1, now, pressed);
    }
  }

  /** The inner loop over one hold's checkpoints, from index `i` on: every later
      checkpoint passes exactly when pressed within the window, and each new pass is
      exactly one more combo. */
  function CheckpointsFrom(cps: seq<Checkpoint>, i: nat, now: int, pressed: bool, s: Score): (r: (seq<Checkpoint>, Score))
    requires i <= |cps|
    decreases |cps| - i
    ensures |r.0| == |cps| && r.1.hp == s.hp
    ensures r.1.combo == s.combo + PassCount(cps, i, now, pressed)
    ensures forall j :: 0 <= j < i ==> r.0[j] == cps[j]
    ensures forall j :: 0 <= j < |cps| && cps[j].passed ==> r.0[j] == cps[j]
    ensures forall j :: i <= j < |cps| ==>
              && r.0[j].time == cps[j].time
              && (r.0[j].passed <==> cps[j].passed || (pressed && Abs(now - cps[j].time) <= CheckpointWindow))
  {
    if i == |cps| then (cps, s)
    else
      var (cp, s') := CheckpointStep(cps[i], now, pressed, s);
      PassCountFrom(cps[i := cp], cps, i + 1, now, pressed);
      CheckpointsFrom(cps[i := cp], i + 1, now, pressed, s')
  }

  /** How many checkpoints of `groups[gi..]` a visit at `now` newly passes, each group
      under its own lane's key. */
  function GroupPassCount(groups: seq<CheckGroup>, gi: nat, now: int, keys: map<Lane, bool>): nat
    requires gi <= |groups|
    decreases |groups| - gi
  {
    if gi == |groups| then 0
    else PassCount(groups[gi].checkpoints, 0, now, Flag(keys, groups[gi].lane))
         + GroupPassCount(groups, gi + 1, now, keys)
  }

  /** `GroupPassCount` reads only the groups from `gi` on. */
  lemma {:induction false} GroupPassCountFrom(a: seq<CheckGroup>, b: seq<CheckGroup>, gi: nat, now: int,
                                              keys: map<Lane, bool>)
    requires gi <= |a| == |b|
    requires forall j :: gi <= j < |a| ==> a[j] == b[j]
    decreases |a| - gi
    ensures GroupPassCount(a, gi, now, keys) == GroupPassCount(b, gi, now, keys)
  {
    if gi < |a| {
      GroupPassCountFrom(a, b, gi + 1, now, keys);
    }
  }

  /** The outer loop over `holdCheckpoints`, from group `gi` on: groups before `gi`
      stay as they are; in every later group a checkpoint keeps its time and passes
      exactly when it had passed or its lane is pressed within 150 ms of it; combo
      rises by exactly the number of new passes and hp never changes. */
  function GroupsFrom(groups: seq<CheckGroup>, gi: nat, now: int, keys: map<Lane, bool>, s: Score): (r: (seq<CheckGroup>, Score))
    requires gi <= |groups|
    decreases |groups| - gi
    ensures |r.0| == |groups| && r.1.hp == s.hp
    ensures r.1.combo == s.combo + GroupPassCount(groups, gi, now, keys)
    ensures forall j :: 0 <= j < |groups| ==>
              r.0[j].lane == groups[j].lane && |r.0[j].checkpoints| == |groups[j].checkpoints|
    ensures forall j :: 0 <= j < gi ==> r.0[j] == groups[j]
    ensures forall j, c :: 0 <= j < |groups| && 0 <= c < |groups[j].checkpoints| && groups[j].checkpoints[c].passed ==>
              r.0[j].checkpoints[c] == groups[j].checkpoints[c]
    ensures forall j, c :: gi <= j < |groups| && 0 <= c < |groups[j].checkpoints| ==>
              && r.0[j].checkpoints[c].time == groups[j].checkpoints[c].time
              && (r.0[j].checkpoints[c].passed <==>
                    || groups[j].checkpoints[c].passed
                    || (Flag(keys, groups[j].lane) && Abs(now - groups[j].checkpoints[c].time) <= CheckpointWindow))
  {
    if gi == |groups| then (groups, s)
    else
      var group := groups[gi];
      var (cps, s') := CheckpointsFrom(group.checkpoints, 0, now, Flag(keys, group.lane), s);
      var groups' := groups[gi := CheckGroup(cps, group.lane)];
      GroupPassCountFrom(groups', groups, gi + 1, now, keys);
      GroupsFrom(groups', gi + 1, now, keys, s')
  }

  method JudgeCheckpoints(g: Game, now: int)
    modifies g
    ensures var r := GroupsFrom(old(g.holdCheckpoints), 0, now, old(g.keysPressed), Score(old(g.combo), old(g.hp)));
      g.View() == old(g.View()).(holdCheckpoints := r.0, combo := r.1.combo, hp := r.1.hp)
  {
    var groups, score := g.holdCheckpoints, Score(g.combo, g.hp);
    var gi := 0;
    while gi < |groups|
      invariant gi <= |groups|
      invariant GroupsFrom(groups, gi, now, g.keysPressed, score)
                == GroupsFrom(g.holdCheckpoints, 0, now, g.keysPressed, Score(g.combo, g.hp))
    {
      var group := groups[gi];
      var pressed := Flag(g.keysPressed, group.lane);
      ghost var s0 := score;
      var cps := group.checkpoints;
      var c := 0;
      while c < |cps|
        invariant c <= |cps|
        invariant CheckpointsFrom(cps, c, now, pressed, score)
                  == CheckpointsFrom(group.checkpoints, 0, now, pressed, s0)
      {
        var (cp, s') := CheckpointStep(cps[c], now, pressed, score);
        cps := cps[c := cp];
        score := s';
        c := c + 1;
      }
      groups := groups[gi := CheckGroup(cps, group.lane)];
      gi := gi + 1;
    }
    g.holdCheckpoints, g.combo, g.hp := groups, score.combo, score.hp;
  }

  // ---------------------------------------------------------------------------
  // Tap notes: the `forEach` over the tap-note elements.

  datatype TapVerdict = Credited | Missed | Waiting

  /** One tap note whose top is at `top`: credited inside the band 30 px around the hit
      zone if the lane is pressed and this press has not been credited yet;
      missed once more than 100 px past the zone's bottom; otherwise left falling. */
  function TapJudge(top: int, hz: Rect, pressed: bool, hit: bool): TapVerdict
  {
    if hz.top - TapTolerance <= top <= hz.bottom + TapTolerance then
      if pressed && !hit then Credited else Waiting
    else if top > hz.bottom + MissMargin then Missed
    else Waiting
  }

  /** The tap windows: a credit needs the top inside the band, the lane pressed and
      the press not yet credited, and happens then; a miss needs the top past the
      far margin and happens then; the band and the miss region never meet. */
  lemma TapWindows(top: int, hz: Rect, pressed: bool, hit: bool)
    ensures TapJudge(top, hz, pressed, hit) == Credited
            <==> hz.top - 30 <= top <= hz.bottom + 30 && pressed && !hit
    ensures TapJudge(top, hz, pressed, hit) == Missed
            <==> top > hz.bottom + 100
    ensures hit ==> TapJudge(top, hz, pressed, hit) != Credited
  {
  }

  datatype TapResult = TapResult(kept: seq<Lane>, verdicts: seq<TapVerdict>, keysHit: map<Lane, bool>, score: Score)

  /** One visit of the tap loop: judge element `i` and fold its verdict into `acc`. */
  function TapStep(taps: seq<Lane>, tops: seq<int>, i: nat, keys: map<Lane, bool>, hz: Rect, acc: TapResult): TapResult
    requires |taps| == |tops| && i < |taps|
  {
    var lane := taps[i];
    var v := TapJudge(tops[i], hz, Flag(keys, lane), Flag(acc.keysHit, lane));
    match v
    case Credited =>
      acc.(verdicts := acc.verdicts + [v], keysHit := acc.keysHit[lane := true],
           score := acc.score.(combo := acc.score.combo + 1))
    case Missed =>
      acc.(verdicts := acc.verdicts + [v], score := Penalize(acc.score, TapMissPenalty))
    case Waiting =>
      acc.(kept := acc.kept + [lane], verdicts := acc.verdicts + [v])
  }

  /** The loop over the tap elements from index `i` on; `acc` holds the elements
      kept so far, the verdicts so far, the per-press latch and the counters. */
  function TapsFrom(taps: seq<Lane>, tops: seq<int>, i: nat, keys: map<Lane, bool>, hz: Rect, acc: TapResult): (r: TapResult)
    requires |taps| == |tops| && i <= |taps|
    decreases |taps| - i
    ensures r.score.hp <= acc.score.hp
    ensures |r.verdicts| == |acc.verdicts| + (|taps| - i)
    ensures r.verdicts[..|acc.verdicts|] == acc.verdicts
    ensures |r.kept| <= |acc.kept| + (|taps| - i)
    ensures forall L :: Flag(acc.keysHit, L) ==> Flag(r.keysHit, L)
  {
    if i == |taps| then acc
    else TapsFrom(taps, tops, i + 1, keys, hz, TapStep(taps, tops, i, keys, hz, acc))
  }

  /** The per-press latch, for one sweep from index `i`: two credited taps are in
      different lanes, and a lane already credited before the sweep gets no credit. */
  lemma {:induction false} TapsFromCreditsOncePerLane(taps: seq<Lane>, tops: seq<int>, i: nat,
                                                     keys: map<Lane, bool>, hz: Rect, acc: TapResult)
    requires |taps| == |tops| && i <= |taps| && |acc.verdicts| == i
    requires forall j :: 0 <= j < i && acc.verdicts[j] == Credited ==> Flag(acc.keysHit, taps[j])
    requires forall a, b :: 0 <= a < b < i && acc.verdicts[a] == Credited && acc.verdicts[b] == Credited ==>
               taps[a] != taps[b]
    decreases |taps| - i
    ensures var r := TapsFrom(taps, tops, i, keys, hz, acc);
      && (forall a, b :: 0 <= a < b < |taps| && r.verdicts[a] == Credited && r.verdicts[b] == Credited ==>
            taps[a] != taps[b])
      && (forall j :: i <= j < |taps| && Flag(acc.keysHit, taps[j]) ==> r.verdicts[j] != Credited)
  {
    if i < |taps| {
      var next := TapStep(taps, tops, i, keys, hz, acc);
      var v := TapJudge(tops[i], hz, Flag(keys, taps[i]), Flag(acc.keysHit, taps[i]));
      assert next.verdicts == acc.verdicts + [v];
      assert v == Credited ==> !Flag(acc.keysHit, taps[i]) && Flag(next.keysHit, taps[i]);
      assert forall L :: Flag(acc.keysHit, L) ==> Flag(next.keysHit, L);
      forall j | 0 <= j < i + 1 && next.verdicts[j] == Credited
        ensures Flag(next.keysHit, taps[j])
      {
        if j < i {
          assert acc.verdicts[j] == Credited;
        }
      }
      forall a, b | 0 <= a < b < i + 1 && next.verdicts[a] == Credited && next.verdicts[b] == Credited
        ensures taps[a] != taps[b]
      {
        assert acc.verdicts[a] == Credited;
        if b == i {
          assert Flag(acc.keysHit, taps[a]);
        } else {
          assert acc.verdicts[b] == Credited;
        }
      }
      TapsFromCreditsOncePerLane(taps, tops, i + 1, keys, hz, next);
      var r := TapsFrom(taps, tops, i, keys, hz, acc);
      assert r == TapsFrom(taps, tops, i + 1, keys, hz, next);
      assert r.verdicts[..i + 1] == next.verdicts;
      assert r.verdicts[i] == v;
    }
  }

  /** Some tap of `taps[i..j]` in the lane of tap `j` was credited: the latch the
      sweep itself set for that lane before it reached `j`. */
  predicate CreditedBefore(taps: seq<Lane>, vs: seq<TapVerdict>, i: nat, j: nat)
    requires j < |taps| && j <= |vs|
  {
    exists k :: i <= k < j && vs[k] == Credited && taps[k] == taps[j]
  }

  /** How many of `vs[lo..]` are `v`. */
  function CountFrom(vs: seq<TapVerdict>, lo: nat, v: TapVerdict): nat
    requires lo <= |vs|
    decreases |vs| - lo
  {
    if lo == |vs| then 0 else (if vs[lo] == v then 1 else 0) + CountFrom(vs, lo + 1, v)
  }

  /** The lanes of the taps of `taps[lo..]` left `Waiting`, in order. */
  function WaitingFrom(taps: seq<Lane>, vs: seq<TapVerdict>, lo: nat): seq<Lane>
    requires |vs| == |taps| && lo <= |taps|
    decreases |taps| - lo
  {
    if lo == |taps| then []
    else (if vs[lo] == Waiting then [taps[lo]] else []) + WaitingFrom(taps, vs, lo + 1)
  }

  /** The first step of a sweep from `i`: the verdict for tap `i` is the one
      `TapStep` records, and the rest of the sweep starts from its result. */
  lemma TapsFromUnfold(taps: seq<Lane>, tops: seq<int>, i: nat, keys: map<Lane, bool>, hz: Rect, acc: TapResult)
    requires |taps| == |tops| && i < |taps| && |acc.verdicts| == i
    ensures var next := TapStep(taps, tops, i, keys, hz, acc);
      var r := TapsFrom(taps, tops, i, keys, hz, acc);
      && |next.verdicts| == i + 1
      && r == TapsFrom(taps, tops, i + 1, keys, hz, next)
      && r.verdicts[i] == TapJudge(tops[i], hz, Flag(keys, taps[i]), Flag(acc.keysHit, taps[i]))
  {
    var next := TapStep(taps, tops, i, keys, hz, acc);
    var r := TapsFrom(taps, tops, i + 1, keys, hz, next);
    assert r.verdicts[..i + 1] == next.verdicts;
  }

  /** Each tap gets the verdict of `TapJudge` under the latch as it stands when the
      loop reaches it: set before the loop, or by an earlier credit in its lane. */
  lemma {:induction false} TapsFromVerdicts(taps: seq<Lane>, tops: seq<int>, i: nat,
                                            keys: map<Lane, bool>, hz: Rect, acc: TapResult)
    requires |taps| == |tops| && i <= |taps| && |acc.verdicts| == i
    decreases |taps| - i
    ensures var r := TapsFrom(taps, tops, i, keys, hz, acc);
      && |r.verdicts| == |taps|
      && (forall j :: i <= j < |taps| ==>
            r.verdicts[j] == TapJudge(tops[j], hz, Flag(keys, taps[j]),
                                      Flag(acc.keysHit, taps[j]) || CreditedBefore(taps, r.verdicts, i, j)))
  {
    var r := TapsFrom(taps, tops, i, keys, hz, acc);
    if i < |taps| {
      var next := TapStep(taps, tops, i, keys, hz, acc);
      TapsFromUnfold(taps, tops, i, keys, hz, acc);
      TapsFromVerdicts(taps, tops, i + 1, keys, hz, next);
      var v := r.verdicts[i];
      assert forall L :: Flag(next.keysHit, L) <==> Flag(acc.keysHit, L) || (v == Credited && taps[i] == L);
      forall j | i < j < |taps|
        ensures Flag(next.keysHit, taps[j]) || CreditedBefore(taps, r.verdicts, i + 1, j)
                <==> Flag(acc.keysHit, taps[j]) || CreditedBefore(taps, r.verdicts, i, j)
      {
        if CreditedBefore(taps, r.verdicts, i, j) && !CreditedBefore(taps, r.verdicts, i + 1, j) {
          var k :| i <= k < j && r.verdicts[k] == Credited && taps[k] == taps[j];
          assert k == i;
        }
        if CreditedBefore(taps, r.verdicts, i + 1, j) {
          var k :| i + 1 <= k < j && r.verdicts[k] == Credited && taps[k] == taps[j];
          assert i <= k < j;
        }
      }
      assert !CreditedBefore(taps, r.verdicts, i, i);
    }
  }

  /** After the loop the latch is set for exactly the lanes set before it and the
      lanes of the credited taps. */
  lemma {:induction false} TapsFromLatch(taps: seq<Lane>, tops: seq<int>, i: nat,
                                         keys: map<Lane, bool>, hz: Rect, acc: TapResult)
    requires |taps| == |tops| && i <= |taps| && |acc.verdicts| == i
    decreases |taps| - i
    ensures var r := TapsFrom(taps, tops, i, keys, hz, acc);
      && |r.verdicts| == |taps|
      && (forall L :: Flag(r.keysHit, L) <==>
            Flag(acc.keysHit, L) || exists k :: i <= k < |taps| && r.verdicts[k] == Credited && taps[k] == L)
  {
    var r := TapsFrom(taps, tops, i, keys, hz, acc);
    if i < |taps| {
      var next := TapStep(taps, tops, i, keys, hz, acc);
      TapsFromUnfold(taps, tops, i, keys, hz, acc);
      TapsFromLatch(taps, tops, i + 1, keys, hz, next);
      var v := r.verdicts[i];
      assert forall L :: Flag(next.keysHit, L) <==> Flag(acc.keysHit, L) || (v == Credited && taps[i] == L);
      forall L
        ensures Flag(r.keysHit, L) <==>
                Flag(acc.keysHit, L) || exists k :: i <= k < |taps| && r.verdicts[k] == Credited && taps[k] == L
      {
        if exists k :: i <= k < |taps| && r.verdicts[k] == Credited && taps[k] == L {
          var k :| i <= k < |taps| && r.verdicts[k] == Credited && taps[k] == L;
          if k > i {
            assert i + 1 <= k < |taps|;
          }
        }
      }
    }
  }

  /** The elements the loop leaves are exactly the waiting taps, in order, after the
      ones kept before. */
  lemma {:induction false} TapsFromKept(taps: seq<Lane>, tops: seq<int>, i: nat,
                                        keys: map<Lane, bool>, hz: Rect, acc: TapResult)
    requires |taps| == |tops| && i <= |taps| && |acc.verdicts| == i
    decreases |taps| - i
    ensures var r := TapsFrom(taps, tops, i, keys, hz, acc);
      && |r.verdicts| == |taps|
      && r.kept == acc.kept + WaitingFrom(taps, r.verdicts, i)
  {
    if i < |taps| {
      var next := TapStep(taps, tops, i, keys, hz, acc);
      TapsFromUnfold(taps, tops, i, keys, hz, acc);
      TapsFromKept(taps, tops, i + 1, keys, hz, next);
    }
  }

  /** What the tap loop does to the counters: hp falls by 5 per miss and by nothing
      else; with no miss combo rises by one per credit; after a miss it counts only
      the credits since the last miss. */
  lemma {:induction false} TapsFromScore(taps: seq<Lane>, tops: seq<int>, i: nat,
                                         keys: map<Lane, bool>, hz: Rect, acc: TapResult)
    requires |taps| == |tops| && i <= |taps| && |acc.verdicts| == i
    decreases |taps| - i
    ensures var r := TapsFrom(taps, tops, i, keys, hz, acc);
      var vs := r.verdicts;
      && |vs| == |taps|
      && r.score.hp == acc.score.hp - TapMissPenalty * CountFrom(vs, i, Missed)
      && (CountFrom(vs, i, Missed) == 0 ==> r.score.combo == acc.score.combo + CountFrom(vs, i, Credited))
      && (forall m :: i <= m < |taps| && vs[m] == Missed && CountFrom(vs, m + 1, Missed) == 0 ==>
            r.score.combo == CountFrom(vs, m + 1, Credited))
  {
    var r := TapsFrom(taps, tops, i, keys, hz, acc);
    if i < |taps| {
      var next := TapStep(taps, tops, i, keys, hz, acc);
      TapsFromUnfold(taps, tops, i, keys, hz, acc);
      TapsFromScore(taps, tops, i + 1, keys, hz, next);
    }
  }

  /** At most one tap is credited per lane in a tick, and none in a lane whose
      current press was already credited: the `keysHit` latch. */
  lemma AtMostOneCreditPerLane(taps: seq<Lane>, tops: seq<int>, keys: map<Lane, bool>, hit: map<Lane, bool>,
                               hz: Rect, s: Score)
    requires |taps| == |tops|
    ensures var r := TapsFrom(taps, tops, 0, keys, hz, TapResult([], [], hit, s));
      && |r.verdicts| == |taps|
      && (forall a, b :: 0 <= a < b < |taps| && r.verdicts[a] == Credited && r.verdicts[b] == Credited ==>
            taps[a] != taps[b])
      && (forall j :: 0 <= j < |taps| && Flag(hit, taps[j]) ==> r.verdicts[j] != Credited)
  {
    TapsFromCreditsOncePerLane(taps, tops, 0, keys, hz, TapResult([], [], hit, s));
  }

  method JudgeTaps(g: Game, tops: seq<int>, hz: Rect)
    requires |tops| == |g.taps|
    modifies g
    ensures var r := TapsFrom(old(g.taps), tops, 0, old(g.keysPressed), hz,
                              TapResult([], [], old(g.keysHit), Score(old(g.combo), old(g.hp))));
      g.View() == old(g.View()).(taps := r.kept, keysHit := r.keysHit, combo := r.score.combo, hp := r.score.hp)
  {
    var kept: seq<Lane> := [];
    ghost var verdicts: seq<TapVerdict> := [];
    var hit, score := g.keysHit, Score(g.combo, g.hp);
    var i := 0;
    while i < |g.taps|
      invariant i <= |g.taps|
      invariant TapsFrom(g.taps, tops, i, g.keysPressed, hz, TapResult(kept, verdicts, hit, score))
                == TapsFrom(g.taps, tops, 0, g.keysPressed, hz, TapResult([], [], g.keysHit, Score(g.combo, g.hp)))
    {
      var lane := g.taps[i];
      var v := TapJudge(tops[i], hz, Flag(g.keysPressed, lane), Flag(hit, lane));
      verdicts := verdicts + [v];
      if v == Credited {
        score := score.(combo := score.combo + 1);
        hit := hit[lane := true];
      } else if v == Missed {
        score := Penalize(score, TapMissPenalty);
      } else {
        kept := kept + [lane];
      }
      i := i + 1;
    }
    g.taps, g.keysHit, g.combo, g.hp := kept, hit, score.combo, score.hp;
  }

  // ---------------------------------------------------------------------------
  // The whole function.

  /** The state after `handleActiveHoldNotes(state, elapsed)`; `checkClock` is the
      clock reading the checkpoint loop takes for itself. Nothing in it raises hp. */
  function JudgeState(e: EngineState, elapsed: int, checkClock: int, rects: seq<Rect>, hz: Rect, tops: seq<int>): (e': EngineState)
    requires |rects| == |e.activeHoldNotes| && |tops| == |e.taps|
    ensures e'.hp <= e.hp
    ensures e' == e.(activeHoldNotes := e'.activeHoldNotes, holdCheckpoints := e'.holdCheckpoints,
                     taps := e'.taps, keysHit := e'.keysHit, combo := e'.combo, hp := e'.hp)
    ensures |e'.holdCheckpoints| == |e.holdCheckpoints| && |e'.activeHoldNotes| <= |e.activeHoldNotes|
    ensures |e'.taps| <= |e.taps|
  {
    var h := HoldSweep(e.activeHoldNotes, rects, 0, 0, hz, e.keysPressed, elapsed, Score(e.combo, e.hp));
    var c := GroupsFrom(e.holdCheckpoints, 0, checkClock - e.startTime, e.keysPressed, h.1);
    var t := TapsFrom(e.taps, tops, 0, e.keysPressed, hz, TapResult([], [], e.keysHit, c.1));
    e.(activeHoldNotes := h.0, holdCheckpoints := c.0, taps := t.kept, keysHit := t.keysHit,
       combo := t.score.combo, hp := t.score.hp)
  }

  method HandleActiveHoldNotes(g: Game, elapsed: int, checkClock: int, rects: seq<Rect>, hz: Rect, tops: seq<int>)
    requires |rects| == |g.activeHoldNotes| && |tops| == |g.taps|
    modifies g
    ensures g.View() == JudgeState(old(g.View()), elapsed, checkClock, rects, hz, tops)
  {
    JudgeHolds(g, elapsed, rects, hz);
    JudgeCheckpoints(g, checkClock - g.startTime);
    JudgeTaps(g, tops, hz);
  }
}
