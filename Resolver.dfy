/** The stage resolver of trafficlight.cpp (`stage` and `stage_id`): given a
    light, a phase offset and a time in seconds, find the stage that is
    showing. */
module Resolver {
  import opened CInt
  import opened Signal

  /** How many stages the scan visits: it stops at the first stage whose
      state string is empty (the zero-filled terminator). */
  function LiveCount(stages: seq<Stage>): (k: nat)
    ensures k <= |stages|
    ensures forall j :: 0 <= j < k ==> stages[j].state != []
    ensures k < |stages| ==> stages[k].state == []
  {
    if stages == [] || stages[0].state == [] then 0 else 1 + LiveCount(stages[1..])
  }

  /** The offset of the entry after stage `i`; past the end of the sequence
      it is the terminator's zero offset. */
  function NextOffset(stages: seq<Stage>, i: nat): int {
    if i + 1 < |stages| then stages[i + 1].timeOffset else 0
  }

  /** Stage `i` is showing at loop position `t`: it has started, and either
      the next stage has not, or the next entry has offset 0 (wraps). */
  predicate Active(stages: seq<Stage>, i: nat, t: int)
    requires i < |stages|
  {
    stages[i].timeOffset <= t && (t < NextOffset(stages, i) || NextOffset(stages, i) == 0)
  }

  /** The loop position: `(time + offset) % loop_time` with C's remainder. */
  function LoopPosition(loopTime: int, offset: int, time: int): int
    requires loopTime != 0
  {
    CRem(time + offset, loopTime)
  }

  /** The first live stage at or after `i` that is active at `t`, or -1. */
  function FirstActiveFrom(stages: seq<Stage>, t: int, i: nat): (r: int)
    requires i <= LiveCount(stages)
    ensures r == -1 || (i <= r < LiveCount(stages) && Active(stages, r, t))
    ensures forall j :: i <= j < (if r == -1 then LiveCount(stages) else r) ==> !Active(stages, j, t)
    decreases LiveCount(stages) - i
  {
    if i == LiveCount(stages) then -1
    else if Active(stages, i, t) then i
    else FirstActiveFrom(stages, t, i + 1)
  }

  /** What `stage_id` returns. */
  function StageIdAt(spec: Spec, offset: int, time: int): int
    requires spec.loopTime != 0
  {
    FirstActiveFrom(spec.stages, LoopPosition(spec.loopTime, offset, time), 0)
  }

  /** `stage_id`: the index of the first live stage active at
      `(time + offset) % loop_time`, or -1 (after a warning) when none is. */
  method StageId(spec: Spec, offset: int, time: int) returns (id: int)
    requires spec.loopTime != 0
    ensures id == StageIdAt(spec, offset, time)
    ensures -1 <= id < LiveCount(spec.stages)
    ensures id >= 0 ==> Active(spec.stages, id, LoopPosition(spec.loopTime, offset, time))
    ensures forall j :: 0 <= j < (if id == -1 then LiveCount(spec.stages) else id) ==>
              !Active(spec.stages, j, LoopPosition(spec.loopTime, offset, time))
  {
    var stages := spec.stages;
    var t := CRem(time + offset, spec.loopTime);
    var i := 0;
    while i < |stages| && stages[i].state != []
      invariant 0 <= i <= LiveCount(stages)
      invariant FirstActiveFrom(stages, t, i) == FirstActiveFrom(stages, t, 0)
    {
      var next := if i + 1 < |stages| then stages[i + 1].timeOffset else 0;
      if t >= stages[i].timeOffset && (t < next || next == 0) {
        return i;
      }
      i := i + 1;
    }
    return -1;
  }

  /** `stage`: the same scan, returning the stage itself, or the empty stage
      when nothing covers the time.  It agrees with `stage_id`. */
  method StageOf(spec: Spec, offset: int, time: int) returns (s: Stage)
    requires spec.loopTime != 0
    ensures var id := StageIdAt(spec, offset, time);
            s == if id >= 0 then spec.stages[id] else EmptyStage
  {
    var stages := spec.stages;
    var t := CRem(time + offset, spec.loopTime);
    var i := 0;
    while i < |stages| && stages[i].state != []
      invariant 0 <= i <= LiveCount(stages)
      invariant FirstActiveFrom(stages, t, i) == FirstActiveFrom(stages, t, 0)
    {
      if t >= stages[i].timeOffset && (t < NextOffset(stages, i) || NextOffset(stages, i) == 0) {
        return stages[i];
      }
      i := i + 1;
    }
    return EmptyStage;
  }

  /** A timeline without gaps: the first stage starts at 0, offsets strictly
      increase, and every state is non-empty. */
  predicate WellFormedStages(stages: seq<Stage>) {
    && |stages| > 0
    && stages[0].timeOffset == 0
    && (forall j :: 0 <= j < |stages| ==> stages[j].state != [])
    && (forall j, k :: 0 <= j < k < |stages| ==> stages[j].timeOffset < stages[k].timeOffset)
  }

  /** Coverage: on a well-formed timeline every non-negative loop position
      is covered, by the stage whose interval contains it. */
  lemma Coverage(stages: seq<Stage>, t: int)
    requires WellFormedStages(stages) && t >= 0
    ensures var id := FirstActiveFrom(stages, t, 0);
            && 0 <= id < |stages|
            && stages[id].timeOffset <= t
            && (id + 1 < |stages| ==> t < stages[id + 1].timeOffset)
  {
    assert LiveCount(stages) == |stages|;
    // the last stage that has started
    var i := LastStarted(stages, t, 0);
    assert Active(stages, i, t);
    var id := FirstActiveFrom(stages, t, 0);
    assert id != -1;
    if id + 1 < |stages| {
      assert stages[0].timeOffset < stages[id + 1].timeOffset;
    }
  }

  /** The largest index at or after `from` whose stage has started by `t`. */
  lemma LastStarted(stages: seq<Stage>, t: int, from: nat) returns (i: nat)
    requires WellFormedStages(stages) && from < |stages| && stages[from].timeOffset <= t
    ensures from <= i < |stages| && stages[i].timeOffset <= t
    ensures i + 1 < |stages| ==> t < stages[i + 1].timeOffset
    decreases |stages| - from
  {
    if from + 1 < |stages| && stages[from + 1].timeOffset <= t {
      i := LastStarted(stages, t, from + 1);
    } else {
      i := from;
    }
  }

  /** Periodicity and phase additivity: the stage depends only on
      `time + offset` modulo the loop time. */
  lemma {:induction false} PhaseAndPeriod(spec: Spec, offset: int, time: int, k: nat)
    requires spec.loopTime != 0 && time + offset >= 0
    ensures StageIdAt(spec, offset, time + k * Abs(spec.loopTime)) == StageIdAt(spec, 0, time + offset)
  {
    var L := Abs(spec.loopTime);
    assert (time + k * L) + offset == (time + offset) + k * L;
    CRemPeriodic(time + offset, spec.loopTime, k);
  }

  /** The timeline [(0,a), (20,b), (25,c)] with a 50-second loop, for any
      non-empty states a, b and c, shows a for 0..19, b for 20..24, c for
      25..49, and wraps at 50. */
  lemma ThreeStageExample(a: string, b: string, c: string, time: int)
    requires a != [] && b != [] && c != [] && 0 <= time < 50
    ensures var spec := Spec(50, "", [Stage(0, a), Stage(20, b), Stage(25, c)]);
            && StageIdAt(spec, 0, time) == (if time < 20 then 0 else if time < 25 then 1 else 2)
            && StageIdAt(spec, 0, time + 50) == StageIdAt(spec, 0, time)
            && StageIdAt(spec, 25, 0) == StageIdAt(spec, 0, 25)
  {
    var stages := [Stage(0, a), Stage(20, b), Stage(25, c)];
    var spec := Spec(50, "", stages);
    assert WellFormedStages(stages);
    assert LiveCount(stages) == 3 by {
      assert stages[1..][1..][1..] == [];
    }
    assert LoopPosition(50, 0, time) == time by {
      CDivNonNeg(time, 50);
    }
    Coverage(stages, time);
    assert StageIdAt(spec, 0, time) == FirstActiveFrom(stages, time, 0);
    PhaseAndPeriod(spec, 0, time, 1);
    PhaseAndPeriod(spec, 25, 0, 0);
  }

  /** A timeline with a gap, [(5,a)], has nothing showing at time 0: both
      resolvers fall back (to -1 and to the empty stage). */
  lemma GapExample()
    ensures StageIdAt(Spec(50, "", [Stage(5, "a")]), 0, 0) == -1
  {
    var stages := [Stage(5, "a")];
    assert LiveCount(stages) == 1;
  }
}
