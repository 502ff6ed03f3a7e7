/**
 * The once-per-second training metrics of the wearable: time and distance
 * per velocity zone, time per heart-rate zone, the BPM and TRIMP
 * accumulators, the peak speed, the two-second sprint debouncer, and the
 * minute reset that clears everything minute-scoped while keeping the
 * lifetime totals.
 */
module Metrics {
  import opened Sums
  import opened VelocityZones
  import opened HeartRateZones

  /** A second at or above this speed counts towards a sprint (km/h). */
  const SprintKmh: real := 20.0
  /** Seconds per minute. */
  const SecondsPerMinute: nat := 60

  /** TRIMP weight of each heart-rate zone: 1 for HZ1 up to 6 for HZ6. */
  function TrimpW(hz: nat): (w: real)
    requires hz < HrZones
    ensures w == (hz + 1) as real
  {
    [1.0, 2.0, 3.0, 4.0, 5.0, 6.0][hz]
  }

  /** The sprint debouncer: seconds held above the sprint speed, the in-sprint flag and the two counters. */
  datatype Sprint = Sprint(hold: int, inSprint: bool, minute: int, total: int)

  /** A debouncer that is not inside a run of sprint-speed seconds. */
  predicate AtRest(s: Sprint) {
    s.hold == 0 && !s.inSprint
  }

  /**
   * One second of the debouncer at speed `v`: a sprint-speed second extends
   * the hold, and the first second with a hold of at least two outside a
   * sprint enters one and counts it in both counters; any slower second
   * clears the hold and leaves the sprint.
   */
  function SprintStep(s: Sprint, v: real): (r: Sprint)
    ensures r.minute - s.minute == r.total - s.total
    ensures 0 <= r.total - s.total <= 1
    ensures r.total == s.total + 1 <==> v >= SprintKmh && !s.inSprint && s.hold + 1 >= 2
    ensures v < SprintKmh ==> AtRest(r) && r.total == s.total
  {
    if v >= SprintKmh then
      var hold := s.hold + 1;
      if !s.inSprint && hold >= 2 then
        Sprint(hold, true, s.minute + 1, s.total + 1)
      else
        s.(hold := hold)
    else
      s.(hold := 0, inSprint := false)
  }

  /** The debouncer after the seconds `vs`, oldest first. */
  function SprintRun(s: Sprint, vs: seq<real>): Sprint
    decreases |vs|
  {
    if vs == [] then s else SprintStep(SprintRun(s, vs[..|vs| - 1]), vs[|vs| - 1])
  }

  /** The number of sprint-speed seconds at the end of `vs`. */
  function RunLength(vs: seq<real>): (n: nat)
    ensures n <= |vs|
    decreases |vs|
  {
    if vs == [] || vs[|vs| - 1] < SprintKmh then 0 else RunLength(vs[..|vs| - 1]) + 1
  }

  /**
   * The sprints in `vs`: one for every maximal run of at least two
   * sprint-speed seconds, counted at the second second of the run.
   */
  function SprintsIn(vs: seq<real>): nat
    decreases |vs|
  {
    if vs == [] then 0 else SprintsIn(vs[..|vs| - 1]) + (if RunLength(vs) == 2 then 1 else 0)
  }

  /**
   * Started at rest, the debouncer holds the length of the current run,
   * is in a sprint exactly when that run has reached two seconds, and has
   * counted every run of two or more seconds exactly once, in both counters.
   */
  lemma {:induction false} SprintRunCountsRuns(s: Sprint, vs: seq<real>)
    requires AtRest(s)
    ensures var r := SprintRun(s, vs);
      && r.hold == RunLength(vs)
      && r.inSprint == (RunLength(vs) >= 2)
      && r.total == s.total + SprintsIn(vs)
      && r.minute == s.minute + SprintsIn(vs)
    decreases |vs|
  {
    if vs != [] {
      SprintRunCountsRuns(s, vs[..|vs| - 1]);
    }
  }

  /** Two sprint-speed seconds make one sprint, a sprint-speed second followed by a slower one none, four make still one. */
  lemma SprintExamples(s: Sprint)
    requires AtRest(s)
    ensures SprintRun(s, [20.0, 20.0]).total == s.total + 1
    ensures SprintRun(s, [20.0, 19.0]).total == s.total
    ensures SprintRun(s, [20.0, 20.0, 20.0, 20.0]).total == s.total + 1
  {
    SprintRunCountsRuns(s, [20.0, 20.0]);
    SprintRunCountsRuns(s, [20.0, 19.0]);
    SprintRunCountsRuns(s, [20.0, 20.0, 20.0, 20.0]);
    assert [20.0, 20.0, 20.0, 20.0][..3] == [20.0, 20.0, 20.0];
    assert [20.0, 20.0, 20.0][..2] == [20.0, 20.0];
    assert [20.0, 20.0][..1] == [20.0];
    assert [20.0, 19.0][..1] == [20.0];
  }

  /** The minute-scoped and lifetime accumulators, as values. */
  datatype Minute = Minute(
    secInVZ: seq<real>, distInVZ: seq<real>, secInHZ: seq<real>,
    bpmSum: real, bpmCount: int, trimp: real,
    distMinute: real, distTotal: real, vLast: real, vMax: real,
    sprint: Sprint)

  /** Four velocity-zone slots of each kind and six heart-rate-zone slots. */
  predicate Shaped(m: Minute) {
    |m.secInVZ| == VelZones && |m.distInVZ| == VelZones && |m.secInHZ| == HrZones
  }

  /**
   * The speed half of a second at `v` km/h: `v` becomes the last speed and
   * raises the peak speed, the distance v / 3.6 m joins both distance
   * totals, and the speed's zone gains a second and that distance.
   */
  function SpeedSecond(m: Minute, v: real): (r: Minute)
    requires Shaped(m)
    ensures Shaped(r)
  {
    var d := v / 3.6;
    var vz := VelZoneIndex(v);
    m.(vLast := v, vMax := if v > m.vMax then v else m.vMax,
       distTotal := m.distTotal + d, distMinute := m.distMinute + d,
       secInVZ := m.secInVZ[vz := m.secInVZ[vz] + 1.0],
       distInVZ := m.distInVZ[vz := m.distInVZ[vz] + d])
  }

  /**
   * The heart-rate half of a second at `bpm`: the zone of `bpm` gains a
   * second, a positive `bpm` joins the BPM sum and count, and TRIMP grows by
   * the zone's weight over 60.
   */
  function HeartSecond(m: Minute, bpm: real): (r: Minute)
    requires Shaped(m)
    ensures Shaped(r)
  {
    var hz := HrZoneIndex(bpm);
    m.(secInHZ := m.secInHZ[hz := m.secInHZ[hz] + 1.0],
       bpmSum := if bpm > 0.0 then m.bpmSum + bpm else m.bpmSum,
       bpmCount := if bpm > 0.0 then m.bpmCount + 1 else m.bpmCount,
       trimp := m.trimp + TrimpW(hz) * (1.0 / 60.0))
  }

  /** One second of the whole block: the speed half, the heart-rate half, then the sprint debouncer. */
  function SecondUpdate(m: Minute, v: real, bpm: real): (r: Minute)
    requires Shaped(m)
    ensures Shaped(r)
  {
    var h := HeartSecond(SpeedSecond(m, v), bpm);
    h.(sprint := SprintStep(h.sprint, v))
  }

  /**
   * Every second adds exactly one second to the velocity zones and one to
   * the heart-rate zones, in the zones of its speed and heart rate only;
   * the second's distance v / 3.6 is added to the minute, the lifetime
   * total and the zone distances alike; the peak speed never drops.
   */
  lemma SecondCountsOnce(m: Minute, v: real, bpm: real)
    requires Shaped(m)
    ensures var r, vz, hz := SecondUpdate(m, v, bpm), VelZoneIndex(v), HrZoneIndex(bpm);
      && SumR(r.secInVZ) == SumR(m.secInVZ) + 1.0
      && SumR(r.secInHZ) == SumR(m.secInHZ) + 1.0
      && (forall i :: 0 <= i < VelZones && i != vz ==> r.secInVZ[i] == m.secInVZ[i] && r.distInVZ[i] == m.distInVZ[i])
      && (forall i :: 0 <= i < HrZones && i != hz ==> r.secInHZ[i] == m.secInHZ[i])
      && SumR(r.distInVZ) - SumR(m.distInVZ) == r.distMinute - m.distMinute == r.distTotal - m.distTotal == v / 3.6
      && r.vMax >= m.vMax && r.vMax >= v
  {
    var vz, hz := VelZoneIndex(v), HrZoneIndex(bpm);
    SumRUpdate(m.secInVZ, vz, m.secInVZ[vz] + 1.0);
    SumRUpdate(m.secInHZ, hz, m.secInHZ[hz] + 1.0);
    SumRUpdate(m.distInVZ, vz, m.distInVZ[vz] + v / 3.6);
  }

  /** The accumulators after `n` seconds at the same speed and heart rate. */
  function Steady(m: Minute, v: real, bpm: real, n: nat): (r: Minute)
    requires Shaped(m)
    ensures Shaped(r)
  {
    if n == 0 then m else SecondUpdate(Steady(m, v, bpm, n - 1), v, bpm)
  }

  /** The scalar accumulators after one second. */
  lemma SecondScalars(m: Minute, v: real, bpm: real)
    requires Shaped(m)
    ensures var r := SecondUpdate(m, v, bpm);
      && r.trimp == m.trimp + TrimpW(HrZoneIndex(bpm)) / 60.0
      && r.distMinute == m.distMinute + v / 3.6
      && r.bpmSum == (if bpm > 0.0 then m.bpmSum + bpm else m.bpmSum)
      && r.bpmCount == (if bpm > 0.0 then m.bpmCount + 1 else m.bpmCount)
  {
  }

  /** After `n` seconds in the heart-rate zone of `bpm`, TRIMP has grown by n times the zone weight over 60. */
  lemma {:induction false} SteadyTrimp(m: Minute, v: real, bpm: real, n: nat)
    requires Shaped(m)
    ensures Steady(m, v, bpm, n).trimp == m.trimp + n as real * (TrimpW(HrZoneIndex(bpm)) / 60.0)
  {
    if n > 0 {
      var p := Steady(m, v, bpm, n - 1);
      SteadyTrimp(m, v, bpm, n - 1);
      assert Steady(m, v, bpm, n) == SecondUpdate(p, v, bpm);
      SecondScalars(p, v, bpm);
      OneMoreSecond(n, TrimpW(HrZoneIndex(bpm)) / 60.0);
    }
  }

  /** After `n` seconds at speed `v`, the minute distance has grown by n·v/3.6. */
  lemma {:induction false} SteadyDistance(m: Minute, v: real, bpm: real, n: nat)
    requires Shaped(m)
    ensures Steady(m, v, bpm, n).distMinute == m.distMinute + n as real * (v / 3.6)
  {
    if n > 0 {
      var p := Steady(m, v, bpm, n - 1);
      SteadyDistance(m, v, bpm, n - 1);
      assert Steady(m, v, bpm, n) == SecondUpdate(p, v, bpm);
      SecondScalars(p, v, bpm);
      OneMoreSecond(n, v / 3.6);
    }
  }

  /** After `n` seconds at a positive heart rate, it has been summed and counted `n` times; a non-positive one never. */
  lemma {:induction false} SteadyBpm(m: Minute, v: real, bpm: real, n: nat)
    requires Shaped(m)
    ensures var r := Steady(m, v, bpm, n);
      && (bpm > 0.0 ==> r.bpmSum == m.bpmSum + n as real * bpm && r.bpmCount == m.bpmCount + n)
      && (bpm <= 0.0 ==> r.bpmSum == m.bpmSum && r.bpmCount == m.bpmCount)
  {
    if n > 0 {
      var p := Steady(m, v, bpm, n - 1);
      SteadyBpm(m, v, bpm, n - 1);
      assert Steady(m, v, bpm, n) == SecondUpdate(p, v, bpm);
      SecondScalars(p, v, bpm);
      if bpm > 0.0 {
        OneMoreSecond(n, bpm);
      }
    }
  }

  /** n·x == (n - 1)·x + x: one more second adds one more share. */
  lemma OneMoreSecond(n: nat, x: real)
    requires n > 0
    ensures n as real * x == (n - 1) as real * x + x
  {
    assert n as real == (n - 1) as real + 1.0;
  }

  /** Mean heart rate of the minute: the BPM sum over the counted seconds, or 0 when none was counted. */
  function BpmMean(m: Minute): (b: real)
    ensures m.bpmCount <= 0 ==> b == 0.0
  {
    if m.bpmCount > 0 then m.bpmSum / m.bpmCount as real else 0.0
  }

  /** Mean speed of the minute in km/h: the minute distance over 60 s, times 3.6. */
  function VMean(m: Minute): real
  {
    m.distMinute / 60.0 * 3.6
  }

  /** The accumulators at the start of a minute: every minute-scoped value zero, the lifetime totals `distTotal` and `total`. */
  function Fresh(distTotal: real, vLast: real, total: int): (m: Minute)
    ensures Shaped(m)
  {
    Minute([0.0, 0.0, 0.0, 0.0], [0.0, 0.0, 0.0, 0.0], [0.0, 0.0, 0.0, 0.0, 0.0, 0.0],
           0.0, 0, 0.0, 0.0, distTotal, vLast, 0.0, Sprint(0, false, 0, total))
  }

  /**
   * A whole minute at one speed and one heart rate, from a freshly reset
   * minute: TRIMP is exactly the zone weight, the mean speed is the speed
   * and a positive heart rate is the mean heart rate.
   */
  lemma SteadyMinute(distTotal: real, vLast: real, total: int, v: real, bpm: real)
    ensures var r := Steady(Fresh(distTotal, vLast, total), v, bpm, SecondsPerMinute);
      && r.trimp == TrimpW(HrZoneIndex(bpm))
      && VMean(r) == v
      && (bpm > 0.0 ==> BpmMean(r) == bpm)
      && (bpm <= 0.0 ==> BpmMean(r) == 0.0)
  {
    var m := Fresh(distTotal, vLast, total);
    SteadyTrimp(m, v, bpm, SecondsPerMinute);
    SteadyDistance(m, v, bpm, SecondsPerMinute);
    SteadyBpm(m, v, bpm, SecondsPerMinute);
  }

  /**
   * `resetMinuteAccumulators`: every zone slot, TRIMP, the minute distance,
   * the peak speed, the BPM sum and count, the sprint hold, the in-sprint
   * flag and the minute's sprint count are cleared; the lifetime distance,
   * the lifetime sprint count and the last speed are kept.
   */
  function ResetMinute(m: Minute): (r: Minute)
    ensures r == Fresh(m.distTotal, m.vLast, m.sprint.total)
    ensures r.distTotal == m.distTotal && r.sprint.total == m.sprint.total
  {
    Minute([0.0, 0.0, 0.0, 0.0], [0.0, 0.0, 0.0, 0.0], [0.0, 0.0, 0.0, 0.0, 0.0, 0.0],
           0.0, 0, 0.0, 0.0, m.distTotal, m.vLast, 0.0,
           m.sprint.(minute := 0, hold := 0, inSprint := false))
  }

  /** A reset leaves the debouncer at rest, and a second reset changes nothing. */
  lemma ResetIsIdempotent(m: Minute)
    ensures AtRest(ResetMinute(m).sprint)
    ensures ResetMinute(ResetMinute(m)) == ResetMinute(m)
  {
  }

  /**
   * A sprint that is still running when the minute is reset is counted
   * again, in both counters, once two more sprint-speed seconds follow,
   * whereas without the reset it would not be counted again.
   */
  lemma SprintRecountedAcrossReset(m: Minute, v1: real, v2: real)
    requires m.sprint.inSprint && v1 >= SprintKmh && v2 >= SprintKmh
    ensures SprintRun(m.sprint, [v1, v2]).total == m.sprint.total
    ensures SprintRun(ResetMinute(m).sprint, [v1, v2]).total == m.sprint.total + 1
  {
    assert [v1, v2][..1] == [v1];
    assert [v1][..0] == [];
    var r := ResetMinute(m).sprint;
    assert SprintRun(m.sprint, [v1]) == SprintStep(m.sprint, v1);
    assert SprintRun(m.sprint, [v1, v2]) == SprintStep(SprintStep(m.sprint, v1), v2);
    assert SprintRun(r, [v1]) == SprintStep(r, v1);
    assert SprintRun(r, [v1, v2]) == SprintStep(SprintStep(r, v1), v2);
  }

  /**
   * The accumulator globals. The three zone arrays are distinct buffers of
   * four, four and six slots; every other accumulator is a scalar.
   */
  class MinuteAggregator {
    var secInVZ: array<real>
    var distInVZ: array<real>
    var secInHZ: array<real>
    var bpmSumSec: real
    var bpmSecCount: int
    var trimpMinute: real
    var distMMinute: real
    var distMTotal: real
    var vKmhLast: real
    var vKmhMaxMin: real
    var sprintHold: int
    var inSprint: bool
    var sprintsMin: int
    var sprintsTotal: int

    /** The accumulators as a value. */
    function Snapshot(): Minute
      reads this, secInVZ, distInVZ, secInHZ
    {
      Minute(secInVZ[..], distInVZ[..], secInHZ[..], bpmSumSec, bpmSecCount, trimpMinute,
             distMMinute, distMTotal, vKmhLast, vKmhMaxMin,
             Sprint(sprintHold, inSprint, sprintsMin, sprintsTotal))
    }

    /** The zone arrays have their sizes and are three different buffers. */
    ghost predicate Valid()
      reads this
    {
      && secInVZ.Length == VelZones && distInVZ.Length == VelZones && secInHZ.Length == HrZones
      && secInVZ != distInVZ && secInVZ != secInHZ && distInVZ != secInHZ
    }

    /** Start-up: every accumulator zero. */
    constructor ()
      ensures Valid() && fresh(secInVZ) && fresh(distInVZ) && fresh(secInHZ)
      ensures Snapshot() == Fresh(0.0, 0.0, 0)
    {
      secInVZ := new real[VelZones](_ => 0.0);
      distInVZ := new real[VelZones](_ => 0.0);
      secInHZ := new real[HrZones](_ => 0.0);
      bpmSumSec, bpmSecCount, trimpMinute := 0.0, 0, 0.0;
      distMMinute, distMTotal, vKmhLast, vKmhMaxMin := 0.0, 0.0, 0.0, 0.0;
      sprintHold, inSprint, sprintsMin, sprintsTotal := 0, false, 0, 0;
    }

    /** The per-second block of the main loop, from the speed `v` (km/h) and the current average `bpm`. */
    method SecondTick(v: real, bpm: real)
      requires Valid()
      modifies this`bpmSumSec, this`bpmSecCount, this`trimpMinute, this`distMMinute, this`distMTotal
      modifies this`vKmhLast, this`vKmhMaxMin, this`sprintHold, this`inSprint, this`sprintsMin, this`sprintsTotal
      modifies secInVZ, distInVZ, secInHZ
      ensures Valid()
      ensures Snapshot() == SecondUpdate(old(Snapshot()), v, bpm)
    {
      SpeedTick(v);
      HeartTick(bpm);
      SprintTick(v);
    }

    /** The speed half of the per-second block. */
    method SpeedTick(v: real)
      requires Valid()
      modifies this`distMMinute, this`distMTotal, this`vKmhLast, this`vKmhMaxMin, secInVZ, distInVZ
      ensures Valid()
      ensures Snapshot() == SpeedSecond(old(Snapshot()), v)
    {
      vKmhLast := v;
      if v > vKmhMaxMin {
        vKmhMaxMin := v;
      }
      var d := v / 3.6;
      distMTotal := distMTotal + d;
      distMMinute := distMMinute + d;
      var vz := VelZoneIndex(v);
      secInVZ[vz] := secInVZ[vz] + 1.0;
      distInVZ[vz] := distInVZ[vz] + d;
    }

    /** The heart-rate half of the per-second block. */
    method HeartTick(bpm: real)
      requires Valid()
      modifies this`bpmSumSec, this`bpmSecCount, this`trimpMinute, secInHZ
      ensures Valid()
      ensures Snapshot() == HeartSecond(old(Snapshot()), bpm)
    {
      var hz := HrZoneIndex(bpm);
      secInHZ[hz] := secInHZ[hz] + 1.0;
      if bpm > 0.0 {
        bpmSumSec := bpmSumSec + bpm;
        bpmSecCount := bpmSecCount + 1;
      }
      trimpMinute := trimpMinute + TrimpW(hz) * (1.0 / 60.0);
    }

    /** The sprint debouncer of the per-second block. */
    method SprintTick(v: real)
      modifies this`sprintHold, this`inSprint, this`sprintsMin, this`sprintsTotal
      ensures Snapshot() == old(Snapshot()).(sprint := SprintStep(old(Snapshot()).sprint, v))
    {
      if v >= SprintKmh {
        sprintHold := sprintHold + 1;
        if !inSprint && sprintHold >= 2 {
          inSprint := true;
          sprintsMin := sprintsMin + 1;
          sprintsTotal := sprintsTotal + 1;
        }
      } else {
        sprintHold := 0;
        inSprint := false;
      }
    }

    /** `resetMinuteAccumulators`: the zone loops and the scalar resets. */
    method ResetMinuteAccumulators()
      requires Valid()
      modifies this`bpmSumSec, this`bpmSecCount, this`trimpMinute, this`distMMinute
      modifies this`vKmhMaxMin, this`sprintHold, this`inSprint, this`sprintsMin
      modifies secInVZ, distInVZ, secInHZ
      ensures Valid()
      ensures Snapshot() == ResetMinute(old(Snapshot()))
    {
      ghost var total, last := distMTotal, vKmhLast;
      for i := 0 to VelZones
        modifies secInVZ, distInVZ
        invariant forall k :: 0 <= k < i ==> secInVZ[k] == 0.0 && distInVZ[k] == 0.0
      {
        secInVZ[i] := 0.0;
        distInVZ[i] := 0.0;
      }
      assert secInVZ[..] == [0.0, 0.0, 0.0, 0.0];
      assert distInVZ[..] == [0.0, 0.0, 0.0, 0.0];
      for i := 0 to HrZones
        modifies secInHZ
        invariant forall k :: 0 <= k < i ==> secInHZ[k] == 0.0
      {
        secInHZ[i] := 0.0;
      }
      trimpMinute := 0.0;
      distMMinute := 0.0;
      vKmhMaxMin := 0.0;
      sprintsMin := 0;
      bpmSumSec := 0.0;
      bpmSecCount := 0;
      sprintHold := 0;
      inSprint := false;
      assert secInHZ[..] == [0.0, 0.0, 0.0, 0.0, 0.0, 0.0];
      assert Snapshot() == Fresh(total, last, sprintsTotal);
    }
  }
}
