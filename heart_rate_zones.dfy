/**
 * The six heart-rate zones: the current BPM as a fraction of a fixed
 * maximum heart rate, classified against the edges 50 %, 60 %, 70 %, 80 %
 * and 90 %.
 */
module HeartRateZones {
  import opened Thresholds

  /** Reference maximum heart rate (BPM). */
  const FcMax: real := 200.0
  /** The zone edges as fractions of `FcMax`. */
  const ZEdges: seq<real> := [0.50, 0.60, 0.70, 0.80, 0.90]
  /** Number of zones, HZ1 (index 0) to HZ6 (index 5). */
  const HrZones: nat := 6

  /**
   * `hrZoneIndex`: zone 0 for a non-positive BPM; otherwise the first zone
   * whose upper edge lies above `bpm / FcMax`, or the last zone. A value
   * exactly on an edge goes to the higher zone, so the zone is the number
   * of edges the fraction has reached.
   */
  function HrZoneIndex(bpm: real): (z: nat)
    ensures z < HrZones
    ensures bpm <= 0.0 ==> z == 0
  {
    if bpm <= 0.0 then 0
    else
      var r := bpm / FcMax;
      if r < ZEdges[0] then 0
      else if r < ZEdges[1] then 1
      else if r < ZEdges[2] then 2
      else if r < ZEdges[3] then 3
      else if r < ZEdges[4] then 4
      else 5
  }

  /**
   * The zone is the number of edges at or below `bpm / FcMax`, for every
   * BPM including the non-positive ones.
   */
  lemma HrZoneCountsEdges(bpm: real)
    ensures HrZoneIndex(bpm) == Reached(ZEdges, bpm / FcMax)
  {
    ReachedFirst(ZEdges, bpm / FcMax, HrZoneIndex(bpm));
  }

  /** A higher heart rate never lands in a lower zone. */
  lemma HrZoneMonotone(bpm1: real, bpm2: real)
    requires bpm1 <= bpm2
    ensures HrZoneIndex(bpm1) <= HrZoneIndex(bpm2)
  {
    HrZoneCountsEdges(bpm1);
    HrZoneCountsEdges(bpm2);
    ReachedMonotone(ZEdges, bpm1 / FcMax, bpm2 / FcMax);
  }

  /** The zone of a BPM below half the maximum is HZ1; on the 70 % and 90 % edges it is HZ4 and HZ6. */
  lemma HrZoneExamples()
    ensures HrZoneIndex(99.0) == 0 && HrZoneIndex(100.0) == 1
    ensures HrZoneIndex(140.0) == 3 && HrZoneIndex(180.0) == 5
  {
  }
}
