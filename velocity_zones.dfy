/**
 * The four velocity zones — walking, jogging, running, sprinting — against
 * the bin edges 7, 15 and 20 km/h.
 */
module VelocityZones {
  import opened Thresholds

  /** The zone edges (km/h). */
  const VBins: seq<real> := [7.0, 15.0, 20.0]
  /** Number of zones: CAM (walking), TRO (jogging), CAR (running), SPR (sprint). */
  const VelZones: nat := 4
  const Cam: nat := 0
  const Tro: nat := 1
  const Car: nat := 2
  const Spr: nat := 3

  /**
   * `velZoneIndex`: the first zone whose upper edge lies above `v`, or the
   * sprint zone; an edge value goes to the higher zone, so the zone is the
   * number of edges reached.
   */
  function VelZoneIndex(v: real): (z: nat)
    ensures z < VelZones
    ensures z == Cam <==> v < 7.0
    ensures v <= 0.0 ==> z == Cam
    ensures z == Tro <==> 7.0 <= v < 15.0
    ensures z == Car <==> 15.0 <= v < 20.0
    ensures z == Spr <==> 20.0 <= v
  {
    if v < VBins[0] then Cam
    else if v < VBins[1] then Tro
    else if v < VBins[2] then Car
    else Spr
  }

  /** The zone is the number of edges at or below `v`. */
  lemma VelZoneCountsEdges(v: real)
    ensures VelZoneIndex(v) == Reached(VBins, v)
  {
    ReachedFirst(VBins, v, VelZoneIndex(v));
  }

  /** A higher speed never lands in a lower zone. */
  lemma VelZoneMonotone(v1: real, v2: real)
    requires v1 <= v2
    ensures VelZoneIndex(v1) <= VelZoneIndex(v2)
  {
    VelZoneCountsEdges(v1);
    VelZoneCountsEdges(v2);
    ReachedMonotone(VBins, v1, v2);
  }
}
