/**
 * GPS post-processing of the wearable: the five-sample moving average of
 * the reported speed, kept in a ring buffer, and the wrap of an hour
 * shifted by the time-zone offset back into 0..23.
 */
module GpsProcessing {
  import opened Sums

  /** Number of slots of the speed window. */
  const VWin: nat := 5
  /** A smoothed speed under this is reported as standing still (km/h). */
  const VThreshKmh: real := 0.7

  /** The speeds the average is taken over: the last five, or all of them before the fifth. */
  function Recent(h: seq<real>): (w: seq<real>)
    ensures |w| == if |h| < VWin then |h| else VWin
    decreases |h|
  {
    if |h| <= VWin then h else Recent(h[1..])
  }

  /** The window is the suffix of the samples of its own length. */
  lemma {:induction false} RecentIsSuffix(h: seq<real>)
    ensures Recent(h) == h[|h| - |Recent(h)|..]
    decreases |h|
  {
    if |h| > VWin {
      RecentIsSuffix(h[1..]);
      assert h[1..][|h| - 1 - VWin..] == h[|h| - VWin..];
    }
  }

  /** The smoothed speed after the samples `h`: the mean of the window. */
  function MeanSpeed(h: seq<real>): real
    requires h != []
  {
    SumR(Recent(h)) / |Recent(h)| as real
  }

  /**
   * The contents of the five slots after the samples `h`: all zero at
   * start-up, and each sample overwrites the slot at the sample count
   * modulo five.
   */
  function SpeedSlots(h: seq<real>): (buf: seq<real>)
    ensures |buf| == VWin
    decreases |h|
  {
    if h == [] then [0.0, 0.0, 0.0, 0.0, 0.0]
    else SpeedSlots(h[..|h| - 1])[(|h| - 1) % VWin := h[|h| - 1]]
  }

  /** The write index after one more sample: the next slot, wrapping from the last to the first. */
  lemma NextSlot(k: nat)
    ensures (k + 1) % VWin == if k % VWin == VWin - 1 then 0 else k % VWin + 1
  {
  }

  /** One sample: the slots gain `v` at the write index. */
  lemma SpeedSlotsPush(h: seq<real>, v: real)
    ensures SpeedSlots(h + [v]) == SpeedSlots(h)[|h| % VWin := v]
  {
    assert (h + [v])[..|h|] == h;
  }

  /**
   * The ring layout after the samples `h` have been written into the five
   * slots `buf` with write index `idx`: before the fifth sample the first
   * `idx` slots are `h` in order; from then on, reading the slots from `idx`
   * round to `idx - 1` gives the last five samples, oldest first.
   */
  ghost predicate Layout(h: seq<real>, buf: seq<real>, idx: int) {
    && |buf| == VWin
    && 0 <= idx < VWin
    && idx == |h| % VWin
    && (|h| < VWin ==> buf[..idx] == h)
    && (|h| >= VWin ==> h[|h| - VWin..] == buf[idx..] + buf[..idx])
  }

  /** Writing `v` at the write index keeps the layout of the history `h'`, `h` with `v` appended, in the slots `buf'`. */
  lemma LayoutPush(h: seq<real>, buf: seq<real>, idx: int, v: real, h': seq<real>, buf': seq<real>)
    requires Layout(h, buf, idx) && h' == h + [v] && buf' == buf[idx := v]
    ensures Layout(h', buf', |h'| % VWin)
  {
    if |h| < VWin - 1 {
      LayoutPushFilling(h, buf, idx, v);
    } else if |h| == VWin - 1 {
      LayoutPushFills(h, buf, idx, v);
    } else if idx < VWin - 1 {
      LayoutPushFull(h, buf, idx, v);
    } else {
      LayoutPushFullWrap(h, buf, idx, v);
    }
  }

  /** Before the window is full, `v` lands just after the samples so far. */
  lemma LayoutPushFilling(h: seq<real>, buf: seq<real>, idx: int, v: real)
    requires Layout(h, buf, idx) && |h| < VWin - 1
    ensures Layout(h + [v], buf[idx := v], (|h| + 1) % VWin)
  {
    assert idx == |h| && (|h| + 1) % VWin == idx + 1;
    assert buf[idx := v][..idx + 1] == buf[..idx] + [v];
  }

  /** The sample that fills the window lands in the last slot, and the write index wraps. */
  lemma LayoutPushFills(h: seq<real>, buf: seq<real>, idx: int, v: real)
    requires Layout(h, buf, idx) && |h| == VWin - 1
    ensures Layout(h + [v], buf[idx := v], (|h| + 1) % VWin)
  {
    var h' := h + [v];
    assert idx == |h| && (|h| + 1) % VWin == 0;
    assert buf[idx := v] == buf[..idx] + [v];
    assert h'[|h'| - VWin..] == h';
  }

  /** Once full, `v` replaces the oldest sample, at a write index short of the last slot. */
  lemma LayoutPushFull(h: seq<real>, buf: seq<real>, idx: int, v: real)
    requires Layout(h, buf, idx) && |h| >= VWin && idx < VWin - 1
    ensures Layout(h + [v], buf[idx := v], (|h| + 1) % VWin)
  {
    var h', buf', idx' := h + [v], buf[idx := v], idx + 1;
    assert (|h| + 1) % VWin == idx';
    assert h'[|h'| - VWin..] == h[|h| - VWin..][1..] + [v];
    assert (buf[idx..] + buf[..idx])[1..] == buf[idx'..] + buf[..idx];
    assert buf'[idx'..] == buf[idx'..];
    assert buf'[..idx'] == buf[..idx] + [v];
  }

  /** Once full, `v` replaces the oldest sample in the last slot and the write index wraps. */
  lemma LayoutPushFullWrap(h: seq<real>, buf: seq<real>, idx: int, v: real)
    requires Layout(h, buf, idx) && |h| >= VWin && idx == VWin - 1
    ensures Layout(h + [v], buf[idx := v], (|h| + 1) % VWin)
  {
    var h', buf' := h + [v], buf[idx := v];
    assert (|h| + 1) % VWin == 0;
    assert h'[|h'| - VWin..] == h[|h| - VWin..][1..] + [v];
    assert buf[idx..] == [buf[idx]];
    assert buf' == buf[..idx] + [v];
  }

  /** The slots after `h` are laid out as `Layout` says, with write index |h| mod 5. */
  lemma {:induction false} SpeedSlotsLayout(h: seq<real>)
    ensures Layout(h, SpeedSlots(h), |h| % VWin)
    decreases |h|
  {
    if h != [] {
      var p, v := h[..|h| - 1], h[|h| - 1];
      assert p + [v] == h;
      assert SpeedSlots(h) == SpeedSlots(p)[|p| % VWin := v];
      SpeedSlotsLayout(p);
      LayoutPush(p, SpeedSlots(p), |p| % VWin, v, h, SpeedSlots(h));
    }
  }

  /** Once five samples were taken, the slots hold exactly the last five, up to order. */
  lemma SpeedSlotsHoldRecent(h: seq<real>)
    requires |h| >= VWin
    ensures multiset(SpeedSlots(h)) == multiset(Recent(h))
  {
    var buf, idx := SpeedSlots(h), |h| % VWin;
    SpeedSlotsLayout(h);
    RecentIsSuffix(h);
    assert Recent(h) == buf[idx..] + buf[..idx];
    RotationKeepsMultiset(buf, idx);
  }

  /** Reading a sequence from position `i` round to `i - 1` gives the same elements. */
  lemma RotationKeepsMultiset(a: seq<real>, i: int)
    requires 0 <= i <= |a|
    ensures multiset(a[i..] + a[..i]) == multiset(a)
  {
    assert a == a[..i] + a[i..];
  }

  /** The number of slots `movingAvg` sums after `k` samples: `k`, saturating at five. */
  function Filled(k: nat): nat
  {
    if k < VWin then k else VWin
  }

  /** Under the layout, the first `Filled(|h|)` slots add up to the sum of the window. */
  lemma LayoutSum(h: seq<real>, buf: seq<real>, idx: int)
    requires Layout(h, buf, idx)
    ensures SumRTo(buf, Filled(|h|)) == SumR(Recent(h))
  {
    RecentIsSuffix(h);
    SumRToIsSumR(buf, Filled(|h|));
    if |h| >= VWin {
      assert buf[..VWin] == buf == buf[..idx] + buf[idx..];
      SumRAppend(buf[..idx], buf[idx..]);
      SumRAppend(buf[idx..], buf[..idx]);
    }
  }

  /** The first `Filled(|h|)` slots add up to the sum of the window. */
  lemma SpeedSlotsSum(h: seq<real>)
    ensures SumRTo(SpeedSlots(h), Filled(|h|)) == SumR(Recent(h))
  {
    SpeedSlotsLayout(h);
    LayoutSum(h, SpeedSlots(h), |h| % VWin);
  }

  /** When every sample of the window is `v`, the smoothed speed is `v`. */
  lemma ConstantSpeed(h: seq<real>, v: real)
    requires h != []
    requires forall i :: |h| - Filled(|h|) <= i < |h| ==> h[i] == v
    ensures MeanSpeed(h) == v
  {
    var w := Recent(h);
    RecentIsSuffix(h);
    forall i | 0 <= i < |w|
      ensures w[i] == v
    {
      assert w[i] == h[|h| - |w| + i];
    }
    SumRConstant(w, v);
    MeanOfCopies(w, v);
  }

  /** A non-empty sequence whose sum is its length times `v` averages to `v`. */
  lemma MeanOfCopies(w: seq<real>, v: real)
    requires w != [] && SumR(w) == |w| as real * v
    ensures SumR(w) / |w| as real == v
  {
  }

  /**
   * The speed smoother's globals: the five slots, the write index and the
   * fill count. `Samples` is the sequence of every speed fed so far.
   */
  class SpeedSmoother {
    var vbuf: array<real>
    var vidx: int
    var vfilled: int
    ghost var Samples: seq<real>

    /** The slots hold `SpeedSlots(Samples)`, the index counts samples modulo five, the fill count saturates at five. */
    ghost predicate Valid()
      reads this, vbuf
    {
      && vbuf[..] == SpeedSlots(Samples)
      && vidx == |Samples| % VWin
      && vfilled == Filled(|Samples|)
    }

    /** Start-up: every slot zero, no sample taken. */
    constructor ()
      ensures Valid() && fresh(vbuf) && Samples == []
      ensures vbuf[..] == [0.0, 0.0, 0.0, 0.0, 0.0] && vidx == 0 && vfilled == 0
    {
      vbuf := new real[VWin](_ => 0.0);
      vidx, vfilled := 0, 0;
      Samples := [];
    }

    /**
     * `movingAvg`: stores `v` at the write index (no other slot changes),
     * advances the index modulo five, counts the sample up to five, and
     * returns the mean of the first `vfilled` slots, which is the mean of the
     * last (up to) five samples.
     */
    method MovingAvg(v: real) returns (avg: real)
      requires Valid()
      modifies this`vidx, this`vfilled, this`Samples, vbuf
      ensures Valid() && Samples == old(Samples) + [v]
      ensures vbuf[..] == old(vbuf[..])[old(vidx) := v]
      ensures vidx == (old(vidx) + 1) % VWin
      ensures vfilled == if old(vfilled) < VWin then old(vfilled) + 1 else VWin
      ensures avg == MeanSpeed(Samples)
    {
      StoreSpeed(v);
      avg := Average();
    }

    /** The first half of `movingAvg`: the store, the index advance and the fill count. */
    method StoreSpeed(v: real)
      requires Valid()
      modifies this`vidx, this`vfilled, this`Samples, vbuf
      ensures Valid() && Samples == old(Samples) + [v]
      ensures vbuf[..] == old(vbuf[..])[old(vidx) := v]
      ensures vidx == (old(vidx) + 1) % VWin
      ensures vfilled == if old(vfilled) < VWin then old(vfilled) + 1 else VWin
    {
      SpeedSlotsPush(Samples, v);
      NextSlot(|Samples|);
      vbuf[vidx] := v;
      Samples := Samples + [v];
      vidx := (vidx + 1) % VWin;
      if vfilled < VWin {
        vfilled := vfilled + 1;
      }
    }

    /**
     * The second half of `movingAvg`: the sum of the first `vfilled` slots
     * over `vfilled`, which after at least one sample is the mean of the
     * window.
     */
    method Average() returns (avg: real)
      requires Valid() && Samples != []
      ensures avg == MeanSpeed(Samples)
    {
      var s := 0.0;
      var i := 0;
      while i < vfilled
        invariant 0 <= i <= vfilled
        invariant s == SumRTo(vbuf[..], i)
      {
        s := s + vbuf[i];
        i := i + 1;
      }
      SpeedSlotsSum(Samples);
      avg := s / vfilled as real;
    }
  }

  /** The local hour `utcHour + offset` brought into 0..23 modulo 24. */
  function LocalHour(utcHour: int, offset: int): (h: int)
    ensures 0 <= h < 24
    ensures (h - (utcHour + offset)) % 24 == 0
    ensures 0 <= utcHour + offset < 24 ==> h == utcHour + offset
  {
    (utcHour + offset) % 24
  }

  /** 03:00 UTC is 21:00 the day before at offset -6. */
  lemma LocalHourExample()
    ensures LocalHour(3, -6) == 21
  {
  }

  /**
   * `wrapLocalHour`: adds 24 while the shifted hour is negative, then
   * subtracts 24 while it is 24 or more.
   */
  method WrapLocalHour(utcHour: int, offset: int) returns (h: int)
    ensures h == LocalHour(utcHour, offset)
  {
    h := utcHour + offset;
    while h < 0
      invariant (h - (utcHour + offset)) % 24 == 0
      decreases -h
    {
      h := h + 24;
    }
    while h >= 24
      invariant h >= 0 && (h - (utcHour + offset)) % 24 == 0
      decreases h
    {
      h := h - 24;
    }
    SameResidue(h, utcHour + offset);
  }

  /** A value in 0..23 congruent to `x` modulo 24 is `x % 24`. */
  lemma SameResidue(h: int, x: int)
    requires 0 <= h < 24 && (h - x) % 24 == 0
    ensures h == x % 24
  {
    var q := (x - h) / 24;
    assert x == 24 * q + h;
  }
}
