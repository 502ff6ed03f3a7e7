/**
 * Heart-rate detection of the wearable: the adaptive-threshold beat
 * detector run on every filtered ECG sample, and the ring buffer of the
 * last four accepted RR intervals from which the average BPM is computed.
 */
module HeartRate {
  import opened Clock
  import opened Optional

  /** Refractory period: a peak closer than this to the last beat is ignored (ms). */
  const RefractMs: int := 300
  /** Shortest RR interval that enters the average (ms). */
  const MinRR: int := 300
  /** Longest RR interval that enters the average (ms). */
  const MaxRR: int := 2000
  /** Number of slots of the RR ring buffer. */
  const RRBuf: nat := 4
  /** Until this uptime the detector only learns the noise level (ms). */
  const WarmUpMs: int := 1500

  function Abs(x: real): (r: real)
    ensures r >= 0.0 && (r == x || r == -x)
  {
    if x < 0.0 then -x else x
  }

  /**
   * Exponential moving average with weight `alpha` on the new value: for a
   * weight between 0 and 1 the result lies between the old average and the
   * new value.
   */
  function Ema(prev: real, x: real, alpha: real): (r: real)
    ensures 0.0 <= alpha <= 1.0 && prev <= x ==> prev <= r <= x
    ensures 0.0 <= alpha <= 1.0 && x <= prev ==> x <= r <= prev
  {
    var r := (1.0 - alpha) * prev + alpha * x;
    assert r == prev + alpha * (x - prev) == x - (1.0 - alpha) * (x - prev);
    if 0.0 <= alpha <= 1.0 then
      ProductSign(alpha, x - prev);
      ProductSign(1.0 - alpha, x - prev);
      r
    else r
  }

  /** A non-negative factor keeps the sign of the other factor. */
  lemma ProductSign(a: real, b: real)
    requires a >= 0.0
    ensures b >= 0.0 ==> a * b >= 0.0
    ensures b <= 0.0 ==> a * b <= 0.0
  {
  }

  /** The middle sample of a three-sample window is a (plateau-tolerant) local maximum. */
  predicate IsLocalMax(older: real, mid: real, newer: real) {
    mid > older && mid >= newer
  }

  /**
   * The adaptive threshold set after every beat candidate: a quarter of
   * the way from the noise level to the signal level, or to noise + 1 when
   * the signal level does not exceed the noise level. It always lies
   * strictly above the noise level and, once the signal level is above the
   * noise level, strictly below the signal level.
   */
  function AdaptiveThreshold(signal: real, noise: real): (t: real)
    ensures noise < t
    ensures signal > noise ==> t < signal
    ensures signal <= noise ==> t == noise + 0.25
  {
    var s := if signal > noise then signal else noise + 1.0;
    noise + 0.25 * (s - noise)
  }

  /** The detector's levels: the three-sample window, signal, noise, threshold and last-beat time. */
  datatype Levels = Levels(s0: real, s1: real, s2: real, signal: real, noise: real, thresh: real, lastBeatMs: u32)

  /** The outcome of one sample: the new levels and, when a beat was accepted, its RR interval. */
  datatype Detection = Detection(next: Levels, beat: Option<u32>)

  /** The invariant the threshold logic keeps: 0 <= noise <= threshold and a non-negative signal level. */
  predicate LevelsOrdered(d: Levels) {
    0.0 <= d.noise <= d.thresh && 0.0 <= d.signal
  }

  /**
   * One filtered sample `yf` taken at uptime `ms`. The window always
   * shifts. During warm-up only the noise level learns (weight 0.01) and
   * the threshold is 1.5 times it. Afterwards a local maximum more than the
   * refractory period after the last beat is a candidate; a candidate above
   * the threshold is a beat (its RR is the wrapped time since the last
   * beat, which becomes `ms`, and the signal level learns with weight
   * 0.125), any other candidate teaches the noise level (weight 0.125); the
   * threshold is then recomputed.
   */
  function DetectStep(d: Levels, yf: real, ms: u32): (r: Detection)
    ensures r.next.s2 == d.s1 && r.next.s1 == d.s0 && r.next.s0 == yf
    ensures r.beat.Some? <==>
      ms >= WarmUpMs && IsLocalMax(d.s1, d.s0, yf)
      && AsInt32(Sub(ms, d.lastBeatMs)) > RefractMs && d.s0 > d.thresh
    ensures r.beat.Some? ==> r.beat.value == Sub(ms, d.lastBeatMs) > RefractMs && r.next.lastBeatMs == ms
    ensures r.beat.None? ==> r.next.lastBeatMs == d.lastBeatMs && r.next.signal == d.signal
    ensures ms < WarmUpMs ==> r.next.thresh == 1.5 * r.next.noise
    ensures LevelsOrdered(d) ==> LevelsOrdered(r.next)
  {
    var s1 := d.s0;
    var shifted := d.(s2 := d.s1, s1 := s1, s0 := yf);
    if ms < WarmUpMs then
      var noise := Ema(d.noise, Abs(s1), 0.01);
      Detection(shifted.(noise := noise, thresh := 1.5 * noise), None)
    else if IsLocalMax(d.s1, s1, yf) && AsInt32(Sub(ms, d.lastBeatMs)) > RefractMs then
      if s1 > d.thresh then
        var signal := Ema(d.signal, s1, 0.125);
        Detection(shifted.(lastBeatMs := ms, signal := signal, thresh := AdaptiveThreshold(signal, d.noise)),
                  Some(Sub(ms, d.lastBeatMs)))
      else
        var noise := Ema(d.noise, Abs(s1), 0.125);
        Detection(shifted.(noise := noise, thresh := AdaptiveThreshold(d.signal, noise)), None)
    else
      Detection(shifted, None)
  }

  /** The sum of a sequence of RR intervals. */
  function Sum(s: seq<int>): int
  {
    if s == [] then 0 else Sum(s[..|s| - 1]) + s[|s| - 1]
  }

  lemma {:induction false} SumAppend(a: seq<int>, b: seq<int>)
    ensures Sum(a + b) == Sum(a) + Sum(b)
    decreases |b|
  {
    if b == [] {
      assert a + b == a;
    } else {
      var b' := b[..|b| - 1];
      assert (a + b)[..|a + b| - 1] == a + b';
      SumAppend(a, b');
    }
  }

  /** The sum of the first `n` slots, accumulated front to back as `pushRR` does. */
  function SumTo(s: seq<int>, n: int): int
    requires 0 <= n <= |s|
  {
    if n == 0 then 0 else SumTo(s, n - 1) + s[n - 1]
  }

  lemma {:induction false} SumToIsSum(s: seq<int>, n: int)
    requires 0 <= n <= |s|
    ensures SumTo(s, n) == Sum(s[..n])
  {
    if n > 0 {
      SumToIsSum(s, n - 1);
      assert s[..n][..n - 1] == s[..n - 1];
    }
  }

  /** Every interval lies within [lo, hi]. */
  predicate AllWithin(s: seq<int>, lo: int, hi: int) {
    forall i :: 0 <= i < |s| ==> lo <= s[i] <= hi
  }

  /** The sum of intervals within [lo, hi] lies within [lo·n, hi·n]. */
  lemma {:induction false} SumWithin(s: seq<int>, lo: int, hi: int)
    requires AllWithin(s, lo, hi)
    ensures lo * |s| <= Sum(s) <= hi * |s|
    decreases |s|
  {
    if s != [] {
      var p := s[..|s| - 1];
      assert AllWithin(p, lo, hi) by {
        forall i | 0 <= i < |p| ensures lo <= p[i] <= hi {
          assert p[i] == s[i];
        }
      }
      SumWithin(p, lo, hi);
      assert lo * |s| == lo * |p| + lo && hi * |s| == hi * |p| + hi;
    }
  }

  /** The intervals the average is taken over: the last four, or all of them before the fourth. */
  function Window(h: seq<int>): (w: seq<int>)
    ensures |w| == if |h| < RRBuf then |h| else RRBuf
    decreases |h|
  {
    if |h| <= RRBuf then h else Window(h[1..])
  }

  /** The window is the suffix of the history of its own length. */
  lemma {:induction false} WindowIsSuffix(h: seq<int>)
    ensures Window(h) == h[|h| - |Window(h)|..]
    decreases |h|
  {
    if |h| > RRBuf {
      WindowIsSuffix(h[1..]);
      assert h[1..][|h| - 1 - RRBuf..] == h[|h| - RRBuf..];
    }
  }

  /** Mean RR interval of a non-empty window (ms). */
  function MeanRR(w: seq<int>): real
    requires w != []
  {
    Sum(w) as real / |w| as real
  }

  /** Every interval is positive (stated back to front, as the history grows). */
  predicate AllPositive(h: seq<int>)
    decreases |h|
  {
    h == [] || (AllPositive(h[..|h| - 1]) && h[|h| - 1] > 0)
  }

  lemma {:induction false} AllPositiveAt(h: seq<int>)
    requires AllPositive(h)
    ensures forall i :: 0 <= i < |h| ==> h[i] > 0
    decreases |h|
  {
    if h != [] {
      AllPositiveAt(h[..|h| - 1]);
    }
  }

  /** The sum of intervals of at least `lo` each is at least `lo` times their number. */
  lemma {:induction false} SumAtLeast(s: seq<int>, lo: int)
    requires forall i :: 0 <= i < |s| ==> s[i] >= lo
    ensures Sum(s) >= lo * |s|
    decreases |s|
  {
    if s != [] {
      var p := s[..|s| - 1];
      assert forall i :: 0 <= i < |p| ==> p[i] == s[i];
      SumAtLeast(p, lo);
      assert lo * |s| == lo * |p| + lo;
    }
  }
  /**
   * The average BPM after the intervals `h`: 60000 over the mean of the
   * window; 0 before the first interval.
   */
  function Bpm(h: seq<int>): real
    requires AllPositive(h)
  {
    if h == [] then 0.0
    else
      WindowPositive(h);
      60000.0 / MeanRR(Window(h))
  }

  /** The window of intervals within [lo, hi] is within [lo, hi]. */
  lemma WindowWithin(h: seq<int>, lo: int, hi: int)
    requires AllWithin(h, lo, hi)
    ensures AllWithin(Window(h), lo, hi)
  {
    var w := Window(h);
    WindowIsSuffix(h);
    forall i | 0 <= i < |w| ensures lo <= w[i] <= hi {
      assert w[i] == h[|h| - |w| + i];
    }
  }

  /** A mean of `n` values whose sum lies within [lo·n, hi·n] lies within [lo, hi]. */
  lemma MeanWithin(sum: int, n: int, lo: int, hi: int)
    requires n > 0 && lo * n <= sum <= hi * n
    ensures lo as real <= sum as real / n as real <= hi as real
  {
    var m := sum as real / n as real;
    assert m * n as real == sum as real;
    assert (lo as real) * (n as real) <= m * (n as real) <= (hi as real) * (n as real);
  }

  /** A mean RR interval within [300, 2000] ms is a rate within [30, 200] BPM. */
  lemma RateWithin(m: real)
    requires 300.0 <= m <= 2000.0
    ensures 30.0 <= 60000.0 / m <= 200.0
  {
    assert 60000.0 <= 200.0 * m;
    assert 30.0 * m <= 60000.0;
  }

  /** Intervals within [300, 2000] ms give an average within [30, 200] BPM. */
  lemma {:induction false} BpmRange(h: seq<int>)
    requires h != [] && AllPositive(h) && AllWithin(h, MinRR, MaxRR)
    ensures 30.0 <= Bpm(h) <= 200.0
  {
    var w := Window(h);
    WindowWithin(h, MinRR, MaxRR);
    SumWithin(w, MinRR, MaxRR);
    MeanWithin(Sum(w), |w|, MinRR, MaxRR);
    RateWithin(MeanRR(w));
  }

  /**
   * The heart-rate globals: the detector levels, the RR ring buffer with
   * its write index and filled flag, and the average BPM. `History` is the
   * sequence of every RR interval pushed so far.
   */
  class HeartRateMonitor {
    var s0: real
    var s1: real
    var s2: real
    var signalLevel: real
    var noiseLevel: real
    var thresh: real
    var lastBeatMs: u32
    var bpmAvg: real
    var rrBuf: array<int>
    var rrIdx: int
    var rrFilled: bool
    ghost var History: seq<int>

    /** The detector levels as a value. */
    function Snapshot(): Levels
      reads this
    {
      Levels(s0, s1, s2, signalLevel, noiseLevel, thresh, lastBeatMs)
    }

    /**
     * The buffer holds `Slots(History)`, the index counts pushes modulo
     * four, the filled flag records the fourth push and every interval
     * pushed is positive.
     */
    ghost predicate SlotsValid()
      reads this, rrBuf
    {
      && rrBuf[..] == Slots(History)
      && rrIdx == |History| % RRBuf
      && rrFilled == (|History| >= RRBuf)
      && AllPositive(History)
    }

    /** The slot layout, and `bpmAvg` is the average over the window. */
    ghost predicate RingValid()
      reads this, rrBuf
    {
      SlotsValid() && bpmAvg == Bpm(History)
    }

    /** The ring-buffer invariant, and the detector levels keep 0 <= noise <= threshold. */
    ghost predicate Valid()
      reads this, rrBuf
    {
      RingValid() && LevelsOrdered(Snapshot())
    }

    /** Start-up: every level, clock and slot zero, no interval pushed. */
    constructor ()
      ensures Valid() && fresh(rrBuf) && History == []
      ensures Snapshot() == Levels(0.0, 0.0, 0.0, 0.0, 0.0, 0.0, 0) && bpmAvg == 0.0
      ensures rrBuf[..] == [0, 0, 0, 0] && rrIdx == 0 && !rrFilled
    {
      s0, s1, s2 := 0.0, 0.0, 0.0;
      signalLevel, noiseLevel, thresh := 0.0, 0.0, 0.0;
      lastBeatMs := 0;
      bpmAvg := 0.0;
      rrBuf := new int[RRBuf](_ => 0);
      rrIdx, rrFilled := 0, false;
      History := [];
    }

    /**
     * `pushRR`: stores `rr` at the write index (no other slot changes),
     * advances the index modulo four, setting the filled flag on the wrap,
     * then sets the average BPM from the mean of the counted slots.
     */
    method PushRR(rr: int)
      requires RingValid() && 0 < rr < Modulus
      modifies this`rrIdx, this`rrFilled, this`bpmAvg, this`History, rrBuf
      ensures RingValid() && History == old(History) + [rr]
      ensures rrBuf[..] == old(rrBuf[..])[old(rrIdx) := rr]
      ensures rrIdx == (old(rrIdx) + 1) % RRBuf
      ensures rrFilled == (old(rrFilled) || old(rrIdx) == RRBuf - 1)
    {
      StoreRR(rr);
      UpdateAverage(rr);
    }

    /** The first half of `pushRR`: the store, the index advance and the filled flag. */
    method StoreRR(rr: int)
      requires SlotsValid() && 0 < rr
      modifies this`rrIdx, this`rrFilled, this`History, rrBuf
      ensures SlotsValid() && History == old(History) + [rr]
      ensures rrBuf[..] == old(rrBuf[..])[old(rrIdx) := rr]
      ensures rrIdx == (old(rrIdx) + 1) % RRBuf
      ensures rrFilled == (old(rrFilled) || old(rrIdx) == RRBuf - 1)
    {
      SlotsPush(History, rr);
      NextIndex(|History|);
      rrBuf[rrIdx] := rr;
      History := History + [rr];
      rrIdx := rrIdx + 1;
      if rrIdx >= RRBuf {
        rrIdx := 0;
        rrFilled := true;
      }
    }

    /**
     * The second half of `pushRR`: sums the first four slots once the
     * buffer is full, the first `rrIdx` before, and sets `bpmAvg` to 60000
     * over their mean, which is the average over the window. At least one
     * slot is always counted, so the fallback mean `rr` is never taken.
     */
    method UpdateAverage(rr: int)
      requires SlotsValid() && History != []
      modifies this`bpmAvg
      ensures RingValid()
    {
      var sum := 0;
      var n := if rrFilled then RRBuf else rrIdx;
      var i := 0;
      while i < n
        invariant 0 <= i <= n
        invariant sum == SumTo(rrBuf[..], i)
      {
        sum := sum + rrBuf[i];
        i := i + 1;
      }
      AverageOfSlots(History, sum, n);
      var rrMean := if n > 0 then sum as real / n as real else rr as real;
      bpmAvg := 60000.0 / rrMean;
    }

    /** Writes the detector levels `d` into the globals; the ring buffer is untouched. */
    method SetLevels(d: Levels)
      modifies this`s0, this`s1, this`s2, this`signalLevel, this`noiseLevel, this`thresh, this`lastBeatMs
      ensures Snapshot() == d
    {
      s0, s1, s2 := d.s0, d.s1, d.s2;
      signalLevel, noiseLevel, thresh := d.signal, d.noise, d.thresh;
      lastBeatMs := d.lastBeatMs;
    }

    /**
     * The main loop's detector step for one filtered sample `yf` at uptime
     * `ms`: the levels advance as `DetectStep` says, and an accepted beat
     * whose RR lies within [300, 2000] ms is pushed into the ring buffer.
     */
    method Detect(yf: real, ms: u32)
      requires Valid()
      modifies this`s0, this`s1, this`s2, this`signalLevel, this`noiseLevel, this`thresh, this`lastBeatMs
      modifies this`rrIdx, this`rrFilled, this`bpmAvg, this`History, rrBuf
      ensures Valid()
      ensures Snapshot() == DetectStep(old(Snapshot()), yf, ms).next
      ensures var beat := DetectStep(old(Snapshot()), yf, ms).beat;
        History == old(History) + (if beat.Some? && MinRR <= beat.value <= MaxRR then [beat.value] else [])
      ensures History == old(History) ==> bpmAvg == old(bpmAvg) && rrBuf[..] == old(rrBuf[..])
    {
      var r := DetectStep(Snapshot(), yf, ms);
      SetLevels(r.next);
      if r.beat.Some? && MinRR <= r.beat.value <= MaxRR {
        PushRR(r.beat.value);
      }
    }
  }

  /** Every interval of a window over positive intervals is positive, so its sum and mean are. */
  lemma WindowPositive(h: seq<int>)
    requires h != [] && AllPositive(h)
    ensures Sum(Window(h)) > 0 && MeanRR(Window(h)) > 0.0
  {
    var w := Window(h);
    WindowIsSuffix(h);
    AllPositiveAt(h);
    forall i | 0 <= i < |w| ensures w[i] >= 1 {
      assert w[i] == h[|h| - |w| + i];
    }
    SumAtLeast(w, 1);
    MeanPositive(Sum(w), |w|);
  }

  lemma MeanPositive(sum: int, n: int)
    requires sum > 0 && n > 0
    ensures sum as real / n as real > 0.0
  {
  }

  /**
   * The ring-buffer layout after the intervals `h` have been pushed into
   * the four slots `buf` with write index `idx`: before the fourth push the
   * first `idx` slots are `h` in order; from then on, reading the slots from
   * `idx` round to `idx - 1` gives the last four intervals, oldest first.
   */
  ghost predicate Ring(h: seq<int>, buf: seq<int>, idx: int) {
    && |buf| == RRBuf
    && 0 <= idx < RRBuf
    && idx == |h| % RRBuf
    && (|h| < RRBuf ==> buf[..idx] == h)
    && (|h| >= RRBuf ==> h[|h| - RRBuf..] == buf[idx..] + buf[..idx])
  }

  /** Writing `rr` at the write index keeps the layout of the history `h'`, `h` with `rr` appended, in the slots `buf'`. */
  lemma RingPush(h: seq<int>, buf: seq<int>, idx: int, rr: int, h': seq<int>, buf': seq<int>)
    requires Ring(h, buf, idx) && h' == h + [rr] && buf' == buf[idx := rr]
    ensures Ring(h', buf', |h'| % RRBuf)
  {
    if |h| < RRBuf - 1 {
      RingPushFilling(h, buf, idx, rr);
    } else if |h| == RRBuf - 1 {
      RingPushFills(h, buf, idx, rr);
    } else if idx < RRBuf - 1 {
      RingPushFull(h, buf, idx, rr);
    } else {
      RingPushFullWrap(h, buf, idx, rr);
    }
  }

  /** Before the window is full, `rr` lands just after the samples so far. */
  lemma RingPushFilling(h: seq<int>, buf: seq<int>, idx: int, rr: int)
    requires Ring(h, buf, idx) && |h| < RRBuf - 1
    ensures Ring(h + [rr], buf[idx := rr], (|h| + 1) % RRBuf)
  {
    assert idx == |h| && (|h| + 1) % RRBuf == idx + 1;
    assert buf[idx := rr][..idx + 1] == buf[..idx] + [rr];
  }

  /** The sample that fills the window lands in the last slot, and the write index wraps. */
  lemma RingPushFills(h: seq<int>, buf: seq<int>, idx: int, rr: int)
    requires Ring(h, buf, idx) && |h| == RRBuf - 1
    ensures Ring(h + [rr], buf[idx := rr], (|h| + 1) % RRBuf)
  {
    var h' := h + [rr];
    assert idx == |h| && (|h| + 1) % RRBuf == 0;
    assert buf[idx := rr] == buf[..idx] + [rr];
    assert h'[|h'| - RRBuf..] == h';
  }

  /** Once full, `rr` replaces the oldest sample, at a write index short of the last slot. */
  lemma RingPushFull(h: seq<int>, buf: seq<int>, idx: int, rr: int)
    requires Ring(h, buf, idx) && |h| >= RRBuf && idx < RRBuf - 1
    ensures Ring(h + [rr], buf[idx := rr], (|h| + 1) % RRBuf)
  {
    var h', buf', idx' := h + [rr], buf[idx := rr], idx + 1;
    assert (|h| + 1) % RRBuf == idx';
    assert h'[|h'| - RRBuf..] == h[|h| - RRBuf..][1..] + [rr];
    assert (buf[idx..] + buf[..idx])[1..] == buf[idx'..] + buf[..idx];
    assert buf'[idx'..] == buf[idx'..];
    assert buf'[..idx'] == buf[..idx] + [rr];
  }

  /** Once full, `rr` replaces the oldest sample in the last slot and the write index wraps. */
  lemma RingPushFullWrap(h: seq<int>, buf: seq<int>, idx: int, rr: int)
    requires Ring(h, buf, idx) && |h| >= RRBuf && idx == RRBuf - 1
    ensures Ring(h + [rr], buf[idx := rr], (|h| + 1) % RRBuf)
  {
    var h', buf' := h + [rr], buf[idx := rr];
    assert (|h| + 1) % RRBuf == 0;
    assert h'[|h'| - RRBuf..] == h[|h| - RRBuf..][1..] + [rr];
    assert buf[idx..] == [buf[idx]];
    assert buf' == buf[..idx] + [rr];
  }

  /**
   * Once the buffer is full its slots hold exactly the window of the last
   * four intervals, up to order.
   */
  lemma RingHoldsWindow(h: seq<int>, buf: seq<int>, idx: int)
    requires Ring(h, buf, idx) && |h| >= RRBuf
    ensures multiset(buf) == multiset(Window(h))
  {
    WindowIsSuffix(h);
    assert buf == buf[..idx] + buf[idx..];
  }

  /**
   * The slots `pushRR` sums, the first four once full and the first `idx`
   * before, add up to the sum of the window of the last (up to) four
   * intervals.
   */
  lemma RingSum(h: seq<int>, buf: seq<int>, idx: int)
    requires Ring(h, buf, idx)
    ensures SumTo(buf, Counted(h, idx)) == Sum(Window(h))
  {
    var n := Counted(h, idx);
    SumToIsSum(buf, n);
    WindowIsSuffix(h);
    if |h| >= RRBuf {
      assert buf[..RRBuf] == buf == buf[..idx] + buf[idx..];
      SumAppend(buf[..idx], buf[idx..]);
      SumAppend(buf[idx..], buf[..idx]);
    }
  }

  /** The number of slots `pushRR` sums after the intervals `h`, with write index `idx`. */
  function Counted(h: seq<int>, idx: int): int
  {
    if |h| >= RRBuf then RRBuf else idx
  }


  /**
   * The contents of the four slots after the intervals `h`: all zero at
   * start-up, and each push overwrites the slot at the push count modulo
   * four.
   */
  function Slots(h: seq<int>): (buf: seq<int>)
    ensures |buf| == RRBuf
    decreases |h|
  {
    if h == [] then [0, 0, 0, 0]
    else Slots(h[..|h| - 1])[(|h| - 1) % RRBuf := h[|h| - 1]]
  }

  /** The write index after one more push: the next slot, wrapping from the last to the first. */
  lemma NextIndex(k: nat)
    ensures (k + 1) % RRBuf == if k % RRBuf == RRBuf - 1 then 0 else k % RRBuf + 1
  {
  }

  /** One push: the slots gain `rr` at the write index; positivity is kept. */
  lemma SlotsPush(h: seq<int>, rr: int)
    requires AllPositive(h) && rr > 0
    ensures Slots(h + [rr]) == Slots(h)[|h| % RRBuf := rr] && AllPositive(h + [rr])
  {
    assert (h + [rr])[..|h|] == h;
  }

  /** The slots after `h` are laid out as `Ring` says, with write index |h| mod 4. */
  lemma {:induction false} SlotsRing(h: seq<int>)
    ensures Ring(h, Slots(h), |h| % RRBuf)
    decreases |h|
  {
    if h != [] {
      var p, rr := h[..|h| - 1], h[|h| - 1];
      assert p + [rr] == h;
      assert Slots(h) == Slots(p)[|p| % RRBuf := rr];
      SlotsRing(p);
      RingPush(p, Slots(p), |p| % RRBuf, rr, h, Slots(h));
    }
  }

  /** Once four intervals were pushed, the slots hold exactly the last four, up to order. */
  lemma SlotsHoldWindow(h: seq<int>)
    requires |h| >= RRBuf
    ensures multiset(Slots(h)) == multiset(Window(h))
  {
    SlotsRing(h);
    RingHoldsWindow(h, Slots(h), |h| % RRBuf);
  }

  /**
   * The sum `sum` of the slots `pushRR` counts after a non-empty history of
   * positive intervals (all four once full, the first |h| before) is
   * positive, and 60000 over the mean `sum / n` is the history's average
   * BPM; `n` is at least one, so the fallback mean is never used.
   */
  lemma AverageOfSlots(h: seq<int>, sum: int, n: int)
    requires AllPositive(h) && h != []
    requires n == (if |h| >= RRBuf then RRBuf else |h| % RRBuf) && sum == SumTo(Slots(h), n)
    ensures 0 < n <= RRBuf && sum > 0 && Bpm(h) == 60000.0 / (sum as real / n as real)
  {
    SlotsRing(h);
    RingSum(h, Slots(h), |h| % RRBuf);
    WindowPositive(h);
  }
}
