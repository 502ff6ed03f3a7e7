/**
 * The wearable's main loop: a 30 Hz ECG task that filters one sample and
 * runs the beat detector, a once-per-second task that smooths the GPS
 * speed and feeds the per-second accumulators, and, inside it, the minute
 * task that appends the CSV record and resets the minute. Every deadline
 * advances by its period from the previous deadline, never from "now".
 */
module Wearable {
  import opened Clock
  import opened Optional
  import opened Filter
  import opened HeartRate
  import opened GpsProcessing
  import opened Metrics
  import opened SdCard

  /** The ECG sampling period: 10^6 / 30 microseconds, truncated. */
  const EcgPeriodUs: nat := 1000000 / 30

  /** Period of the per-second task (ms). */
  const SecondMs: nat := 1000

  /** Period of the minute summary (ms). */
  const MinuteMs: nat := 60000

  /** The ECG deadline test: the signed reading of `now - due` is not negative. */
  function EcgDue(nowUs: u32, dueUs: u32): bool {
    AsInt32(Sub(nowUs, dueUs)) >= 0
  }

  /** The unsigned period test: at least `period` ticks since `since`. */
  function Elapsed(now: u32, since: u32, period: nat): bool {
    Sub(now, since) >= period
  }

  /** The unsigned test measures the true time since the deadline whenever less than 2^32 ticks have passed. */
  lemma ElapsedMeasuresTime(since: u32, k: nat, period: nat)
    requires k < Modulus
    ensures Elapsed(Add(since, k), since, period) <==> k >= period
  {
  }

  /**
   * A due deadline advanced by its period leaves the backlog smaller by
   * exactly one period: a late loop runs the task once per pass until it
   * has caught up, and no period is skipped.
   */
  lemma ElapsedCatchesUp(now: u32, since: u32, period: nat)
    requires 0 < period < Modulus && Elapsed(now, since, period)
    ensures Sub(now, Add(since, period)) == Sub(now, since) - period
  {
    var d := Sub(now, since);
    assert (since + d) % Modulus == now;
    var s' := Add(since, period);
    assert s' == (since + period) % Modulus;
    var e := d - period;
    assert (s' + e) % Modulus == now by {
      assert s' + e == since + period + e - Modulus * ((since + period) / Modulus);
      ModuloShift(since + d, (since + period) / Modulus);
    }
    SubUnique(now, s', e);
  }

  /** Subtracting a multiple of the modulus keeps the residue. */
  lemma ModuloShift(x: int, q: int)
    ensures (x - Modulus * q) % Modulus == x % Modulus
  {
  }

  /** The only 32-bit value that added to `b` gives `a` is `Sub(a, b)`. */
  lemma SubUnique(a: u32, b: u32, e: int)
    requires 0 <= e < Modulus && (b + e) % Modulus == a
    ensures Sub(a, b) == e
  {
    if b <= a {
      assert b + e < Modulus + a;
    }
  }

  /**
   * The same for the signed ECG test: while the loop is on time or late by
   * less than 2^31 - period microseconds, advancing the deadline lowers
   * the signed lag by exactly one period.
   */
  lemma EcgCatchesUp(nowUs: u32, dueUs: u32)
    requires EcgDue(nowUs, dueUs) && AsInt32(Sub(nowUs, dueUs)) < HalfModulus - EcgPeriodUs
    ensures AsInt32(Sub(nowUs, Add(dueUs, EcgPeriodUs))) == AsInt32(Sub(nowUs, dueUs)) - EcgPeriodUs
  {
    var d := Sub(nowUs, dueUs);
    assert (dueUs + d) % Modulus == nowUs;
    var s' := Add(dueUs, EcgPeriodUs);
    var e := d - EcgPeriodUs;
    var e' := e % Modulus;
    assert (s' + e') % Modulus == nowUs by {
      assert s' == (dueUs + EcgPeriodUs) % Modulus;
      assert s' + e == dueUs + d - Modulus * ((dueUs + EcgPeriodUs) / Modulus);
      ModuloShift(dueUs + d, (dueUs + EcgPeriodUs) / Modulus);
      assert e' == e || e' == e + Modulus;
      if e' != e {
        ModuloShift(s' + e', 1);
      }
    }
    SubUnique(nowUs, s', e');
  }

  /**
   * The speed the second reports: zero without a valid GPS speed, zero when
   * the smoothed speed is below 0.7 km/h, else the smoothed speed.
   */
  function ReportedSpeed(smoothed: Option<real>): (v: real)
    ensures v == 0.0 || v >= VThreshKmh
    ensures v != 0.0 ==> smoothed == Some(v)
    ensures smoothed.Some? && smoothed.value >= VThreshKmh ==> v == smoothed.value
  {
    match smoothed
    case None => 0.0
    case Some(s) => if s < VThreshKmh then 0.0 else s
  }

  /**
   * The firmware's globals and statics: the filter bank, the beat detector
   * and RR ring, the speed smoother, the accumulators, the card's file and
   * the three deadlines of the loop.
   */
  class Device {
    const sos: array<Biquad>
    const hr: HeartRateMonitor
    const speed: SpeedSmoother
    const agg: MinuteAggregator
    const card: CsvFile
    var nextEcgUs: u32
    var lastSecMs: u32
    var tMinuteStartMs: u32

    /** The detector and RR ring keep their invariant. */
    ghost predicate EcgValid()
      reads hr, hr.rrBuf
    {
      hr.Valid()
    }

    /** The smoother and the accumulators keep theirs, and the speed slots are none of the zone arrays. */
    ghost predicate SecondValid()
      reads speed, speed.vbuf, agg
    {
      && speed.Valid() && agg.Valid()
      && speed.vbuf != agg.secInVZ && speed.vbuf != agg.distInVZ && speed.vbuf != agg.secInHZ
    }

    ghost predicate Valid()
      reads hr, hr.rrBuf, speed, speed.vbuf, agg
    {
      EcgValid() && SecondValid()
    }

    /**
     * The firmware's static initialisers: every component at rest, the
     * card's file as found, every deadline zero.
     */
    constructor (file: FileState)
      ensures Valid()
      ensures sos[..] == InitialBank && hr.History == [] && speed.Samples == []
      ensures agg.Snapshot() == Fresh(0.0, 0.0, 0) && card.State() == file
      ensures nextEcgUs == 0 && lastSecMs == 0 && tMinuteStartMs == 0
    {
      var log := new CsvFile(file.present, file.content);
      var bank := new Biquad[Stages](i requires 0 <= i < Stages => InitialBank[i]);
      assert bank[..] == InitialBank;
      var monitor := new HeartRateMonitor();
      var smoother := new SpeedSmoother();
      var aggregator := new MinuteAggregator();
      sos, hr, speed, agg, card := bank, monitor, smoother, aggregator, log;
      nextEcgUs, lastSecMs, tMinuteStartMs := 0, 0, 0;
    }

    /**
     * `setup` at uptime `nowMs`: when the card starts (`sdOk`) the log file
     * is created as `crearArchivoCSV` does, and the minute starts now.
     */
    method Setup(sdOk: bool, openOk: bool, nowMs: u32)
      requires Valid()
      modifies this`tMinuteStartMs, card
      ensures Valid()
      ensures card.State() == if sdOk then Created(old(card.State()), openOk) else old(card.State())
      ensures tMinuteStartMs == nowMs
    {
      if sdOk {
        card.CreateCsv(openOk);
      }
      tMinuteStartMs := nowMs;
    }

    /**
     * The ECG block of `loop`, at `nowUs` µs and `ms` ms with `raw` the ADC
     * reading: when the deadline is due it advances by one period, the
     * sample goes through the filter bank and the filtered value through the
     * detector; otherwise nothing changes.
     */
    method EcgTask(nowUs: u32, ms: u32, raw: real) returns (fired: bool)
      requires EcgValid()
      modifies this`nextEcgUs, sos
      modifies hr`s0, hr`s1, hr`s2, hr`signalLevel, hr`noiseLevel, hr`thresh, hr`lastBeatMs
      modifies hr`rrIdx, hr`rrFilled, hr`bpmAvg, hr`History, hr.rrBuf
      ensures EcgValid()
      ensures fired == EcgDue(nowUs, old(nextEcgUs))
      ensures fired ==> nextEcgUs == Add(old(nextEcgUs), EcgPeriodUs)
      ensures fired ==> sos[..] == Cascade(old(sos[..]), raw).0
      ensures fired ==> hr.Snapshot() == DetectStep(old(hr.Snapshot()), Cascade(old(sos[..]), raw).1, ms).next
      ensures fired ==> var beat := DetectStep(old(hr.Snapshot()), Cascade(old(sos[..]), raw).1, ms).beat;
        hr.History == old(hr.History) + (if beat.Some? && MinRR <= beat.value <= MaxRR then [beat.value] else [])
      ensures hr.bpmAvg == Bpm(hr.History)
      ensures !fired ==> nextEcgUs == old(nextEcgUs) && sos[..] == old(sos[..])
      ensures !fired ==> hr.Snapshot() == old(hr.Snapshot()) && hr.History == old(hr.History) && hr.bpmAvg == old(hr.bpmAvg)
    {
      fired := AsInt32(Sub(nowUs, nextEcgUs)) >= 0;
      if fired {
        nextEcgUs := Add(nextEcgUs, EcgPeriodUs);
        var yf := FilterSample(sos, raw);
        hr.Detect(yf, ms);
      }
    }

    /**
     * The speed of the second, from `gpsKmh`, the GPS speed when valid: a
     * valid speed goes through the smoother and the reported speed is zero
     * when the smoothed one is below 0.7 km/h; without one the smoother is
     * untouched and the speed is zero.
     */
    method SpeedInput(gpsKmh: Option<real>) returns (v: real)
      requires SecondValid()
      modifies speed, speed.vbuf
      ensures SecondValid()
      ensures speed.Samples == old(speed.Samples) + (if gpsKmh.Some? then [gpsKmh.value] else [])
      ensures v == ReportedSpeed(if gpsKmh.Some? then Some(MeanSpeed(speed.Samples)) else None)
    {
      v := 0.0;
      if gpsKmh.Some? {
        v := speed.MovingAvg(gpsKmh.value);
        if v < VThreshKmh {
          v := 0.0;
        }
      }
    }

    /**
     * The accumulating half of the per-second block: the speed of the
     * second and the monitor's `bpmAvg`, the average over the RR window,
     * feed the accumulators.
     */
    method Accumulate(gpsKmh: Option<real>)
      requires SecondValid()
      modifies speed, speed.vbuf
      modifies agg`bpmSumSec, agg`bpmSecCount, agg`trimpMinute, agg`distMMinute, agg`distMTotal
      modifies agg`vKmhLast, agg`vKmhMaxMin, agg`sprintHold, agg`inSprint, agg`sprintsMin, agg`sprintsTotal
      modifies agg.secInVZ, agg.distInVZ, agg.secInHZ
      ensures SecondValid()
      ensures speed.Samples == old(speed.Samples) + (if gpsKmh.Some? then [gpsKmh.value] else [])
      ensures agg.Snapshot() == SecondUpdate(old(agg.Snapshot()), ReportedSpeed(if gpsKmh.Some? then Some(MeanSpeed(speed.Samples)) else None), hr.bpmAvg)
    {
      var v := SpeedInput(gpsKmh);
      agg.SecondTick(v, hr.bpmAvg);
    }

    /**
     * The per-second block of `loop` at `nowMs`, with `gpsKmh` the GPS speed
     * when valid: when a second is due its deadline advances by 1000 ms,
     * the speed of the second and the monitor's average BPM feed the
     * accumulators, giving `m`, and then the minute block runs; otherwise
     * nothing changes.
     */
    method SecondTask(nowMs: u32, gpsKmh: Option<real>, openOk: bool, dt: Option<DateTime>) returns (ticked: bool, wrote: bool, ghost m: Minute)
      requires Valid()
      modifies this`lastSecMs, this`tMinuteStartMs, speed, speed.vbuf
      modifies agg`bpmSumSec, agg`bpmSecCount, agg`trimpMinute, agg`distMMinute, agg`distMTotal
      modifies agg`vKmhLast, agg`vKmhMaxMin, agg`sprintHold, agg`inSprint, agg`sprintsMin, agg`sprintsTotal
      modifies agg.secInVZ, agg.distInVZ, agg.secInHZ, card
      ensures Valid()
      ensures ticked == Elapsed(nowMs, old(lastSecMs), SecondMs)
      ensures lastSecMs == if ticked then Add(old(lastSecMs), SecondMs) else old(lastSecMs)
      ensures wrote == (ticked && Elapsed(nowMs, old(tMinuteStartMs), MinuteMs))
      ensures tMinuteStartMs == if wrote then Add(old(tMinuteStartMs), MinuteMs) else old(tMinuteStartMs)
      ensures speed.Samples == old(speed.Samples) + (if ticked && gpsKmh.Some? then [gpsKmh.value] else [])
      ensures !ticked ==> agg.Snapshot() == old(agg.Snapshot()) && card.State() == old(card.State())
      ensures ticked ==> m == SecondUpdate(old(agg.Snapshot()), ReportedSpeed(if gpsKmh.Some? then Some(MeanSpeed(speed.Samples)) else None), Bpm(hr.History))
      ensures ticked ==>
        && (wrote ==> agg.Snapshot() == ResetMinute(m)
                      && card.State() == Saved(old(card.State()), openOk, RecordLine(Timestamp(dt, nowMs), m, BpmMean(m), VMean(m))))
        && (!wrote ==> agg.Snapshot() == m && card.State() == old(card.State()))
    {
      wrote := false;
      m := agg.Snapshot();
      ticked := Sub(nowMs, lastSecMs) >= SecondMs;
      if ticked {
        lastSecMs := Add(lastSecMs, SecondMs);
        wrote, m := SecondDue(nowMs, gpsKmh, openOk, dt);
      }
    }

    /**
     * The body of the per-second block once the second is due: the
     * accumulators take the second, giving `m`, and the minute block runs.
     */
    method SecondDue(nowMs: u32, gpsKmh: Option<real>, openOk: bool, dt: Option<DateTime>) returns (wrote: bool, ghost m: Minute)
      requires SecondValid()
      modifies this`tMinuteStartMs, speed, speed.vbuf
      modifies agg`bpmSumSec, agg`bpmSecCount, agg`trimpMinute, agg`distMMinute, agg`distMTotal
      modifies agg`vKmhLast, agg`vKmhMaxMin, agg`sprintHold, agg`inSprint, agg`sprintsMin, agg`sprintsTotal
      modifies agg.secInVZ, agg.distInVZ, agg.secInHZ, card
      ensures SecondValid()
      ensures wrote == Elapsed(nowMs, old(tMinuteStartMs), MinuteMs)
      ensures tMinuteStartMs == if wrote then Add(old(tMinuteStartMs), MinuteMs) else old(tMinuteStartMs)
      ensures speed.Samples == old(speed.Samples) + (if gpsKmh.Some? then [gpsKmh.value] else [])
      ensures m == SecondUpdate(old(agg.Snapshot()), ReportedSpeed(if gpsKmh.Some? then Some(MeanSpeed(speed.Samples)) else None), hr.bpmAvg)
      ensures agg.Snapshot() == if wrote then ResetMinute(m) else m
      ensures card.State() == if wrote then Saved(old(card.State()), openOk, RecordLine(Timestamp(dt, nowMs), m, BpmMean(m), VMean(m))) else old(card.State())
    {
      Accumulate(gpsKmh);
      m := agg.Snapshot();
      wrote := MinuteTask(nowMs, openOk, dt);
    }

    /**
     * The minute block: when a minute is due its deadline advances by
     * 60000 ms, the minute's means are taken, the record is saved to the
     * card and the minute's accumulators are reset.
     */
    method MinuteTask(nowMs: u32, openOk: bool, dt: Option<DateTime>) returns (wrote: bool)
      requires SecondValid()
      modifies this`tMinuteStartMs, card
      modifies agg`bpmSumSec, agg`bpmSecCount, agg`trimpMinute, agg`distMMinute
      modifies agg`vKmhMaxMin, agg`sprintHold, agg`inSprint, agg`sprintsMin
      modifies agg.secInVZ, agg.distInVZ, agg.secInHZ
      ensures SecondValid()
      ensures wrote == Elapsed(nowMs, old(tMinuteStartMs), MinuteMs)
      ensures wrote ==> tMinuteStartMs == Add(old(tMinuteStartMs), MinuteMs)
      ensures wrote ==> var m := old(agg.Snapshot());
        && card.State() == Saved(old(card.State()), openOk, RecordLine(Timestamp(dt, nowMs), m, BpmMean(m), VMean(m)))
        && agg.Snapshot() == ResetMinute(m)
      ensures !wrote ==> tMinuteStartMs == old(tMinuteStartMs) && agg.Snapshot() == old(agg.Snapshot())
      ensures !wrote ==> card.State() == old(card.State())
    {
      wrote := Sub(nowMs, tMinuteStartMs) >= MinuteMs;
      if wrote {
        tMinuteStartMs := Add(tMinuteStartMs, MinuteMs);
        var m := agg.Snapshot();
        var bpmMeanMin := if agg.bpmSecCount > 0 then agg.bpmSumSec / agg.bpmSecCount as real else 0.0;
        var vMeanMin := agg.distMMinute / 60.0 * 3.6;
        card.SaveRecord(openOk, m, bpmMeanMin, vMeanMin, dt, nowMs);
        agg.ResetMinuteAccumulators();
      }
    }
  }
}
