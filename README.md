# Verified model of the Platformios embedded programs

This project models, in Dafny, the logic of three microcontroller programs and proves properties about them.

**The wearable sport monitor (Arduino Nano 33 IoT)**

- It samples an ECG/EMG channel at 30 Hz.
- A cascade of four biquad sections filters each sample.
- It detects heartbeats with an adaptive threshold.
- It keeps the last four RR intervals in a ring, and derives the heart rate from their mean.
- It smooths the GPS speed over five samples.
- Every second it accumulates:
  - distance;
  - time and distance per speed zone;
  - time per heart-rate zone;
  - TRIMP;
  - sprints.
- Every minute it appends one 23-column CSV record to the SD card, then clears the minute's accumulators.

**The incubator (ATmega328P)**

- A PID controller with a clamped trapezoidal integrator, a filtered derivative on the measurement, and a clamped output.
- A serial command parser (`P`, `I`, `D`, `S` followed by a number).
- A sensing step that turns the PID output into the number of ON half-cycles.
- A zero-cross step that fires the solid-state relay for that many of every 120 half-cycles.

**The three-phase inverter (two copies of the same program)**

- A 6-bit firing register is rotated one place on every commutation and written to port B.

## How the model is built

- Code that updates state in place is modelled as classes whose methods are proved against pure specification functions:
  - `FilterSample` on an array of biquads;
  - `HeartRateMonitor`, `SpeedSmoother`, `MinuteAggregator` and `CsvFile`;
  - the `Device` that owns them;
  - `PIDController`, the incubator `Controller` and the inverter `Driver`.
- The specification functions include `Cascade`, `DetectStep`, `SecondUpdate`, `ResetMinute`, `Saved`, `Step`, `Applied` and `Rotate`.
- Lemmas state what the source promises about those functions.
- Floats are `real`.
- Clock values are 32-bit unsigned integers, and their subtraction is taken modulo 2^32.

## Model

| member | source | states |
|---|---|---|
| Clock.Sub | arduino-nano-iot/wearable-sport/src/main.cpp:80 | Unsigned 32-bit subtraction: the difference d is in range and satisfies (b + d) mod 2^32 = a. Both the borrow and the no-borrow case are given. |
| Clock.Add | arduino-nano-iot/wearable-sport/src/main.cpp:81 | Advancing a deadline by k wraps modulo 2^32. Measuring from the old deadline gives back k mod 2^32. |
| Clock.AsInt32 | arduino-nano-iot/wearable-sport/src/main.cpp:80 | The cast to a signed 32-bit integer: the result is in [-2^31, 2^31), is congruent to the input, and is non-negative iff the input is below 2^31. |
| Clock.DeadlineTestIsWrapSafe | arduino-nano-iot/wearable-sport/src/main.cpp:77-81 | The signed deadline test fires at any time less than 2^31 after the deadline, and not at any time up to 2^31 before it, across the counter wrap. |
| Wearable.ElapsedMeasuresTime | arduino-nano-iot/wearable-sport/src/main.cpp:141 | The unsigned test `now - since >= period` holds exactly when at least `period` has passed, even across the wrap. |
| Wearable.ElapsedCatchesUp | arduino-nano-iot/wearable-sport/src/main.cpp:140-142 | Advancing `lastSecMs` by one period reduces the measured lag by exactly one period, so late seconds are caught up one per pass. |
| Wearable.EcgCatchesUp | arduino-nano-iot/wearable-sport/src/main.cpp:80-81 | When the ECG deadline fires, adding the 1/30 s period reduces the signed lag by exactly that period. |
| Wearable.ReportedSpeed | arduino-nano-iot/wearable-sport/src/main.cpp:145-149 | The reported speed is 0 or at least 0.7 km/h. A non-zero result is the smoothed speed. A smoothed speed at or above the threshold passes through unchanged. |
| Wearable.Device.constructor | arduino-nano-iot/wearable-sport/src/main.cpp:77-142 | Initial state: deadlines 0, the filter bank as declared, an empty RR and speed history, zero accumulators, and the card as given. |
| Wearable.Device.Setup | arduino-nano-iot/wearable-sport/src/main.cpp:45-60 | The CSV file is created only when the card initialised. The minute timer starts at the current time. |
| Wearable.Device.EcgTask | arduino-nano-iot/wearable-sport/src/main.cpp:77-120 | The block fires iff the signed deadline test holds. When it fires: the deadline advances by one period; the filter bank and detector state become `Cascade` and `DetectStep` of the old state; the accepted RR interval is appended to the monitor's history iff it lies in [300, 2000] ms. Otherwise nothing changes. Either way `bpmAvg` is `Bpm` of the history. |
| Wearable.Device.SpeedInput | arduino-nano-iot/wearable-sport/src/main.cpp:144-149 | A valid GPS speed is appended to the smoothing history. The speed used is `ReportedSpeed` of its moving average, or 0 without a fix. |
| Wearable.Device.Accumulate | arduino-nano-iot/wearable-sport/src/main.cpp:144-186 | The minute's accumulators become `SecondUpdate` of the old ones, with the reported speed and the monitor's `bpmAvg` as the second's heart rate. |
| Wearable.Device.SecondTask | arduino-nano-iot/wearable-sport/src/main.cpp:139-253 | The per-second block runs iff a second has elapsed and then advances `lastSecMs` by 1000. The second's heart rate is `Bpm` of the monitor's RR history. Inside the block, the minute block runs iff a minute has elapsed. That block writes `RecordLine` of the updated minute, then resets it with `ResetMinute`. Otherwise the card is untouched. |
| Wearable.Device.SecondDue | arduino-nano-iot/wearable-sport/src/main.cpp:144-253 | Once a second is due: the speed is pushed, the accumulators take the second with the monitor's `bpmAvg`, giving `m`. When a minute has elapsed, `RecordLine` of `m` is saved and the minute is reset; otherwise the accumulators hold `m` and the card is untouched. |
| Wearable.Device.MinuteTask | arduino-nano-iot/wearable-sport/src/main.cpp:188-252 | When a minute has elapsed: the timer advances by 60000; the record of the current minute, with its mean heart rate and mean speed, is appended when the file opens; the accumulators are reset. Otherwise nothing changes. |
| Filter.Cascade | arduino-nano-iot/wearable-sport/src/filter.cpp:29-38 | The cascade returns one updated section per input section, with the output of each section fed into the next. |
| Filter.FilterSample | arduino-nano-iot/wearable-sport/src/filter.cpp:29-38 | The in-place loop leaves the bank and returns the output exactly as `Cascade` of the old bank. |
| Filter.CascadeKeepsCoefficients | arduino-nano-iot/wearable-sport/src/filter.cpp:31-34 | Filtering changes only the z1 and z2 states; every coefficient is kept. |
| Filter.ZeroInputKeepsRest | arduino-nano-iot/wearable-sport/src/filter.cpp:29-38 | A bank at rest fed 0 stays at rest and outputs 0. |
| Filter.InitialBankIsAtRest | arduino-nano-iot/wearable-sport/src/filter.cpp:16-21 | The declared bank has four sections, all with zero state. |
| Filter.StepPendingTerms | arduino-nano-iot/wearable-sport/src/filter.cpp:32-34 | One transposed direct-form II step produces the direct-form output, with z1 and z2 holding the pending terms of the difference equation. |
| Filter.RunRealisesDifferenceEquation | arduino-nano-iot/wearable-sport/src/filter.cpp:32-35 | From rest, a section's outputs over any input sequence are those of the biquad difference equation y[n] = b0x[n]+b1x[n-1]+b2x[n-2]-a1y[n-1]-a2y[n-2]. |
| HeartRate.Ema | arduino-nano-iot/wearable-sport/src/main.cpp:111-113 | An exponential average with weight in [0, 1] lies between the previous level and the new value. |
| HeartRate.AdaptiveThreshold | arduino-nano-iot/wearable-sport/src/main.cpp:117-118 | The threshold is always above the noise level. It is below the signal level when the signal exceeds the noise. It is noise + 0.25 otherwise. |
| HeartRate.DetectStep | arduino-nano-iot/wearable-sport/src/main.cpp:88-119 | The sample window shifts on every call. A beat is accepted iff: the warm-up is over; the middle sample is a local maximum; more than 300 ms have passed since the last beat; and the sample is above the threshold. An accepted beat records the time and an RR interval over 300 ms. Warm-up sets the threshold to 1.5 × noise. Threshold > noise is preserved. |
| HeartRate.BpmRange | arduino-nano-iot/wearable-sport/src/heart_rate.cpp:42-49 | With every RR interval in [300, 2000] ms, the averaged heart rate is in [30, 200] bpm. |
| HeartRate.WindowPositive | arduino-nano-iot/wearable-sport/src/heart_rate.cpp:48-49 | With positive intervals, the mean RR is positive, so the division that gives bpm is defined. |
| HeartRate.HeartRateMonitor.constructor | arduino-nano-iot/wearable-sport/src/heart_rate.cpp:18-28 | All detector levels, the last beat time and bpmAvg start at 0. The ring is zeroed, with index 0 and not filled. |
| HeartRate.HeartRateMonitor.PushRR | arduino-nano-iot/wearable-sport/src/heart_rate.cpp:35-50 | The interval is written at the ring index, the index advances modulo 4, and the ring is filled from the 4th push on. The ring invariant (bpmAvg is 60000 / mean of the last four intervals) is kept. |
| HeartRate.HeartRateMonitor.StoreRR | arduino-nano-iot/wearable-sport/src/heart_rate.cpp:36-40 | The ring write and index advance alone, keeping the slot layout. |
| HeartRate.HeartRateMonitor.UpdateAverage | arduino-nano-iot/wearable-sport/src/heart_rate.cpp:42-49 | The summing loop over the filled slots sets bpmAvg to 60000 / mean of the last up-to-four intervals. |
| HeartRate.HeartRateMonitor.Detect | arduino-nano-iot/wearable-sport/src/main.cpp:88-119 | The detector fields become `DetectStep` of the old ones. An accepted beat with RR in [300, 2000] is pushed; otherwise bpmAvg and the ring are untouched. |
| HeartRate.RingPush | arduino-nano-iot/wearable-sport/src/heart_rate.cpp:36-40 | Writing at the index and advancing it modulo 4 keeps the ring layout, with the new interval as the newest. |
| HeartRate.RingHoldsWindow | arduino-nano-iot/wearable-sport/src/heart_rate.cpp:36-40 | Once four intervals were pushed, the ring holds exactly the last four, up to order. |
| HeartRate.RingSum | arduino-nano-iot/wearable-sport/src/heart_rate.cpp:42-46 | The loop's sum over `rrFilled ? 4 : rrIdx` slots is the sum of the last up-to-four intervals. |
| HeartRate.SlotsRing | arduino-nano-iot/wearable-sport/src/heart_rate.cpp:36-40 | The slots written by any push history have the ring layout. |
| HeartRate.SlotsHoldWindow | arduino-nano-iot/wearable-sport/src/heart_rate.cpp:36-40 | After at least four pushes, the slots are a permutation of the last four intervals. |
| HeartRate.AverageOfSlots | arduino-nano-iot/wearable-sport/src/heart_rate.cpp:42-49 | The count used is in 1..4, the sum is positive, and 60000 / (sum / count) is the bpm of the interval window. |
| HeartRateZones.HrZoneIndex | arduino-nano-iot/wearable-sport/src/heart_rate_zones.cpp:27-36 | The zone is in 0..5, and a non-positive bpm is zone 1. |
| HeartRateZones.HrZoneCountsEdges | arduino-nano-iot/wearable-sport/src/heart_rate_zones.cpp:27-36 | The zone is the number of edges 0.5, 0.6, 0.7, 0.8, 0.9 that bpm/200 has reached. |
| HeartRateZones.HrZoneMonotone | arduino-nano-iot/wearable-sport/src/heart_rate_zones.cpp:27-36 | A higher heart rate never gives a lower zone. |
| HeartRateZones.HrZoneExamples | arduino-nano-iot/wearable-sport/src/heart_rate_zones.cpp:12-13 | Examples: 99 bpm gives zone 1, 100 gives zone 2, 140 gives zone 4, and 180 gives zone 6. |
| VelocityZones.VelZoneIndex | arduino-nano-iot/wearable-sport/src/velocity_zones.cpp:25-30 | Exactly one of walk (< 7), trot [7, 15), run [15, 20) and sprint (≥ 20 km/h), each given as an iff. |
| VelocityZones.VelZoneCountsEdges | arduino-nano-iot/wearable-sport/src/velocity_zones.cpp:12 | The zone is the number of bin edges 7, 15, 20 the speed has reached. |
| VelocityZones.VelZoneMonotone | arduino-nano-iot/wearable-sport/src/velocity_zones.cpp:25-30 | A higher speed never gives a lower zone. |
| Thresholds.ReachedMonotone | arduino-nano-iot/wearable-sport/src/heart_rate_zones.cpp:30-35 | Counting reached edges is monotone in the value. |
| Thresholds.ReachedFirst | arduino-nano-iot/wearable-sport/src/velocity_zones.cpp:26-29 | For ascending edges, a value that has reached the first k edges and lies below edge k reaches exactly k edges. |
| Thresholds.ReachedOnlyFirst | arduino-nano-iot/wearable-sport/src/velocity_zones.cpp:26-29 | The converse: for ascending edges, a value reaching k edges has reached each of the first k and lies below edge k, so the count names the first comparison that fails. |
| Thresholds.BelowAllReachesNone | arduino-nano-iot/wearable-sport/src/velocity_zones.cpp:26 | A value below every edge reaches none. |
| GpsProcessing.SpeedSlotsPush | arduino-nano-iot/wearable-sport/src/gps_processing.cpp:30-31 | One sample overwrites the slot at the sample count modulo 5. |
| GpsProcessing.LayoutPush | arduino-nano-iot/wearable-sport/src/gps_processing.cpp:30-32 | Writing at `vidx` and advancing it modulo 5 keeps the ring layout, with the new sample newest. |
| GpsProcessing.SpeedSlotsLayout | arduino-nano-iot/wearable-sport/src/gps_processing.cpp:29-32 | The slots after any sample history have the ring layout, with write index count mod 5. |
| GpsProcessing.SpeedSlotsHoldRecent | arduino-nano-iot/wearable-sport/src/gps_processing.cpp:29-32 | After five samples, the slots are a permutation of the last five. |
| GpsProcessing.SpeedSlotsSum | arduino-nano-iot/wearable-sport/src/gps_processing.cpp:34-37 | The sum over the first `vfilled` slots is the sum of the last up-to-five samples. |
| GpsProcessing.ConstantSpeed | arduino-nano-iot/wearable-sport/src/gps_processing.cpp:29-39 | When every sample in the window is v, the moving average is v. |
| GpsProcessing.SpeedSmoother.constructor | arduino-nano-iot/wearable-sport/src/gps_processing.cpp:19-21 | The buffer is five zeros, `vidx` = `vfilled` = 0, and there is no history. |
| GpsProcessing.SpeedSmoother.MovingAvg | arduino-nano-iot/wearable-sport/src/gps_processing.cpp:29-39 | v is written at `vidx`, `vidx` advances modulo 5, and `vfilled` saturates at 5. The result is the mean of the last up-to-five samples. |
| GpsProcessing.SpeedSmoother.StoreSpeed | arduino-nano-iot/wearable-sport/src/gps_processing.cpp:30-32 | The ring write and index advance, keeping the layout invariant. |
| GpsProcessing.SpeedSmoother.Average | arduino-nano-iot/wearable-sport/src/gps_processing.cpp:34-38 | The summing loop returns the mean of the last up-to-five samples. |
| GpsProcessing.LocalHour | arduino-nano-iot/wearable-sport/src/gps_processing.cpp:48-53 | The local hour is in 0..23 and congruent to utcHour + offset modulo 24. An in-range sum is kept. |
| GpsProcessing.LocalHourExample | arduino-nano-iot/wearable-sport/src/sd_card.cpp:63 | 03 UTC at offset -6 is 21 local. |
| GpsProcessing.WrapLocalHour | arduino-nano-iot/wearable-sport/src/gps_processing.cpp:48-53 | The two while-loops compute `LocalHour`. |
| Metrics.TrimpW | arduino-nano-iot/wearable-sport/src/metrics.cpp:13 | The TRIMP weight of zone z is z + 1. |
| Metrics.SprintStep | arduino-nano-iot/wearable-sport/src/main.cpp:176-186 | Minute and total sprint counts rise together, by at most 1. They rise iff: the speed is at least 20; no sprint is in progress; and this is the second consecutive fast second. A slow second clears the run. |
| Metrics.SprintRunCountsRuns | arduino-nano-iot/wearable-sport/src/main.cpp:176-186 | From rest, over any speed sequence: the hold counter is the current fast run's length; a sprint is in progress iff that run is ≥ 2 s; each fast run of ≥ 2 s is counted exactly once. |
| Metrics.SprintExamples | arduino-nano-iot/wearable-sport/src/main.cpp:176-182 | Examples: two fast seconds count one sprint, and one fast second counts none. Four fast seconds still count one. |
| Metrics.SecondUpdate | arduino-nano-iot/wearable-sport/src/main.cpp:150-186 | The per-second update keeps the four- and six-slot arrays in shape. Its effect is stated by `SecondCountsOnce` and `SecondScalars`. |
| Metrics.SecondCountsOnce | arduino-nano-iot/wearable-sport/src/main.cpp:150-170 | Each second adds exactly one second to the speed zones and one to the heart zones, and only the current zones change. The distance added is v/3.6, the same for the zone, the minute and the total. The peak speed is at least v. |
| Metrics.SecondScalars | arduino-nano-iot/wearable-sport/src/main.cpp:154-173 | TRIMP grows by weight/60 and the minute distance by v/3.6. The bpm sum and count grow only for a positive bpm. |
| Metrics.SteadyMinute | arduino-nano-iot/wearable-sport/src/main.cpp:172-194 | Sixty identical seconds from a fresh minute give TRIMP equal to the zone weight and a mean speed of v. The mean bpm is bpm when it is positive, else 0. |
| Metrics.SteadyTrimp | arduino-nano-iot/wearable-sport/src/main.cpp:173 | n steady seconds add n × weight/60 to TRIMP. |
| Metrics.SteadyDistance | arduino-nano-iot/wearable-sport/src/main.cpp:154-156 | n steady seconds add n × v/3.6 metres to the minute distance. |
| Metrics.SteadyBpm | arduino-nano-iot/wearable-sport/src/main.cpp:167-170 | n steady seconds add n × bpm and n samples when bpm > 0, and nothing otherwise. |
| Metrics.BpmMean | arduino-nano-iot/wearable-sport/src/main.cpp:193 | With no counted seconds the mean heart rate is 0. |
| Metrics.Fresh | arduino-nano-iot/wearable-sport/src/metrics.cpp:18-27 | A fresh minute has its arrays in shape. |
| Metrics.ResetMinute | arduino-nano-iot/wearable-sport/src/sd_card.cpp:129-145 | The reset gives a fresh minute that keeps the total distance, the last speed and the total sprints. |
| Metrics.ResetIsIdempotent | arduino-nano-iot/wearable-sport/src/sd_card.cpp:129-145 | After a reset the sprint debouncer is at rest, and resetting again changes nothing. |
| Metrics.SprintRecountedAcrossReset | arduino-nano-iot/wearable-sport/src/sd_card.cpp:143-144 | A sprint spanning the minute boundary is not recounted without a reset, but is counted again after the reset and two more fast seconds. |
| Metrics.MinuteAggregator.constructor | arduino-nano-iot/wearable-sport/src/metrics.cpp:18-27 | All accumulators start as a fresh minute with zero totals. |
| Metrics.MinuteAggregator.SecondTick | arduino-nano-iot/wearable-sport/src/main.cpp:150-186 | The accumulator fields and arrays become `SecondUpdate` of the old ones. |
| Metrics.MinuteAggregator.SpeedTick | arduino-nano-iot/wearable-sport/src/main.cpp:150-161 | The speed part of the second: last and peak speed, distances, and the zone's time and distance. |
| Metrics.MinuteAggregator.HeartTick | arduino-nano-iot/wearable-sport/src/main.cpp:164-173 | The heart part of the second: the zone's time, the bpm sum and count, and TRIMP. |
| Metrics.MinuteAggregator.SprintTick | arduino-nano-iot/wearable-sport/src/main.cpp:176-186 | The sprint fields become `SprintStep` of the old ones; the rest is unchanged. |
| Metrics.MinuteAggregator.ResetMinuteAccumulators | arduino-nano-iot/wearable-sport/src/sd_card.cpp:129-145 | The zeroing loops and assignments leave exactly `ResetMinute` of the old state. |
| SdCard.HeaderLayout | arduino-nano-iot/wearable-sport/src/sd_card.cpp:29-33 | The header has 23 plain names, Timestamp first and Sprints_Total last. It has 22 commas and splits back into the names. |
| SdCard.Pad2 | arduino-nano-iot/wearable-sport/src/sd_card.cpp:56-57 | A value below 100 prints as exactly two digits. |
| SdCard.Pad2RoundTrip | arduino-nano-iot/wearable-sport/src/sd_card.cpp:56-60 | The two padded digits read back as the value. |
| SdCard.Timestamp | arduino-nano-iot/wearable-sport/src/sd_card.cpp:52-74 | The timestamp never contains a comma, with or without a GPS date. |
| SdCard.DateLayout | arduino-nano-iot/wearable-sport/src/sd_card.cpp:54-60 | The date is `YYYY-MM-DD`: 10 characters, dashes at 4 and 7, and the digits read back as year, month and day. |
| SdCard.ClockLayout | arduino-nano-iot/wearable-sport/src/sd_card.cpp:63-71 | The time is `hh:mm:ss`: 8 characters, colons at 2 and 5, and the digits read back as hour, minute and second. |
| SdCard.TimestampLayout | arduino-nano-iot/wearable-sport/src/sd_card.cpp:53-71 | With a GPS date, the timestamp is 19 characters: the date, a space, and the time at the local hour (UTC - 6). |
| SdCard.Trunc | arduino-nano-iot/wearable-sport/src/sd_card.cpp:95 | The C cast to int truncates toward zero. |
| SdCard.ZoneFields | arduino-nano-iot/wearable-sport/src/sd_card.cpp:94-109 | One plain field per slot, each the truncated slot printed as an integer. |
| SdCard.HeadFields | arduino-nano-iot/wearable-sport/src/sd_card.cpp:52-91 | Six fields, the timestamp first, all plain when the timestamp is. |
| SdCard.TailFields | arduino-nano-iot/wearable-sport/src/sd_card.cpp:113-117 | Three plain fields: TRIMP and the two sprint counts. |
| SdCard.RecordFields | arduino-nano-iot/wearable-sport/src/sd_card.cpp:52-117 | A record has 23 fields, the timestamp first. |
| SdCard.RecordFieldsPlain | arduino-nano-iot/wearable-sport/src/sd_card.cpp:52-117 | No field of a record contains a comma. |
| SdCard.RecordLayout | arduino-nano-iot/wearable-sport/src/sd_card.cpp:52-117 | A record has as many fields as the header, 22 commas, and splits back into its fields, the timestamp first. |
| SdCard.Created | arduino-nano-iot/wearable-sport/src/sd_card.cpp:24-40 | The file exists afterwards iff it existed or it opened. A newly created file holds exactly the header line. An existing file, or a failed open, is left as it was. |
| SdCard.CreateIsIdempotent | arduino-nano-iot/wearable-sport/src/sd_card.cpp:24-25 | Once the file exists, creating it again changes nothing. |
| SdCard.Saved | arduino-nano-iot/wearable-sport/src/sd_card.cpp:48-124 | A successful open appends the line to the content, and a failed open leaves the file unchanged. |
| SdCard.SavedKeepsHeader | arduino-nano-iot/wearable-sport/src/sd_card.cpp:48-124 | Saving only appends, so the header stays at the front of the file. |
| SdCard.CsvFile.CreateCsv | arduino-nano-iot/wearable-sport/src/sd_card.cpp:24-40 | The file becomes `Created` of its old state. |
| SdCard.CsvFile.SaveRecord | arduino-nano-iot/wearable-sport/src/sd_card.cpp:48-124 | The file becomes `Saved` of its old state with the minute's `RecordLine`. |
| SdCard.PrintRecord | arduino-nano-iot/wearable-sport/src/sd_card.cpp:52-117 | The printed text is the record's fields joined by commas, followed by CR LF. |
| SdCard.PrintHead | arduino-nano-iot/wearable-sport/src/sd_card.cpp:52-91 | The first six fields are printed, each followed by a comma. |
| SdCard.PrintZones | arduino-nano-iot/wearable-sport/src/sd_card.cpp:93-103 | The zone loop prints each truncated slot followed by a comma. |
| SdCard.PrintHrZones | arduino-nano-iot/wearable-sport/src/sd_card.cpp:105-109 | The heart-zone loop prints the six slots separated by commas, with no trailing comma. |
| Csv.JoinCommas | arduino-nano-iot/wearable-sport/src/sd_card.cpp:94-117 | A line of n plain fields holds n - 1 commas. |
| Csv.SplitJoin | arduino-nano-iot/wearable-sport/src/sd_card.cpp:94-117 | Splitting a line of plain fields at its commas gives the fields back. |
| Decimal.NatToString | arduino-nano-iot/wearable-sport/src/sd_card.cpp:115 | Base-ten digits with no leading zero; one digit iff n < 10. |
| Decimal.NatToStringRoundTrip | arduino-nano-iot/wearable-sport/src/sd_card.cpp:73 | The printed digits read back as the number. |
| Decimal.IntToString | arduino-nano-iot/wearable-sport/src/sd_card.cpp:95 | The printed integer reads back: it starts with a minus sign exactly when the value is negative, and the digits (after the sign, if any) read back as its magnitude. |
| Decimal.FloatToString | arduino-nano-iot/wearable-sport/src/sd_card.cpp:78 | The printed float uses only digits, a sign, a point, or "ovf", and is never empty. |
| Pid.Clamp | atmega328_p/PID_INCUBADORA/src/PID.cpp:64-71 | The limit chain gives a result within [lo, hi], and a value already in range is unchanged. Above hi it gives hi, and below lo it gives lo. |
| Pid.ClampIdempotent | atmega328_p/PID_INCUBADORA/src/PID.cpp:82-89 | Clamping twice is clamping once. |
| Pid.ClampMonotone | atmega328_p/PID_INCUBADORA/src/PID.cpp:82-89 | Clamping keeps order. |
| Pid.Step | atmega328_p/PID_INCUBADORA/src/PID.cpp:52-97 | After an update: the integrator is within [limMinInt, limMaxInt]; the output is within [limMin, limMax]; prevError = setpoint - measurement; prevMeasurement = measurement. |
| Pid.IntegratorIsTrapezoid | atmega328_p/PID_INCUBADORA/src/PID.cpp:61-71 | Within the limits, the integrator grows by 0.5·Ki·T·(error + previous error); otherwise it sits on the limit it crossed. |
| Pid.DerivativeIgnoresSetpoint | atmega328_p/PID_INCUBADORA/src/PID.cpp:74-76 | The derivative is taken on the measurement, so changing the setpoint does not change it. |
| Pid.DerivativeDecays | atmega328_p/PID_INCUBADORA/src/PID.cpp:74-76 | With tau, T > 0 and a still measurement, the derivative satisfies d·(2tau+T) = -(2tau-T)·d_prev, so its magnitude strictly shrinks. |
| Pid.UnsaturatedOutputIsSum | atmega328_p/PID_INCUBADORA/src/PID.cpp:79-89 | When the PID sum is within the output limits, the output is Kp·error + integrator + derivative. |
| Pid.RestIsFixedPoint | atmega328_p/PID_INCUBADORA/src/PID.cpp:52-97 | With zero error, a still measurement, and an empty integrator and derivative, an update changes nothing. |
| Pid.PIDController.constructor | atmega328_p/PID_INCUBADORA/src/PID.cpp:23-39 | The gains, tau, limits and T are stored, and the five memory fields start at 0. |
| Pid.PIDController.Reset | atmega328_p/PID_INCUBADORA/src/PID.cpp:42-49 | The five memory fields are zeroed. Only those fields are in the frame, so the configuration is kept. |
| Pid.PIDController.Update | atmega328_p/PID_INCUBADORA/src/PID.cpp:52-97 | The memory becomes `Step` of the old memory, and the returned value is the stored output. Only memory fields are in the frame. |
| Pid.PIDController.Integrate | atmega328_p/PID_INCUBADORA/src/PID.cpp:61-71 | The integrator takes the trapezoid step and is then clamped to its limits. |
| Pid.PIDController.Differentiate | atmega328_p/PID_INCUBADORA/src/PID.cpp:74-76 | The differentiator takes the band-limited derivative of the measurement. |
| Pid.PIDController.Saturate | atmega328_p/PID_INCUBADORA/src/PID.cpp:79-89 | The output is the PID sum clamped to the output limits. |
| Pid.PIDController.UpdateGains | atmega328_p/PID_INCUBADORA/src/PID.cpp:100-105 | `getGains` then returns the new gains, and the rest of the configuration is unchanged. |
| Pid.PIDController.GetKp | atmega328_p/PID_INCUBADORA/src/PID.cpp:108-111 | `getKp` agrees with the kp of `getGains`. |
| Pid.PIDController.GetKi | atmega328_p/PID_INCUBADORA/src/PID.cpp:113-116 | `getKi` agrees with the ki of `getGains`. |
| Pid.PIDController.GetKd | atmega328_p/PID_INCUBADORA/src/PID.cpp:118-121 | `getKd` agrees with the kd of `getGains`. |
| Incubator.LeadingDigits | atmega328_p/PID_INCUBADORA/src/main.cpp:162 | Gives the maximal run of digits at the front of the text: all digits, followed by a non-digit or the end. |
| Incubator.FractionValue | atmega328_p/PID_INCUBADORA/src/main.cpp:162 | The digits after the point give a fraction in [0, 1). |
| Incubator.ToFloat | atmega328_p/PID_INCUBADORA/src/main.cpp:162 | The value read is non-negative, and its integer part is the value of the leading digits. |
| Incubator.ParseValue | atmega328_p/PID_INCUBADORA/src/main.cpp:157-170 | A number is returned iff the command is longer than one character and its second character is a digit. The number is never negative. |
| Incubator.ParseValueRoundTrip | atmega328_p/PID_INCUBADORA/src/main.cpp:157-170 | A letter followed by the digits of n reads back as n. |
| Incubator.ParseValueTenths | atmega328_p/PID_INCUBADORA/src/main.cpp:162 | A letter, the digits of n, a point and a digit d read back as n + d/10. |
| Incubator.ParseValueRejects | atmega328_p/PID_INCUBADORA/src/main.cpp:160-168 | "P-5", "S.5" and "P" carry no number. |
| Incubator.Applied | atmega328_p/PID_INCUBADORA/src/main.cpp:173-206 | KP, KI, KD or the setpoint changes only through its own leading letter followed by a number, and to that number. A command with a number always sets its parameter and nothing else. |
| Incubator.UnknownCommandChangesNothing | atmega328_p/PID_INCUBADORA/src/main.cpp:199-202 | An unrecognised letter, an empty line, or a missing number leaves all four parameters unchanged. |
| Incubator.AppliedIdempotent | atmega328_p/PID_INCUBADORA/src/main.cpp:173-198 | Repeating a command has the effect of sending it once. |
| Incubator.OnCycles | atmega328_p/PID_INCUBADORA/src/main.cpp:126 | The byte cast of an output in [0, 120] keeps its integer part, which is at most 120. |
| Incubator.ZeroCrossStep | atmega328_p/PID_INCUBADORA/src/main.cpp:140-146 | The counter becomes (count + 1) mod 120, and the pin is HIGH iff the new count is below the ON half-cycles. |
| Incubator.HalfCyclesFiredPerPeriod | atmega328_p/PID_INCUBADORA/src/main.cpp:140-146 | Over any 120 consecutive zero-cross steps with on ≤ 120, the relay fires exactly `on` times. |
| Incubator.Controller.constructor | atmega328_p/PID_INCUBADORA/src/main.cpp:30-61 | KP = 15, KI = 0.25, KD = 0.005, setpoint = 37, and temp, ciclosOn and contCiclos are 0. The relay is LOW and the controller is built from the constants with cleared memory. |
| Incubator.Controller.ParseCommand | atmega328_p/PID_INCUBADORA/src/main.cpp:173-206 | The parameters become `Applied` of the old ones. The controller's gains are then KP, KI, KD for every command, and its memory is untouched. |
| Incubator.Controller.Sense | atmega328_p/PID_INCUBADORA/src/main.cpp:111-132 | A failed reading counts as 0 °C. The PID memory advances by `Step` towards the setpoint. ciclosOn is the truncated output and stays in [0, 120]. |
| Incubator.Controller.ZeroCross | atmega328_p/PID_INCUBADORA/src/main.cpp:135-147 | The counter and the relay level become `ZeroCrossStep` of the old counter, and the counter stays below 120. |
| Incubator.Controller.Loop | atmega328_p/PID_INCUBADORA/src/main.cpp:100-148 | A received line is applied to the parameters and the gains are reloaded. With the sensing flag, temp is the reading (0 on failure), the PID memory advances by `Step` with the new gains, and ciclosOn is the truncated output; without it, temp, ciclosOn and the PID memory are unchanged. The zero-cross flag advances the counter modulo 120 and sets the relay from it; without it the relay level is unchanged. |
| Commutation.Rotate | atmega328_p/IGBT_inverter/src/main.cpp:103 | A commutation leaves only bits 0-5 set. |
| Commutation.RotateMovesBits | IGBT_inverter/src/main.cpp:79 | Each bit moves up one place, bit 5 wraps to bit 0, and bits 6 and 7 are clear. |
| Commutation.RotateKeepsOnes | atmega328_p/IGBT_inverter/src/main.cpp:103 | A commutation turns on as many switches as before. |
| Commutation.SixRotationsAreIdentity | IGBT_inverter/src/main.cpp:76-83 | Six commutations return the register to its value. |
| Commutation.ComplementaryHasThreeOn | atmega328_p/IGBT_inverter/src/main.cpp:52-57 | When each phase leg has one switch on, exactly three switches are on. |
| Commutation.RotateKeepsComplementary | IGBT_inverter/src/main.cpp:46-47 | A commutation keeps the pairs IGBT1/4, 3/6 and 5/2 complementary. |
| Commutation.NeverShootsThrough | atmega328_p/IGBT_inverter/src/main.cpp:38 | From the power-up register 0b000111, after any number of commutations, no leg conducts on both switches and exactly three switches are on. |
| Inverter.Driver.constructor | atmega328_p/IGBT_inverter/src/main.cpp:38-60 | The register starts at 0b000111 with complementary legs, and the port starts LOW. |
| Inverter.Driver.NextCommutation | atmega328_p/IGBT_inverter/src/main.cpp:99-107 | The register is rotated and PORTB receives exactly the new register. Exactly three switches are on, and the legs stay complementary. |

The older copy of the inverter program (IGBT_inverter/src/main.cpp:76-83) has the same register update and port write. The same `Commutation` and `Inverter` members model it.

## Left out

- Floating point: every `float` is a `real`. Single-precision rounding, infinities and NaN are not modelled. The exceptions are the explicit `isnan` tests, which become `Option` values.
- Hardware input and timing become parameters: `micros()`, `millis()`, `analogRead`, the DHT sensor, the GPS receiver, `SD.begin` and the result of opening the file.
  - Each block reads the clock once. The source calls `millis()` again at main.cpp:141, 189 and in the record's fallback timestamp.
- TinyGPSPlus is not part of this model. The GPS speed and date/time are optional inputs.
- Serial output and diagnostics are not modelled. This covers:
  - the bpm prints and the once-a-second bpm reminder (wearable main.cpp:108-109, 122-131);
  - the minute summary print (196-245) and the periodic GPS report (255 onwards);
  - the incubator's error messages and `printGains`.
- The wearable `loop()` is not composed into one method. Its blocks are `EcgTask` and `SecondTask`, which contains the minute block. A caller runs them in that order.
- Interrupts, `volatile` flags, Timer1, `attachInterrupt` and the SSR/port writes of the incubator are not modelled. `Controller.Loop` takes the serial line and both flags as inputs.
- The inverter's `delayMicroseconds`, `delay`, DDRB set-up and debug printing are not modelled.
- `Print::print` of the Arduino core is not part of this model's sources.
  - `FloatToString` follows the core's algorithm for finite values.
  - `NatToString` and `IntToString` follow its integer printing.
- HeaderText is defined as the comma join of the 23 column names. That is how the literal in sd_card.cpp:29-33 is laid out; the model does not compare the two character by character.
- Incubator.ToFloat: the exponent forms that `toFloat` also accepts ("1e3") are not modelled. Reading stops at the first character that is neither a digit nor the point after the leading digits.
- Incubator.Controller: `ciclosOn` and `contCiclos` are naturals bounded by the class invariant (at most 120, below 120), not 8-bit values.
  - The increment is written modulo 256, as the byte would wrap.
  - The bound is what keeps that wrap from happening.
- Pid.Step: requires 2·tau + T ≠ 0, which the source divides by without a check. With the incubator's constants it is 1.5.
- HeartRate.HeartRateMonitor.PushRR: requires a positive interval below 2^32. Its only caller passes intervals in [300, 2000].
- Metrics and the wearable counters (`bpmSecCount`, sprint counts) are unbounded integers; `int` overflow is not modelled.
