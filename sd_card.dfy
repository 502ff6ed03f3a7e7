/**
 * The SD-card log of the wearable: the CSV file created with its header
 * line when absent, and the one record line appended at the end of every
 * minute, printed field by field in the header's column order.
 */
module SdCard {
  import opened Clock
  import opened Optional
  import opened Decimal
  import opened Csv
  import opened Metrics
  import GpsProcessing
  import opened VelocityZones
  import opened HeartRateZones

  /** The time-zone offset applied to the GPS hour (hours). */
  const UtcOffsetH: int := -6

  /** The line end `println` writes. */
  const Crlf: string := "\r\n"

  /** The column names, in the order the record prints them. */
  const HeaderFields: seq<string> := [
    "Timestamp", "Dist_m", "Dist_Total_km", "Vel_Prom_kmh", "Vel_Max_kmh",
    "BPM_Prom", "Seg_CAM", "Seg_TRO", "Seg_CAR", "Seg_SPR",
    "Dist_CAM_m", "Dist_TRO_m", "Dist_CAR_m", "Dist_SPR_m",
    "Seg_HZ1", "Seg_HZ2", "Seg_HZ3", "Seg_HZ4", "Seg_HZ5", "Seg_HZ6",
    "TRIMP", "Sprints_Min", "Sprints_Total"]

  /** The header line: the column names separated by commas. */
  const HeaderText: string := Join(HeaderFields)

  /** Number of columns. */
  const Columns: nat := 23

  /**
   * The header holds 23 plain column names, Timestamp first and
   * Sprints_Total last; it has 22 commas and splitting it at them gives the
   * names back.
   */
  lemma HeaderLayout()
    ensures |HeaderFields| == Columns && AllPlain(HeaderFields)
    ensures HeaderFields[0] == "Timestamp" && HeaderFields[Columns - 1] == "Sprints_Total"
    ensures Split(HeaderText) == HeaderFields && Commas(HeaderText) == Columns - 1
  {
    assert AllPlain(HeaderFields);
    SplitJoin(HeaderFields);
    JoinCommas(HeaderFields);
  }

  /** Printed numbers hold no comma. */
  lemma NumberTextIsPlain(s: string)
    requires NumberText(s)
    ensures Plain(s)
  {
  }

  /** A GPS date and UTC time. */
  datatype DateTime = DateTime(year: nat, month: nat, day: nat, hour: nat, minute: nat, second: nat)

  /** A number below 100 in two digits: a '0' is printed first when it is below ten. */
  function Pad2(n: nat): (s: string)
    ensures AllDigits(s)
    ensures n < 100 ==> |s| == 2
  {
    (if n < 10 then "0" else "") + NatToString(n)
  }

  /** The two digits read back give the number. */
  lemma Pad2RoundTrip(n: nat)
    requires n < 100
    ensures DigitsValue(Pad2(n)) == n
  {
    NatToStringRoundTrip(n);
    var s := Pad2(n);
    if n < 10 {
      assert s[..1] == "0" && s[1..] == NatToString(n);
      assert DigitsValue(s[..1]) == 0;
    }
  }

  /** A year from 1000 to 9999 prints in four digits. */
  lemma YearDigits(y: nat)
    requires 1000 <= y <= 9999
    ensures |NatToString(y)| == 4
  {
    assert y / 10 / 10 / 10 < 10;
  }

  /** The date as "year-MM-DD". */
  function DatePart(d: DateTime): string {
    NatToString(d.year) + "-" + Pad2(d.month) + "-" + Pad2(d.day)
  }

  /** A time of day as "hh:mm:ss". */
  function ClockPart(h: nat, mi: nat, se: nat): string {
    Pad2(h) + ":" + Pad2(mi) + ":" + Pad2(se)
  }

  /**
   * The timestamp column: with a valid GPS date and time, the date, a
   * space and the time with the hour shifted to local time; otherwise the
   * uptime in whole seconds.
   */
  function Timestamp(dt: Option<DateTime>, nowMs: u32): (s: string)
    ensures Plain(s)
  {
    match dt
    case Some(d) =>
      DatePart(d) + " " + ClockPart(GpsProcessing.LocalHour(d.hour, UtcOffsetH), d.minute, d.second)
    case None =>
      NatToString(nowMs / 1000)
  }

  /** A four-digit year gives a ten-character date whose groups read back as year, month and day. */
  lemma DateLayout(d: DateTime)
    requires 1000 <= d.year <= 9999 && d.month < 100 && d.day < 100
    ensures var s := DatePart(d);
      && |s| == 10 && s[4] == '-' && s[7] == '-'
      && AllDigits(s[..4]) && AllDigits(s[5..7]) && AllDigits(s[8..10])
      && DigitsValue(s[..4]) == d.year
      && DigitsValue(s[5..7]) == d.month && DigitsValue(s[8..10]) == d.day
  {
    var y, mo, da := NatToString(d.year), Pad2(d.month), Pad2(d.day);
    YearDigits(d.year);
    var s := DatePart(d);
    assert s[..4] == y && s[5..7] == mo && s[8..10] == da;
    NatToStringRoundTrip(d.year);
    Pad2RoundTrip(d.month);
    Pad2RoundTrip(d.day);
  }

  /** Two-digit fields give an eight-character time whose groups read back as its parts. */
  lemma ClockLayout(h: nat, mi: nat, se: nat)
    requires h < 100 && mi < 100 && se < 100
    ensures var c := ClockPart(h, mi, se);
      && |c| == 8 && c[2] == ':' && c[5] == ':'
      && AllDigits(c[..2]) && AllDigits(c[3..5]) && AllDigits(c[6..8])
      && DigitsValue(c[..2]) == h && DigitsValue(c[3..5]) == mi && DigitsValue(c[6..8]) == se
  {
    var c := ClockPart(h, mi, se);
    assert c[..2] == Pad2(h) && c[3..5] == Pad2(mi) && c[6..8] == Pad2(se);
    Pad2RoundTrip(h);
    Pad2RoundTrip(mi);
    Pad2RoundTrip(se);
  }

  /**
   * With a four-digit year the timestamp is "YYYY-MM-DD hh:mm:ss": 19
   * characters, the date first, then a space, then the local time.
   */
  lemma TimestampLayout(d: DateTime, nowMs: u32)
    requires 1000 <= d.year <= 9999 && d.month < 100 && d.day < 100 && d.minute < 100 && d.second < 100
    ensures var s := Timestamp(Some(d), nowMs);
      && |s| == 19 && s[..10] == DatePart(d) && s[10] == ' '
      && s[11..] == ClockPart(GpsProcessing.LocalHour(d.hour, UtcOffsetH), d.minute, d.second)
  {
    DateLayout(d);
    ClockLayout(GpsProcessing.LocalHour(d.hour, UtcOffsetH), d.minute, d.second);
  }

  /** The C cast of a float to an integer: the integer part, truncated towards zero. */
  function Trunc(x: real): (i: int)
    ensures x >= 0.0 ==> i as real <= x < i as real + 1.0
    ensures x < 0.0 ==> i as real - 1.0 < x <= i as real
  {
    if x >= 0.0 then x.Floor else -((-x).Floor)
  }

  /** The zone columns: each slot written as its truncated integer. */
  function ZoneFields(s: seq<real>): (fs: seq<string>)
    ensures |fs| == |s| && AllPlain(fs)
    ensures forall i :: 0 <= i < |s| ==> fs[i] == IntToString(Trunc(s[i]))
  {
    seq(|s|, i requires 0 <= i < |s| => IntToString(Trunc(s[i])))
  }

  /** The first six columns: timestamp, distances, speeds and mean BPM. */
  function HeadFields(ts: string, m: Minute, bpmMean: real, vMean: real): (fs: seq<string>)
    ensures |fs| == 6 && fs[0] == ts
    ensures Plain(ts) ==> AllPlain(fs)
  {
    var fs := [ts, FloatToString(m.distMinute, 1), FloatToString(m.distTotal / 1000.0, 3),
               FloatToString(vMean, 1), FloatToString(m.vMax, 1), FloatToString(bpmMean, 1)];
    forall i | 1 <= i < 6 ensures Plain(fs[i]) {
      NumberTextIsPlain(fs[i]);
    }
    fs
  }

  /** The last three columns: TRIMP and the two sprint counts. */
  function TailFields(m: Minute): (fs: seq<string>)
    ensures |fs| == 3 && AllPlain(fs)
  {
    var fs := [FloatToString(m.trimp, 2), IntToString(m.sprint.minute), IntToString(m.sprint.total)];
    NumberTextIsPlain(fs[0]);
    fs
  }

  /**
   * The 23 columns of a minute's record: the timestamp, the minute and
   * total distance (m with one decimal, km with three), the mean and peak
   * speed and the mean BPM (one decimal), the seconds and the metres of
   * each velocity zone and the seconds of each heart-rate zone (truncated
   * to integers), TRIMP (two decimals) and the two sprint counts.
   */
  function RecordFields(ts: string, m: Minute, bpmMean: real, vMean: real): (fs: seq<string>)
    requires Shaped(m)
    ensures |fs| == Columns && fs[0] == ts
  {
    HeadFields(ts, m, bpmMean, vMean) + ZoneFields(m.secInVZ) + ZoneFields(m.distInVZ)
    + ZoneFields(m.secInHZ) + TailFields(m)
  }

  /** A record whose timestamp holds no comma has no comma inside any column. */
  lemma RecordFieldsPlain(ts: string, m: Minute, bpmMean: real, vMean: real)
    requires Shaped(m) && Plain(ts)
    ensures AllPlain(RecordFields(ts, m, bpmMean, vMean))
  {
    var h, z1, z2, z3 := HeadFields(ts, m, bpmMean, vMean), ZoneFields(m.secInVZ), ZoneFields(m.distInVZ), ZoneFields(m.secInHZ);
    AllPlainAppend(h, z1);
    AllPlainAppend(h + z1, z2);
    AllPlainAppend(h + z1 + z2, z3);
    AllPlainAppend(h + z1 + z2 + z3, TailFields(m));
  }

  /** The record line: the columns joined by commas, then the line end. */
  function RecordLine(ts: string, m: Minute, bpmMean: real, vMean: real): string
    requires Shaped(m)
  {
    Join(RecordFields(ts, m, bpmMean, vMean)) + Crlf
  }

  /**
   * A record has as many columns as the header, Timestamp first; it has 22
   * commas, and splitting it at them gives back its columns in order.
   */
  lemma RecordLayout(dt: Option<DateTime>, nowMs: u32, m: Minute, bpmMean: real, vMean: real)
    requires Shaped(m)
    ensures var fs := RecordFields(Timestamp(dt, nowMs), m, bpmMean, vMean);
      && |fs| == |HeaderFields|
      && Commas(Join(fs)) == Columns - 1
      && Split(Join(fs)) == fs && fs[0] == Timestamp(dt, nowMs)
  {
    var fs := RecordFields(Timestamp(dt, nowMs), m, bpmMean, vMean);
    RecordFieldsPlain(Timestamp(dt, nowMs), m, bpmMean, vMean);
    JoinCommas(fs);
    SplitJoin(fs);
  }

  /** The card's copy of the log file: whether it exists, and its text. */
  datatype FileState = FileState(present: bool, content: string)

  /**
   * `crearArchivoCSV`: when the file does not exist and can be opened for
   * writing, it is created holding the header line; otherwise nothing
   * changes.
   */
  function Created(f: FileState, openOk: bool): (r: FileState)
    ensures r.present <==> f.present || openOk
    ensures f.present || !openOk ==> r == f
    ensures !f.present && r.present ==> r.content == HeaderText + Crlf
  {
    if !f.present && openOk then FileState(true, HeaderText + Crlf) else f
  }

  /** Creating the file twice is creating it once. */
  lemma CreateIsIdempotent(f: FileState, ok1: bool, ok2: bool)
    requires ok1 || f.present
    ensures Created(Created(f, ok1), ok2) == Created(f, ok1)
  {
  }

  /**
   * `guardarDatosCSV` on the file: opening for writing creates a missing
   * file and appends at its end, so when the open succeeds the line is
   * appended; otherwise nothing changes.
   */
  function Saved(f: FileState, openOk: bool, line: string): (r: FileState)
    ensures r.present <==> f.present || openOk
    ensures openOk ==> r.content == f.content + line
    ensures !openOk ==> r == f
  {
    if openOk then FileState(true, f.content + line) else f
  }

  /**
   * Saving only appends: what the file held stays its beginning, so a file
   * that starts with the header keeps starting with it.
   */
  lemma SavedKeepsHeader(f: FileState, openOk: bool, line: string)
    requires HeaderText + Crlf <= f.content
    ensures f.content <= Saved(f, openOk, line).content
    ensures HeaderText + Crlf <= Saved(f, openOk, line).content
  {
  }

  /** The SD card's log file. */
  class CsvFile {
    var present: bool
    var content: string

    function State(): FileState
      reads this
    {
      FileState(present, content)
    }

    /** The card as found at start-up. */
    constructor (present0: bool, content0: string)
      ensures State() == FileState(present0, content0)
    {
      present, content := present0, content0;
    }

    /** `crearArchivoCSV`, with `openOk` the outcome of opening the file for writing. */
    method CreateCsv(openOk: bool)
      modifies this
      ensures State() == Created(old(State()), openOk)
    {
      if !present {
        if openOk {
          present := true;
          content := HeaderText + Crlf;
        }
      }
    }

    /**
     * `guardarDatosCSV`, with `openOk` the outcome of opening the file, `m`
     * the minute's accumulators, `dt` the GPS date and time when both are
     * valid and `nowMs` the uptime: when the file opens, the record line is
     * appended to it; otherwise nothing is written.
     */
    method SaveRecord(openOk: bool, m: Minute, bpmMean: real, vMean: real, dt: Option<DateTime>, nowMs: u32)
      requires Shaped(m)
      modifies this
      ensures State() == Saved(old(State()), openOk, RecordLine(Timestamp(dt, nowMs), m, bpmMean, vMean))
    {
      if openOk {
        var out := PrintRecord(Timestamp(dt, nowMs), m, bpmMean, vMean);
        content := content + out;
        present := true;
      }
    }
  }

  /**
   * The text the record prints to the open file after the timestamp `ts`
   * is formatted: the head columns, the
   * velocity-zone seconds and metres each followed by a comma, the
   * heart-rate-zone seconds separated by commas, a comma, and the tail
   * columns separated by commas, ended by the line end.
   */
  method PrintRecord(ts: string, m: Minute, bpmMean: real, vMean: real) returns (out: string)
    requires Shaped(m)
    ensures out == RecordLine(ts, m, bpmMean, vMean)
  {
    var head := PrintHead(ts, m, bpmMean, vMean);
    var sec := PrintZones(m.secInVZ);
    var dist := PrintZones(m.distInVZ);
    var hr := PrintHrZones(m.secInHZ);
    var trimp, spMin, spTotal := FloatToString(m.trimp, 2), IntToString(m.sprint.minute), IntToString(m.sprint.total);
    out := head + sec + dist + hr + ",";
    out := out + trimp + ",";
    out := out + spMin + ",";
    out := out + spTotal + Crlf;
    PrintedPartsJoin(HeadFields(ts, m, bpmMean, vMean), ZoneFields(m.secInVZ), ZoneFields(m.distInVZ),
                     ZoneFields(m.secInHZ), trimp, spMin, spTotal, head, sec, dist, hr);
  }

  /** The six head columns, each followed by a comma. */
  method PrintHead(ts: string, m: Minute, bpmMean: real, vMean: real) returns (out: string)
    ensures out == Terminated(HeadFields(ts, m, bpmMean, vMean))
  {
    ghost var done: seq<string> := [];
    out := "";
    TerminatedSnoc(done, ts);
    out, done := out + ts + ",", done + [ts];
    TerminatedSnoc(done, FloatToString(m.distMinute, 1));
    out, done := out + FloatToString(m.distMinute, 1) + ",", done + [FloatToString(m.distMinute, 1)];
    TerminatedSnoc(done, FloatToString(m.distTotal / 1000.0, 3));
    out, done := out + FloatToString(m.distTotal / 1000.0, 3) + ",", done + [FloatToString(m.distTotal / 1000.0, 3)];
    TerminatedSnoc(done, FloatToString(vMean, 1));
    out, done := out + FloatToString(vMean, 1) + ",", done + [FloatToString(vMean, 1)];
    TerminatedSnoc(done, FloatToString(m.vMax, 1));
    out, done := out + FloatToString(m.vMax, 1) + ",", done + [FloatToString(m.vMax, 1)];
    TerminatedSnoc(done, FloatToString(bpmMean, 1));
    out, done := out + FloatToString(bpmMean, 1) + ",", done + [FloatToString(bpmMean, 1)];
    assert done == HeadFields(ts, m, bpmMean, vMean);
  }

  /** A velocity-zone run: each slot truncated to an integer and followed by a comma. */
  method PrintZones(s: seq<real>) returns (out: string)
    requires |s| == VelZones
    ensures out == Terminated(ZoneFields(s))
  {
    ghost var fs := ZoneFields(s);
    out := "";
    for i := 0 to VelZones
      invariant out == Terminated(fs[..i])
    {
      assert fs[..i + 1][..i] == fs[..i];
      out := out + IntToString(Trunc(s[i])) + ",";
    }
    assert fs[..VelZones] == fs;
  }

  /** The heart-rate-zone run: each slot truncated to an integer, a comma after all but the last. */
  method PrintHrZones(s: seq<real>) returns (out: string)
    requires |s| == HrZones
    ensures out == Join(ZoneFields(s))
  {
    ghost var fs := ZoneFields(s);
    out := "";
    for i := 0 to HrZones
      invariant i < HrZones ==> out == Terminated(fs[..i])
      invariant i == HrZones ==> out == Terminated(fs[..HrZones - 1]) + fs[HrZones - 1]
    {
      assert fs[..i + 1][..i] == fs[..i];
      out := out + IntToString(Trunc(s[i]));
      if i < HrZones - 1 {
        out := out + ",";
      }
    }
    TerminatedThenLast(fs);
  }
}
