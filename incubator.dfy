/**
 * The incubator controller: serial commands that retune the PID gains and
 * the setpoint, a sensing step that feeds the temperature to the PID and
 * turns its output into a number of ON half-cycles, and a zero-cross step
 * that fires the solid-state relay for that many of every 120 half-cycles.
 */
module Incubator {
  import opened Optional
  import opened Decimal
  import opened Pid

  /** Half-cycles in one burst-firing period. */
  const MaxHalfCycles: nat := 120

  const InitialKp: real := 15.0
  const InitialKi: real := 0.25
  const InitialKd: real := 0.005
  const Tau: real := 0.25
  const TSample: real := 1.0
  const LimMin: real := 0.0
  const LimMax: real := 120.0
  const LimMinInt: real := -100.0
  const LimMaxInt: real := 100.0
  const InitialSetpoint: real := 37.0

  // ---------------------------------------------------------------------
  // Reading a number from a command
  // ---------------------------------------------------------------------

  /** The length of the run of digits at the front of `s`. */
  function LeadingDigits(s: string): (n: nat)
    ensures n <= |s| && AllDigits(s[..n])
    ensures n < |s| ==> !IsDigit(s[n])
    decreases |s|
  {
    if s == [] || !IsDigit(s[0]) then 0
    else
      var n := 1 + LeadingDigits(s[1..]);
      assert s[..n] == [s[0]] + s[1..][..n - 1];
      n
  }

  /** A run of digits followed by a non-digit (or nothing) is exactly the leading run. */
  lemma {:induction false} LeadingDigitsOf(a: string, b: string)
    requires AllDigits(a) && (b == [] || !IsDigit(b[0]))
    ensures LeadingDigits(a + b) == |a|
    decreases |a|
  {
    if a != [] {
      assert (a + b)[1..] == a[1..] + b;
      LeadingDigitsOf(a[1..], b);
    } else {
      assert a + b == b;
    }
  }

  /** The digits at the front of `s` read after a decimal point: d1/10 + d2/100 + … */
  function FractionValue(s: string): (f: real)
    ensures 0.0 <= f < 1.0
    decreases |s|
  {
    if s == [] || !IsDigit(s[0]) then 0.0
    else (DigitValue(s[0]) as real + FractionValue(s[1..])) / 10.0
  }

  /**
   * `String::toFloat` on text that starts with a digit: the leading digits
   * give the integer part and, when a point follows them, the digits after
   * it give the fraction; reading stops at the first other character.
   * The result is never negative and its integer part is the leading
   * digits' value.
   */
  function ToFloat(s: string): (v: real)
    requires |s| >= 1 && IsDigit(s[0])
    ensures v >= 0.0
    ensures v.Floor == DigitsValue(s[..LeadingDigits(s)])
  {
    var k := LeadingDigits(s);
    var whole := DigitsValue(s[..k]) as real;
    if k < |s| && s[k] == '.' then whole + FractionValue(s[k + 1..]) else whole
  }

  /**
   * `parseValue`: a number exactly when the command is longer than one
   * character and its second character is a digit; otherwise no number
   * (the source's NaN). So a sign or a point straight after the letter is
   * refused.
   */
  function ParseValue(cmd: string): (r: Option<real>)
    ensures r.Some? <==> |cmd| > 1 && IsDigit(cmd[1])
    ensures r.Some? ==> r.value >= 0.0
  {
    if |cmd| > 1 && IsDigit(cmd[1]) then Some(ToFloat(cmd[1..])) else None
  }

  /** A letter followed by a printed natural number reads back as that number. */
  lemma ParseValueRoundTrip(letter: char, n: nat)
    ensures ParseValue([letter] + NatToString(n)) == Some(n as real)
  {
    var digits := NatToString(n);
    var cmd := [letter] + digits;
    assert cmd[1..] == digits + [];
    LeadingDigitsOf(digits, []);
    assert digits[..|digits|] == digits;
    NatToStringRoundTrip(n);
  }

  /** A letter, a printed natural number, a point and one digit read back as n + d/10. */
  lemma ParseValueTenths(letter: char, n: nat, d: nat)
    requires d < 10
    ensures ParseValue([letter] + NatToString(n) + ['.', DigitChar(d)]) == Some(n as real + d as real / 10.0)
  {
    var digits := NatToString(n);
    var cmd := [letter] + digits + ['.', DigitChar(d)];
    var s := cmd[1..];
    assert s == digits + ['.', DigitChar(d)];
    LeadingDigitsOf(digits, ['.', DigitChar(d)]);
    assert s[..|digits|] == digits;
    assert s[|digits|] == '.';
    NatToStringRoundTrip(n);
    var tail := s[|digits| + 1..];
    assert tail == [DigitChar(d)];
    assert FractionValue(tail[1..]) == 0.0;
    assert FractionValue(tail) == d as real / 10.0;
  }

  /** A minus sign or a point straight after the letter, or a bare letter, gives no number. */
  lemma ParseValueRejects()
    ensures ParseValue("P-5") == None
    ensures ParseValue("S.5") == None
    ensures ParseValue("P") == None
  {
  }

  // ---------------------------------------------------------------------
  // Commands
  // ---------------------------------------------------------------------

  /** The four parameters a serial command can set. */
  datatype Settings = Settings(kp: real, ki: real, kd: real, setpoint: real)

  const InitialSettings: Settings := Settings(InitialKp, InitialKi, InitialKd, InitialSetpoint)

  predicate StartsWith(cmd: string, letter: char) {
    |cmd| >= 1 && cmd[0] == letter
  }

  /**
   * The effect of `parseCommand` on the parameters: a leading P, I, D or S
   * sets KP, KI, KD or the setpoint to the command's number when it has
   * one. Each parameter changes only through its own letter and a number,
   * and a command's number always lands in its parameter.
   */
  function Applied(s: Settings, cmd: string): (r: Settings)
    ensures r.kp != s.kp ==> StartsWith(cmd, 'P') && ParseValue(cmd) == Some(r.kp)
    ensures r.ki != s.ki ==> StartsWith(cmd, 'I') && ParseValue(cmd) == Some(r.ki)
    ensures r.kd != s.kd ==> StartsWith(cmd, 'D') && ParseValue(cmd) == Some(r.kd)
    ensures r.setpoint != s.setpoint ==> StartsWith(cmd, 'S') && ParseValue(cmd) == Some(r.setpoint)
    ensures StartsWith(cmd, 'P') && ParseValue(cmd).Some? ==> r == s.(kp := ParseValue(cmd).value)
    ensures StartsWith(cmd, 'I') && ParseValue(cmd).Some? ==> r == s.(ki := ParseValue(cmd).value)
    ensures StartsWith(cmd, 'D') && ParseValue(cmd).Some? ==> r == s.(kd := ParseValue(cmd).value)
    ensures StartsWith(cmd, 'S') && ParseValue(cmd).Some? ==> r == s.(setpoint := ParseValue(cmd).value)
  {
    var value := ParseValue(cmd);
    if value.None? || cmd == [] then s
    else if cmd[0] == 'P' then s.(kp := value.value)
    else if cmd[0] == 'I' then s.(ki := value.value)
    else if cmd[0] == 'D' then s.(kd := value.value)
    else if cmd[0] == 'S' then s.(setpoint := value.value)
    else s
  }

  /** A command that names none of the four parameters, or carries no number, changes nothing. */
  lemma UnknownCommandChangesNothing(s: Settings, cmd: string)
    requires cmd == [] || cmd[0] !in "PIDS" || ParseValue(cmd).None?
    ensures Applied(s, cmd) == s
  {
    if cmd != [] && ParseValue(cmd).Some? {
      assert cmd[0] != 'P' && cmd[0] != 'I' && cmd[0] != 'D' && cmd[0] != 'S';
    }
  }

  /** Sending a command twice has the effect of sending it once. */
  lemma AppliedIdempotent(s: Settings, cmd: string)
    ensures Applied(Applied(s, cmd), cmd) == Applied(s, cmd)
  {
  }

  // ---------------------------------------------------------------------
  // Sensing and burst firing
  // ---------------------------------------------------------------------

  /**
   * The number of ON half-cycles for a PID output within the output
   * limits: the cast to an unsigned byte truncates, which for a value in
   * [0, 120] keeps its integer part.
   */
  function OnCycles(out: real): (n: nat)
    requires LimMin <= out <= LimMax
    ensures n <= MaxHalfCycles
    ensures n as real <= out < n as real + 1.0
  {
    out.Floor
  }

  /**
   * One zero-cross step: the counter advances and wraps at 120, and the
   * relay fires when the new count is below the ON half-cycles.
   */
  function ZeroCrossStep(count: nat, on: nat): (r: (nat, bool))
    requires count < MaxHalfCycles
    ensures r.0 == (count + 1) % MaxHalfCycles
    ensures r.1 <==> r.0 < on
  {
    var next := count + 1;
    var next := if next >= MaxHalfCycles then 0 else next;
    (next, next < on)
  }

  /** How many of the next `k` zero-cross steps fire the relay. */
  function Fired(count: nat, on: nat, k: nat): nat
    requires count < MaxHalfCycles
    decreases k
  {
    if k == 0 then 0
    else
      var (next, fire) := ZeroCrossStep(count, on);
      (if fire then 1 else 0) + Fired(next, on, k - 1)
  }

  /** The number of x in [a, b) with x mod 120 below `on`. */
  function CountBelow(a: int, b: int, on: nat): nat
    decreases b - a
  {
    if a >= b then 0
    else (if a % MaxHalfCycles < on then 1 else 0) + CountBelow(a + 1, b, on)
  }

  lemma {:induction false} CountBelowSnoc(a: int, b: int, on: nat)
    requires a <= b
    ensures CountBelow(a, b + 1, on) == CountBelow(a, b, on) + (if b % MaxHalfCycles < on then 1 else 0)
    decreases b - a
  {
    if a < b {
      CountBelowSnoc(a + 1, b, on);
    }
  }

  lemma {:induction false} CountBelowShift(a: int, b: int, on: nat)
    ensures CountBelow(a + MaxHalfCycles, b + MaxHalfCycles, on) == CountBelow(a, b, on)
    decreases b - a
  {
    if a < b {
      SameResidue(a);
      CountBelowShift(a + 1, b, on);
    }
  }

  /** Below 120 the residue is the number itself. */
  lemma {:induction false} CountBelowFirstPeriod(a: int, on: nat)
    requires 0 <= a <= MaxHalfCycles && on <= MaxHalfCycles
    ensures CountBelow(a, MaxHalfCycles, on) == if on > a then on - a else 0
    decreases MaxHalfCycles - a
  {
    if a < MaxHalfCycles {
      CountBelowFirstPeriod(a + 1, on);
    }
  }

  /** x and x + 120 leave the same residue. */
  lemma SameResidue(x: int)
    ensures (x + MaxHalfCycles) % MaxHalfCycles == x % MaxHalfCycles
  {
  }

  /** Any 120 consecutive numbers hold exactly `on` residues below `on`. */
  lemma {:induction false} CountBelowPeriod(a: nat, on: nat)
    requires on <= MaxHalfCycles
    ensures CountBelow(a, a + MaxHalfCycles, on) == on
    decreases a
  {
    if a == 0 {
      CountBelowFirstPeriod(0, on);
    } else {
      var b := a - 1 + MaxHalfCycles;
      CountBelowPeriod(a - 1, on);
      CountBelowSnoc(a - 1, b, on);
      SameResidue(a - 1);
      assert CountBelow(a - 1, b + 1, on) == (if (a - 1) % MaxHalfCycles < on then 1 else 0) + CountBelow(a, b + 1, on);
    }
  }

  /** The steps from counter `count` visit the residues of count+1, count+2, … */
  lemma {:induction false} FiredCountsResidues(count: nat, on: nat, k: nat)
    requires count < MaxHalfCycles
    ensures Fired(count, on, k) == CountBelow(count + 1, count + 1 + k, on)
    decreases k
  {
    if k > 0 {
      var (next, fire) := ZeroCrossStep(count, on);
      FiredCountsResidues(next, on, k - 1);
      if next == 0 {
        CountBelowShift(1, k, on);
      }
    }
  }

  /**
   * Burst firing: over any 120 consecutive zero-cross steps with a fixed
   * number of ON half-cycles, the relay fires exactly that many times.
   */
  lemma HalfCyclesFiredPerPeriod(count: nat, on: nat)
    requires count < MaxHalfCycles && on <= MaxHalfCycles
    ensures Fired(count, on, MaxHalfCycles) == on
  {
    FiredCountsResidues(count, on, MaxHalfCycles);
    CountBelowPeriod(count + 1, on);
  }

  // ---------------------------------------------------------------------
  // The controller's globals
  // ---------------------------------------------------------------------

  /** The incubator program's globals and its PID controller. */
  class Controller {
    var kp: real
    var ki: real
    var kd: real
    var setpoint: real
    var temp: real
    /** `ciclosOn`, an unsigned byte. */
    var ciclosOn: nat
    /** `contCiclos`, an unsigned byte. */
    var contCiclos: nat
    /** The level last written to the relay pin. */
    var firePin: bool
    var pid: PIDController

    function Parameters(): Settings
      reads this
    {
      Settings(kp, ki, kd, setpoint)
    }

    /**
     * The controller's configuration is the program's constants and its
     * gains are the current KP, KI, KD; the ON half-cycles and the counter
     * stay within one burst period.
     */
    predicate Valid()
      reads this, pid
    {
      && pid.Config() == Params(kp, ki, kd, Tau, LimMin, LimMax, LimMinInt, LimMaxInt, TSample)
      && ciclosOn <= MaxHalfCycles
      && contCiclos < MaxHalfCycles
    }

    /** The globals' initial values, the controller built from the constants, and the relay off. */
    constructor ()
      ensures Valid() && fresh(pid)
      ensures Parameters() == InitialSettings
      ensures temp == 0.0 && ciclosOn == 0 && contCiclos == 0 && !firePin
      ensures pid.State() == Cleared
    {
      kp, ki, kd := InitialKp, InitialKi, InitialKd;
      setpoint := InitialSetpoint;
      temp := 0.0;
      ciclosOn, contCiclos := 0, 0;
      firePin := false;
      pid := new PIDController(InitialKp, InitialKi, InitialKd, Tau, LimMin, LimMax, LimMinInt, LimMaxInt, TSample);
    }

    /**
     * `parseCommand`: the parameters change as `Applied` says, and the
     * controller's gains are then set to KP, KI, KD whatever the command
     * was; the controller's memory is untouched.
     */
    method ParseCommand(cmd: string)
      requires Valid()
      modifies this`kp, this`ki, this`kd, this`setpoint, pid`Kp, pid`Ki, pid`Kd
      ensures Valid()
      ensures Parameters() == Applied(old(Parameters()), cmd)
      ensures pid.GetGains() == PIDGains(kp, ki, kd)
      ensures pid.State() == old(pid.State())
    {
      if StartsWith(cmd, 'P') {
        var value := ParseValue(cmd);
        if value.Some? {
          kp := value.value;
        }
      } else if StartsWith(cmd, 'I') {
        var value := ParseValue(cmd);
        if value.Some? {
          ki := value.value;
        }
      } else if StartsWith(cmd, 'D') {
        var value := ParseValue(cmd);
        if value.Some? {
          kd := value.value;
        }
      } else if StartsWith(cmd, 'S') {
        var value := ParseValue(cmd);
        if value.Some? {
          setpoint := value.value;
        }
      }
      pid.UpdateGains(kp, ki, kd);
    }

    /**
     * The sensing step: a failed reading (`None`, the source's NaN) counts
     * as 0 degrees; the PID is updated towards the setpoint and its output,
     * truncated, becomes the ON half-cycles, which therefore stay in
     * [0, 120].
     */
    method Sense(reading: Option<real>)
      requires Valid()
      modifies this`temp, this`ciclosOn, pid`integrator, pid`prevError, pid`differentiator, pid`prevMeasurement, pid`out
      ensures Valid()
      ensures temp == if reading.Some? then reading.value else 0.0
      ensures pid.State() == Step(pid.Config(), old(pid.State()), setpoint, temp)
      ensures ciclosOn == OnCycles(pid.out) && ciclosOn <= MaxHalfCycles
    {
      match reading {
        case None =>
          temp := 0.0;
          ciclosOn := 0;
        case Some(t) =>
          temp := t;
      }
      var o := pid.Update(setpoint, temp);
      ciclosOn := OnCycles(o);
    }

    /**
     * The zero-cross step: the byte counter is incremented and wrapped to 0
     * at 120, and the relay is driven HIGH exactly when the counter is
     * below the ON half-cycles.
     */
    method ZeroCross()
      requires Valid()
      modifies this`contCiclos, this`firePin
      ensures Valid()
      ensures (contCiclos, firePin) == ZeroCrossStep(old(contCiclos), ciclosOn)
    {
      contCiclos := (contCiclos + 1) % 256;
      if contCiclos >= MaxHalfCycles {
        contCiclos := 0;
      }
      firePin := contCiclos < ciclosOn;
    }

    /**
     * One pass of `loop()`, with the serial line and the two interrupt
     * flags as inputs: a received command is applied first, then a
     * pending sensing step, then a pending zero-cross step.
     */
    method Loop(line: Option<string>, flagSense: bool, reading: Option<real>, flagZC: bool)
      requires Valid()
      modifies this`kp, this`ki, this`kd, this`setpoint, this`temp, this`ciclosOn, this`contCiclos, this`firePin
      modifies pid`Kp, pid`Ki, pid`Kd, pid`integrator, pid`prevError, pid`differentiator, pid`prevMeasurement, pid`out
      ensures Valid()
      ensures Parameters() == if line.Some? then Applied(old(Parameters()), line.value) else old(Parameters())
      ensures contCiclos == if flagZC then (old(contCiclos) + 1) % MaxHalfCycles else old(contCiclos)
      ensures flagZC ==> (firePin <==> contCiclos < ciclosOn)
      ensures !flagZC ==> firePin == old(firePin)
      ensures line.Some? ==> pid.GetGains() == PIDGains(kp, ki, kd)
      ensures flagSense ==> temp == (if reading.Some? then reading.value else 0.0)
      ensures flagSense ==> pid.State() == Step(pid.Config(), old(pid.State()), setpoint, temp)
      ensures flagSense ==> ciclosOn == OnCycles(pid.out)
      ensures !flagSense ==> temp == old(temp) && ciclosOn == old(ciclosOn) && pid.State() == old(pid.State())
    {
      if line.Some? {
        ParseCommand(line.value);
      }
      if flagSense {
        Sense(reading);
      }
      if flagZC {
        ZeroCross();
      }
    }
  }
}
