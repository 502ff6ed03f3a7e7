/**
 * The ECG conditioning filter: a bank of four second-order IIR sections
 * (biquads) run in series, each in transposed direct form II, whose two
 * state words persist from one sample to the next.
 */
module Filter {

  /** One second-order section: numerator b0, b1, b2, denominator a1, a2 and the state z1, z2. */
  datatype Biquad = Biquad(b0: real, b1: real, b2: real, a1: real, a2: real, z1: real, z2: real)

  /** Number of sections in the bank. */
  const Stages: nat := 4

  /** The bank as the firmware starts it: the design coefficients with every state word cleared. */
  const InitialBank: seq<Biquad> := [
    Biquad(0.37373487, 0.74746975, 0.37373487, 1.02830960, 0.28774614, 0.0, 0.0),
    Biquad(1.00000000, 2.00000000, 1.00000000, 1.32440218, 0.64037407, 0.0, 0.0),
    Biquad(1.00000000, -2.00000000, 1.00000000, -1.80939660, 0.81997336, 0.0, 0.0),
    Biquad(1.00000000, -2.00000000, 1.00000000, -1.91424301, 0.92488759, 0.0, 0.0)
  ]

  /** Both state words of a section are zero. */
  predicate AtRest(s: Biquad) {
    s.z1 == 0.0 && s.z2 == 0.0
  }

  /** Every section of a bank is at rest. */
  predicate BankAtRest(bank: seq<Biquad>) {
    forall i :: 0 <= i < |bank| ==> AtRest(bank[i])
  }

  /** Two sections carry the same five coefficients (their state may differ). */
  predicate SameCoefficients(s: Biquad, t: Biquad) {
    s.b0 == t.b0 && s.b1 == t.b1 && s.b2 == t.b2 && s.a1 == t.a1 && s.a2 == t.a2
  }

  /**
   * One sample through one section: output y = b0·x + z1, then
   * z1 := b1·x − a1·y + z2 (with the old z2) and z2 := b2·x − a2·y.
   */
  function Step(s: Biquad, x: real): (Biquad, real)
  {
    var y := s.b0 * x + s.z1;
    (s.(z1 := s.b1 * x - s.a1 * y + s.z2, z2 := s.b2 * x - s.a2 * y), y)
  }

  /**
   * One sample through a whole bank, in array order: each section's output
   * is the next section's input; the result is the updated bank and the
   * last section's output.
   */
  function Cascade(bank: seq<Biquad>, x: real): (r: (seq<Biquad>, real))
    ensures |r.0| == |bank|
    decreases |bank|
  {
    if bank == [] then ([], x)
    else
      var (s, y) := Step(bank[0], x);
      var (rest, out) := Cascade(bank[1..], y);
      ([s] + rest, out)
  }

  /**
   * Loop step of `FilterSample`: once sections `..i` are done and `y` is
   * the input of section `i`, stepping section `i` leaves the same overall
   * result with one more section done.
   */
  lemma CascadeAdvance(bank: seq<Biquad>, done: seq<Biquad>, i: nat, y: real, x: real)
    requires i < |bank|
    requires done + Cascade(bank[i..], y).0 == Cascade(bank, x).0
    requires Cascade(bank[i..], y).1 == Cascade(bank, x).1
    ensures var (s, y') := Step(bank[i], y);
      (done + [s]) + Cascade(bank[i + 1..], y').0 == Cascade(bank, x).0
      && Cascade(bank[i + 1..], y').1 == Cascade(bank, x).1
  {
    assert bank[i..][1..] == bank[i + 1..];
    var (s, y') := Step(bank[i], y);
    var rest := Cascade(bank[i + 1..], y').0;
    assert (done + [s]) + rest == done + ([s] + rest);
  }

  /** `filterSample`: the bank array is updated in place and the filtered sample returned. */
  method FilterSample(sos: array<Biquad>, x: real) returns (y: real)
    modifies sos
    ensures (sos[..], y) == Cascade(old(sos[..]), x)
  {
    ghost var bank := sos[..];
    y := x;
    var i := 0;
    assert bank[i..] == bank;
    while i < sos.Length
      invariant 0 <= i <= sos.Length
      invariant forall k :: i <= k < sos.Length ==> sos[k] == bank[k]
      invariant sos[..i] + Cascade(bank[i..], y).0 == Cascade(bank, x).0
      invariant Cascade(bank[i..], y).1 == Cascade(bank, x).1
    {
      CascadeAdvance(bank, sos[..i], i, y, x);
      ghost var before := sos[..i];
      var (stage, out) := Step(sos[i], y);
      sos[i] := stage;
      assert sos[..i + 1] == before + [stage];
      y := out;
      i := i + 1;
    }
    assert bank[i..] == [];
    assert Cascade(bank[i..], y) == ([], y);
    assert sos[..i] + [] == sos[..];
  }

  /** A pass through the bank writes only state words: every coefficient is kept. */
  lemma {:induction false} CascadeKeepsCoefficients(bank: seq<Biquad>, x: real)
    ensures forall i :: 0 <= i < |bank| ==> SameCoefficients(Cascade(bank, x).0[i], bank[i])
    decreases |bank|
  {
    if bank != [] {
      var (s, y) := Step(bank[0], x);
      CascadeKeepsCoefficients(bank[1..], y);
      forall i | 0 <= i < |bank| ensures SameCoefficients(Cascade(bank, x).0[i], bank[i]) {
        if i > 0 {
          assert Cascade(bank, x).0[i] == Cascade(bank[1..], y).0[i - 1];
          assert bank[i] == bank[1..][i - 1];
        }
      }
    }
  }

  /** A bank at rest fed a zero sample stays at rest and outputs zero. */
  lemma {:induction false} ZeroInputKeepsRest(bank: seq<Biquad>)
    requires BankAtRest(bank)
    ensures Cascade(bank, 0.0) == (bank, 0.0)
    decreases |bank|
  {
    if bank != [] {
      assert AtRest(bank[0]);
      assert BankAtRest(bank[1..]) by {
        forall i | 0 <= i < |bank[1..]| ensures AtRest(bank[1..][i]) {
          assert bank[1..][i] == bank[i + 1];
        }
      }
      ZeroInputKeepsRest(bank[1..]);
      assert [bank[0]] + bank[1..] == bank;
    }
  }

  /** The bank the firmware starts from has four sections, all at rest. */
  lemma InitialBankIsAtRest()
    ensures |InitialBank| == Stages && BankAtRest(InitialBank)
  {
  }

  /** `s[i]`, or zero for an index before the first sample (zero history). */
  function At(s: seq<real>, i: int): real
  {
    if 0 <= i < |s| then s[i] else 0.0
  }

  /** One section run over the samples `xs`, oldest first: the final section and the outputs. */
  function Run(s: Biquad, xs: seq<real>): (r: (Biquad, seq<real>))
    ensures |r.1| == |xs|
    decreases |xs|
  {
    if xs == [] then (s, [])
    else
      var (t, ys) := Run(s, xs[..|xs| - 1]);
      var (u, y) := Step(t, xs[|xs| - 1]);
      (u, ys + [y])
  }

  /**
   * The section's documented difference equation for one output, from the
   * input x0 = x[n], the inputs x1 = x[n−1], x2 = x[n−2] and the outputs
   * y1 = y[n−1], y2 = y[n−2]:
   * y[n] = b0·x[n] + b1·x[n−1] + b2·x[n−2] − a1·y[n−1] − a2·y[n−2].
   */
  function DirectOutput(s: Biquad, x0: real, x1: real, x2: real, y1: real, y2: real): real
  {
    s.b0 * x0 + s.b1 * x1 + s.b2 * x2 - s.a1 * y1 - s.a2 * y2
  }

  /** The outputs of the difference equation over `xs`, oldest first. */
  function DifferenceEquation(s: Biquad, xs: seq<real>): (ys: seq<real>)
    ensures |ys| == |xs|
    decreases |xs|
  {
    if xs == [] then []
    else
      var n := |xs| - 1;
      var prev := DifferenceEquation(s, xs[..n]);
      prev + [DirectOutput(s, xs[n], At(xs, n - 1), At(xs, n - 2), At(prev, n - 1), At(prev, n - 2))]
  }

  /** The value the first state word must hold: the terms of y[n+1] already known at step n. */
  function PendingFirst(s: Biquad, x1: real, x2: real, y1: real, y2: real): real
  {
    s.b1 * x1 - s.a1 * y1 + s.b2 * x2 - s.a2 * y2
  }

  /** The value the second state word must hold: the terms of y[n+2] already known at step n. */
  function PendingSecond(s: Biquad, x1: real, y1: real): real
  {
    s.b2 * x1 - s.a2 * y1
  }

  /**
   * One step of the transposed form, with the state words holding the
   * pending terms of the difference equation for inputs x1, x2 and outputs
   * y1, y2 of the two previous samples, produces the difference-equation
   * output and shifts the pending terms by one sample.
   */
  lemma StepPendingTerms(s: Biquad, t: Biquad, x: real, x1: real, x2: real, y1: real, y2: real)
    requires SameCoefficients(t, s)
    requires t.z1 == PendingFirst(s, x1, x2, y1, y2)
    requires t.z2 == PendingSecond(s, x1, y1)
    ensures var (u, y) := Step(t, x);
      && y == DirectOutput(s, x, x1, x2, y1, y2)
      && SameCoefficients(u, s)
      && u.z1 == PendingFirst(s, x, x1, y, y1)
      && u.z2 == PendingSecond(s, x, y)
  {
  }

  /**
   * From a section at rest, the in-place update realises the difference
   * equation exactly, and the state words hold the pending terms of the
   * next one or two outputs.
   */
  lemma {:induction false} RunRealisesDifferenceEquation(s: Biquad, xs: seq<real>)
    requires AtRest(s)
    ensures Run(s, xs).1 == DifferenceEquation(s, xs)
    ensures SameCoefficients(Run(s, xs).0, s)
    ensures var n, ys, t := |xs|, Run(s, xs).1, Run(s, xs).0;
      && t.z1 == PendingFirst(s, At(xs, n - 1), At(xs, n - 2), At(ys, n - 1), At(ys, n - 2))
      && t.z2 == PendingSecond(s, At(xs, n - 1), At(ys, n - 1))
    decreases |xs|
  {
    if xs != [] {
      var n := |xs| - 1;
      var pre := xs[..n];
      RunRealisesDifferenceEquation(s, pre);
      var r := Run(s, pre);
      var t, ys := r.0, r.1;
      var x := xs[n];
      StepPendingTerms(s, t, x, At(pre, n - 1), At(pre, n - 2), At(ys, n - 1), At(ys, n - 2));
      var (u, y) := Step(t, x);
      assert xs[..|xs| - 1] == pre;
      var ys' := ys + [y];
      assert Run(s, xs) == (u, ys');
      assert At(xs, n - 1) == At(pre, n - 1) && At(xs, n - 2) == At(pre, n - 2) && At(xs, n) == x;
      assert At(ys', n) == y && At(ys', n - 1) == At(ys, n - 1);
      assert DifferenceEquation(s, xs) == ys + [y];
    }
  }
}
