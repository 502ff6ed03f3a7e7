/** Sums of real-valued sequences, as accumulated by the firmware's loops and counters. */
module Sums {

  /** The sum of a sequence of reals. */
  function SumR(s: seq<real>): real
  {
    if s == [] then 0.0 else SumR(s[..|s| - 1]) + s[|s| - 1]
  }

  lemma {:induction false} SumRAppend(a: seq<real>, b: seq<real>)
    ensures SumR(a + b) == SumR(a) + SumR(b)
    decreases |b|
  {
    if b == [] {
      assert a + b == a;
    } else {
      var b' := b[..|b| - 1];
      assert (a + b)[..|a + b| - 1] == a + b';
      SumRAppend(a, b');
    }
  }

  /** The sum of the first `n` slots, accumulated front to back the way the firmware's summing loops do. */
  function SumRTo(s: seq<real>, n: int): real
    requires 0 <= n <= |s|
  {
    if n == 0 then 0.0 else SumRTo(s, n - 1) + s[n - 1]
  }

  lemma {:induction false} SumRToIsSumR(s: seq<real>, n: int)
    requires 0 <= n <= |s|
    ensures SumRTo(s, n) == SumR(s[..n])
  {
    if n > 0 {
      SumRToIsSumR(s, n - 1);
      assert s[..n][..n - 1] == s[..n - 1];
    }
  }

  /** A sequence of `n` copies of `v` adds up to n·v. */
  lemma {:induction false} SumRConstant(s: seq<real>, v: real)
    requires forall i :: 0 <= i < |s| ==> s[i] == v
    ensures SumR(s) == |s| as real * v
    decreases |s|
  {
    if s != [] {
      SumRConstant(s[..|s| - 1], v);
    }
  }

  /** Replacing one element changes the sum by the difference. */
  lemma {:induction false} SumRUpdate(s: seq<real>, i: int, x: real)
    requires 0 <= i < |s|
    ensures SumR(s[i := x]) == SumR(s) - s[i] + x
    decreases |s|
  {
    var n := |s| - 1;
    if i < n {
      assert s[i := x][..n] == s[..n][i := x];
      SumRUpdate(s[..n], i, x);
    } else {
      assert s[i := x][..n] == s[..n];
    }
  }
}
