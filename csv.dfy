/**
 * Comma-separated lines in the shape of section 2 of RFC 4180 without
 * quoting: fields joined by single commas. A field holding no comma is
 * recovered exactly by splitting the line at its commas.
 */
module Csv {

  /** The field holds no comma, so it needs no quoting. */
  predicate Plain(f: string) {
    ',' !in f
  }

  /** Every field is plain. */
  predicate AllPlain(fs: seq<string>) {
    forall i :: 0 <= i < |fs| ==> Plain(fs[i])
  }

  /** The fields separated by commas, the first field first. */
  function Join(fs: seq<string>): string
    requires |fs| >= 1
    decreases |fs|
  {
    if |fs| == 1 then fs[0] else fs[0] + "," + Join(fs[1..])
  }

  /** The number of commas in `s`. */
  function Commas(s: string): nat
    decreases |s|
  {
    if s == [] then 0 else (if s[0] == ',' then 1 else 0) + Commas(s[1..])
  }

  lemma {:induction false} CommasAppend(a: string, b: string)
    ensures Commas(a + b) == Commas(a) + Commas(b)
    decreases |a|
  {
    if a != [] {
      assert (a + b)[1..] == a[1..] + b;
      CommasAppend(a[1..], b);
    } else {
      assert a + b == b;
    }
  }

  lemma {:induction false} PlainHasNoCommas(f: string)
    requires Plain(f)
    ensures Commas(f) == 0
    decreases |f|
  {
    if f != [] {
      PlainHasNoCommas(f[1..]);
    }
  }

  /** A line of `n` plain fields holds exactly n - 1 commas. */
  lemma {:induction false} JoinCommas(fs: seq<string>)
    requires |fs| >= 1 && AllPlain(fs)
    ensures Commas(Join(fs)) == |fs| - 1
    decreases |fs|
  {
    PlainHasNoCommas(fs[0]);
    if |fs| > 1 {
      assert AllPlain(fs[1..]) by {
        forall i | 0 <= i < |fs[1..]| ensures Plain(fs[1..][i]) {
          assert fs[1..][i] == fs[i + 1];
        }
      }
      JoinCommas(fs[1..]);
      assert Join(fs) == fs[0] + ("," + Join(fs[1..]));
      assert Commas(",") == 1;
      CommasAppend(fs[0], "," + Join(fs[1..]));
      CommasAppend(",", Join(fs[1..]));
    }
  }

  /** The index of the first comma of `s`. */
  function FirstComma(s: string): (i: nat)
    requires ',' in s
    ensures i < |s| && s[i] == ',' && ',' !in s[..i]
    decreases |s|
  {
    if s[0] == ',' then 0
    else
      var i := FirstComma(s[1..]) + 1;
      assert s[1..][..i - 1] == s[1..i];
      assert s[..i] == [s[0]] + s[1..i];
      i
  }

  /** The fields of a line: the text between consecutive commas. */
  function Split(s: string): (fs: seq<string>)
    ensures |fs| >= 1
    decreases |s|
  {
    if ',' !in s then [s]
    else
      var i := FirstComma(s);
      [s[..i]] + Split(s[i + 1..])
  }

  /** Splitting a line of plain fields gives back the fields. */
  lemma {:induction false} SplitJoin(fs: seq<string>)
    requires |fs| >= 1 && AllPlain(fs)
    ensures Split(Join(fs)) == fs
    decreases |fs|
  {
    if |fs| == 1 {
      assert Join(fs) == fs[0];
    } else {
      var f, rest := fs[0], Join(fs[1..]);
      var s := f + "," + rest;
      assert s[|f|] == ',' && s[..|f|] == f;
      assert ',' in s;
      assert FirstComma(s) == |f|;
      assert s[|f| + 1..] == rest;
      assert AllPlain(fs[1..]) by {
        forall i | 0 <= i < |fs[1..]| ensures Plain(fs[1..][i]) {
          assert fs[1..][i] == fs[i + 1];
        }
      }
      SplitJoin(fs[1..]);
      assert [f] + fs[1..] == fs;
    }
  }

  /** Each field followed by a comma, the way a record is printed field by field. */
  function Terminated(fs: seq<string>): string
    decreases |fs|
  {
    if fs == [] then "" else Terminated(fs[..|fs| - 1]) + fs[|fs| - 1] + ","
  }

  /** Printing every field but the last with a trailing comma, then the last one, writes the joined line. */
  lemma {:induction false} TerminatedThenLast(fs: seq<string>)
    requires |fs| >= 1
    ensures Terminated(fs[..|fs| - 1]) + fs[|fs| - 1] == Join(fs)
    decreases |fs|
  {
    if |fs| > 1 {
      var t := fs[1..];
      TerminatedThenLast(t);
      TerminatedCons(fs[0], t[..|t| - 1]);
      assert [fs[0]] + t[..|t| - 1] == fs[..|fs| - 1];
      assert t[|t| - 1] == fs[|fs| - 1];
    }
  }

  /** Terminating a first field, then the rest. */
  lemma {:induction false} TerminatedCons(f: string, fs: seq<string>)
    ensures Terminated([f] + fs) == f + "," + Terminated(fs)
    decreases |fs|
  {
    if fs != [] {
      var p := fs[..|fs| - 1];
      TerminatedCons(f, p);
      assert ([f] + fs)[..|fs|] == [f] + p;
    }
  }

  /** Printing two runs of fields one after the other. */
  lemma {:induction false} TerminatedAppend(a: seq<string>, b: seq<string>)
    ensures Terminated(a + b) == Terminated(a) + Terminated(b)
    decreases |b|
  {
    if b == [] {
      assert a + b == a;
    } else {
      var p := b[..|b| - 1];
      TerminatedAppend(a, p);
      assert (a + b)[..|a + b| - 1] == a + p;
    }
  }

  /** Runs of plain fields put together are plain. */
  lemma AllPlainAppend(a: seq<string>, b: seq<string>)
    requires AllPlain(a) && AllPlain(b)
    ensures AllPlain(a + b)
  {
    forall i | 0 <= i < |a + b| ensures Plain((a + b)[i]) {
      if i >= |a| {
        assert (a + b)[i] == b[i - |a|];
      }
    }
  }

  /** Printing one more field and its comma. */
  lemma TerminatedSnoc(fs: seq<string>, f: string)
    ensures Terminated(fs + [f]) == Terminated(fs) + f + ","
  {
    assert (fs + [f])[..|fs|] == fs;
  }

  /** A joined line followed by a comma is every field followed by a comma. */
  lemma JoinThenComma(fs: seq<string>)
    requires |fs| >= 1
    ensures Join(fs) + "," == Terminated(fs)
  {
    TerminatedThenLast(fs);
  }

  /**
   * Printing runs of fields each followed by a comma, then a joined run
   * and a comma, then the last fields separated by commas, writes the
   * whole line joined by commas.
   */
  lemma PrintedPartsJoin(h: seq<string>, z1: seq<string>, z2: seq<string>, z3: seq<string>,
                         t0: string, t1: string, t2: string,
                         head: string, sec: string, dist: string, hr: string)
    requires |z3| >= 1
    requires head == Terminated(h) && sec == Terminated(z1) && dist == Terminated(z2) && hr == Join(z3)
    ensures head + sec + dist + hr + "," + t0 + "," + t1 + "," + t2
            == Join(h + z1 + z2 + z3 + [t0, t1, t2])
  {
    var done := h;
    var out := head;
    TerminatedAppend(done, z1);
    out, done := out + sec, done + z1;
    TerminatedAppend(done, z2);
    out, done := out + dist, done + z2;
    JoinThenComma(z3);
    TerminatedAppend(done, z3);
    AppendAssoc(out, hr, ",");
    out, done := out + hr + ",", done + z3;
    TerminatedSnoc(done, t0);
    out, done := out + t0 + ",", done + [t0];
    TerminatedSnoc(done, t1);
    out, done := out + t1 + ",", done + [t1];
    TerminatedThenLast(done + [t2]);
    assert (done + [t2])[..|done|] == done;
    assert done + [t2] == h + z1 + z2 + z3 + [t0, t1, t2];
  }

  lemma AppendAssoc(a: string, b: string, c: string)
    ensures a + b + c == a + (b + c)
  {
  }
}
