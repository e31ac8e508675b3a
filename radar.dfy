/** The radar chart's arithmetic, shared by the dashboard and the PDF
    report: per metric a denominator of 1.2 times the larger of the two
    teams' values (1 when that maximum is not positive), each value divided
    by it, and the series closed by repeating its first point. Values are
    exact reals standing for the program's floats. */
module Radar {
  import opened Common

  function Max(a: real, b: real): (m: real)
    ensures m >= a && m >= b && (m == a || m == b)
  {
    if a >= b then a else b
  }

  function Min(a: nat, b: nat): nat {
    if a <= b then a else b
  }

  /** `max(l, v) * 1.2 if max(l, v) > 0 else 1`: always positive and never
      below either value. */
  function Denominator(l: real, v: real): (m: real)
    ensures m > 0.0
    ensures m >= l && m >= v
  {
    if Max(l, v) > 0.0 then Max(l, v) * 1.2 else 1.0
  }

  /** `maximos`: one denominator per pair of `zip(local_vals, visitante_vals)`,
      the longer list being cut to the shorter. */
  function Maximos(ls: seq<real>, vs: seq<real>): (ms: seq<real>)
    ensures |ms| == Min(|ls|, |vs|)
    ensures forall i :: 0 <= i < |ms| ==> ms[i] == Denominator(ls[i], vs[i]) && ms[i] > 0.0
  {
    seq(Min(|ls|, |vs|), i requires 0 <= i < Min(|ls|, |vs|) => Denominator(ls[i], vs[i]))
  }

  /** The dashboard's `normaliza`: `v / m if m != 0 else 0` over `zip`. */
  function Normaliza(vals: seq<real>, ms: seq<real>): (r: seq<real>)
    ensures |r| == Min(|vals|, |ms|)
  {
    seq(Min(|vals|, |ms|), i requires 0 <= i < Min(|vals|, |ms|) => if ms[i] != 0.0 then vals[i] / ms[i] else 0.0)
  }

  /** The report's `[v/m for v, m in zip(...)]`, with no guard: a zero
      denominator would raise ZeroDivisionError, so none may occur. */
  function Divide(vals: seq<real>, ms: seq<real>): (r: seq<real>)
    requires forall i :: 0 <= i < Min(|vals|, |ms|) ==> ms[i] != 0.0
    ensures |r| == Min(|vals|, |ms|)
  {
    seq(Min(|vals|, |ms|), i requires 0 <= i < Min(|vals|, |ms|) => vals[i] / ms[i])
  }

  /** Over the denominators `Maximos` builds, the report's unguarded
      division is defined and agrees with the dashboard's guarded one. */
  lemma GuardNeverTaken(vals: seq<real>, ls: seq<real>, vs: seq<real>)
    ensures var ms := Maximos(ls, vs);
      && (forall i :: 0 <= i < Min(|vals|, |ms|) ==> ms[i] != 0.0)
      && Normaliza(vals, ms) == Divide(vals, ms)
  {
  }

  /** Bounds of one normalised pair, for non-negative values: both results
      lie in [0, 1/1.2]; the larger value maps to exactly 1/1.2 when it is
      positive; when both are 0 the denominator is 1 and both results 0. */
  lemma PairBounds(l: real, v: real)
    requires 0.0 <= l && 0.0 <= v
    ensures var m := Denominator(l, v);
      && 0.0 <= l / m <= 5.0 / 6.0
      && 0.0 <= v / m <= 5.0 / 6.0
      && (Max(l, v) > 0.0 ==> Max(l, v) / m == 5.0 / 6.0)
      && (l == 0.0 && v == 0.0 ==> m == 1.0 && l / m == 0.0 && v / m == 0.0)
  {
    var m := Denominator(l, v);
    var x := Max(l, v);
    if x > 0.0 {
      DivScaled(x, m);
      QuotientBelow(l, x, m);
      QuotientBelow(v, x, m);
    }
  }

  lemma DivScaled(x: real, m: real)
    requires x > 0.0 && m == x * 1.2
    ensures x / m == 5.0 / 6.0
  {
    assert m * (5.0 / 6.0) == x;
    var q := x / m;
    assert m * q == x;
    assert m * (q - 5.0 / 6.0) == 0.0;
  }

  lemma QuotientBelow(a: real, x: real, m: real)
    requires 0.0 <= a <= x && m > 0.0
    ensures 0.0 <= a / m <= x / m
  {
  }

  /** The same bounds over whole series: every normalised value of either
      team lies in [0, 1/1.2], and for each metric the larger value reaches
      1/1.2 when it is positive. */
  lemma SeriesBounds(ls: seq<real>, vs: seq<real>)
    requires forall i :: 0 <= i < |ls| ==> 0.0 <= ls[i]
    requires forall i :: 0 <= i < |vs| ==> 0.0 <= vs[i]
    ensures var ms := Maximos(ls, vs);
      var nl := Normaliza(ls, ms);
      var nv := Normaliza(vs, ms);
      && |nl| == |nv| == |ms|
      && (forall i :: 0 <= i < |ms| ==> 0.0 <= nl[i] <= 5.0 / 6.0 && 0.0 <= nv[i] <= 5.0 / 6.0)
      && (forall i :: 0 <= i < |ms| && Max(ls[i], vs[i]) > 0.0 ==> Max(nl[i], nv[i]) == 5.0 / 6.0)
      && (forall i :: 0 <= i < |ms| && ls[i] == 0.0 && vs[i] == 0.0 ==> nl[i] == 0.0 && nv[i] == 0.0)
  {
    var ms := Maximos(ls, vs);
    forall i | 0 <= i < |ms|
      ensures var nl := Normaliza(ls, ms); var nv := Normaliza(vs, ms);
        && 0.0 <= nl[i] <= 5.0 / 6.0 && 0.0 <= nv[i] <= 5.0 / 6.0
        && (Max(ls[i], vs[i]) > 0.0 ==> Max(nl[i], nv[i]) == 5.0 / 6.0)
        && (ls[i] == 0.0 && vs[i] == 0.0 ==> nl[i] == 0.0 && nv[i] == 0.0)
    {
      PairBounds(ls[i], vs[i]);
    }
  }

  /** A series closed into a loop: its points, then its first point again
      (`r=local_norm + [local_norm[0]]`). */
  function Closed<T>(s: seq<T>): (r: seq<T>)
    requires |s| > 0
    ensures |r| == |s| + 1 && r[..|s|] == s && r[|s|] == r[0]
  {
    s + [s[0]]
  }

  /** The angular positions of `n` categories as fractions of a full turn
      (`n / N` in `n / N * 2 * pi`). */
  function Turns(n: nat): (r: seq<real>)
    ensures |r| == n
    ensures forall k :: 0 <= k < n ==> 0.0 <= r[k] < 1.0
    ensures forall j, k :: 0 <= j < k < n ==> r[j] < r[k]
  {
    var r := seq(n, k requires 0 <= k < n => k as real / n as real);
    forall j, k | 0 <= j < k < n ensures r[j] < r[k] {
      QuotientIncreasing(j as real, k as real, n as real);
    }
    r
  }

  lemma QuotientIncreasing(a: real, b: real, d: real)
    requires a < b && d > 0.0
    ensures a / d < b / d
  {
  }
}
