/** Generic helpers shared by the model: optional values and results,
    order-preserving filters over sequences, first-match searches, and the
    handful of string operations the dashboard performs. */
module Common {

  datatype Option<+T> = None | Some(value: T)

  /** A computation that either produces a value or fails with an error, the
      way a pandas lookup raises KeyError or IndexError. */
  datatype Result<+T, +E> = Ok(value: T) | Err(error: E)

  /** Python truthiness of an optional dropdown value: `None` and the empty
      string are false. */
  predicate GivenText(o: Option<string>) {
    o.Some? && o.value != ""
  }

  /** Python truthiness of an optional number: `None` and 0 are false. */
  predicate GivenNat(o: Option<nat>) {
    o.Some? && o.value != 0
  }

  // ---------------------------------------------------------------------
  // Filtering (pandas boolean masks and list comprehensions with a guard)
  // ---------------------------------------------------------------------

  /** `r` keeps the elements of `s` in their original relative order. */
  ghost predicate IsSubsequence<T>(r: seq<T>, s: seq<T>)
    decreases |s|
  {
    if r == [] then true
    else if s == [] then false
    else if r[0] == s[0] then IsSubsequence(r[1..], s[1..])
    else IsSubsequence(r, s[1..])
  }

  /** The elements of `s` that satisfy `p`, in order. */
  function Filter<T(!new)>(s: seq<T>, p: T -> bool): (r: seq<T>)
    ensures |r| <= |s|
    ensures forall x :: x in r <==> x in s && p(x)
    ensures forall x :: multiset(r)[x] == if p(x) then multiset(s)[x] else 0
    ensures IsSubsequence(r, s)
    decreases |s|
  {
    if s == [] then []
    else
      assert s == [s[0]] + s[1..];
      var rest := Filter(s[1..], p);
      if p(s[0]) then [s[0]] + rest else rest
  }

  lemma {:induction false} FilterAppend<T(!new)>(a: seq<T>, b: seq<T>, p: T -> bool)
    ensures Filter(a + b, p) == Filter(a, p) + Filter(b, p)
    decreases |a|
  {
    if a == [] {
      assert a + b == b;
    } else {
      assert (a + b)[0] == a[0];
      assert (a + b)[1..] == a[1..] + b;
      FilterAppend(a[1..], b, p);
    }
  }

  /** Filtering with a predicate every element meets returns the input. */
  lemma {:induction false} FilterAll<T(!new)>(s: seq<T>, p: T -> bool)
    requires forall x :: x in s ==> p(x)
    ensures Filter(s, p) == s
    decreases |s|
  {
    if s != [] {
      FilterAll(s[1..], p);
    }
  }

  /** Filtering with two predicates that agree everywhere gives the same
      result. */
  lemma {:induction false} FilterSame<T(!new)>(s: seq<T>, p: T -> bool, q: T -> bool)
    requires forall x :: p(x) == q(x)
    ensures Filter(s, p) == Filter(s, q)
    decreases |s|
  {
    if s != [] {
      FilterSame(s[1..], p, q);
    }
  }

  /** Two sequences holding the same elements (a permutation of each other)
      have equally many elements satisfying any predicate. */
  lemma FilterPermutation<T(!new)>(a: seq<T>, b: seq<T>, p: T -> bool)
    requires multiset(a) == multiset(b)
    ensures |Filter(a, p)| == |Filter(b, p)|
  {
    var fa, fb := Filter(a, p), Filter(b, p);
    assert forall x :: multiset(fa)[x] == multiset(fb)[x];
    assert multiset(fa) == multiset(fb);
    assert |multiset(fa)| == |fa| && |multiset(fb)| == |fb|;
  }

  /** Two distinct positions satisfying `p` give at least two survivors. */
  lemma FilterTwoPositions<T(!new)>(s: seq<T>, p: T -> bool, i: nat, j: nat)
    requires i < j < |s| && p(s[i]) && p(s[j])
    ensures |Filter(s, p)| >= 2
  {
    assert s == s[..j] + s[j..];
    FilterAppend(s[..j], s[j..], p);
    assert s[i] in s[..j];
    assert s[j] in s[j..];
    assert s[i] in Filter(s[..j], p);
    assert s[j] in Filter(s[j..], p);
  }

  /** When no element from position `k` on satisfies `p`, every survivor of
      the filter lies in the first `k` positions. */
  lemma FilterPrefixBound<T(!new)>(s: seq<T>, p: T -> bool, k: nat)
    requires k <= |s|
    requires forall j :: k <= j < |s| ==> !p(s[j])
    ensures |Filter(s, p)| <= k
  {
    assert s == s[..k] + s[k..];
    FilterAppend(s[..k], s[k..], p);
    FilterNone(s[k..], p);
  }

  /** Filtering with a predicate no element meets returns nothing. */
  lemma {:induction false} FilterNone<T(!new)>(s: seq<T>, p: T -> bool)
    requires forall j :: 0 <= j < |s| ==> !p(s[j])
    ensures Filter(s, p) == []
    decreases |s|
  {
    if s != [] {
      FilterNone(s[1..], p);
    }
  }

  /** When every element of the first `k` positions satisfies `p`, at least
      `k` elements survive the filter. */
  lemma FilterPrefixLowerBound<T(!new)>(s: seq<T>, p: T -> bool, k: nat)
    requires k <= |s|
    requires forall j :: 0 <= j < k ==> p(s[j])
    ensures |Filter(s, p)| >= k
  {
    assert s == s[..k] + s[k..];
    FilterAppend(s[..k], s[k..], p);
    FilterAll(s[..k], p);
  }

  /** Filtering twice is filtering once with both conditions. */
  lemma {:induction false} FilterFilter<T(!new)>(s: seq<T>, p: T -> bool, q: T -> bool, pq: T -> bool)
    requires forall x :: pq(x) == (p(x) && q(x))
    ensures Filter(Filter(s, p), q) == Filter(s, pq)
    decreases |s|
  {
    if s != [] {
      assert s == [s[0]] + s[1..];
      FilterFilter(s[1..], p, q, pq);
      if p(s[0]) {
        var f := Filter(s, p);
        assert f == [s[0]] + Filter(s[1..], p);
        assert f[0] == s[0] && f[1..] == Filter(s[1..], p);
      }
    }
  }

  // ---------------------------------------------------------------------
  // First match (pandas `.iloc[0]` / `.index[0]` on a filtered frame)
  // ---------------------------------------------------------------------

  /** The position of the first element of `s` that satisfies `p`. */
  function FirstIndex<T>(s: seq<T>, p: T -> bool): (r: Option<nat>)
    ensures r.Some? ==> r.value < |s| && p(s[r.value])
    ensures r.Some? ==> forall j :: 0 <= j < r.value ==> !p(s[j])
    ensures r.None? <==> forall j :: 0 <= j < |s| ==> !p(s[j])
    decreases |s|
  {
    if s == [] then None
    else if p(s[0]) then Some(0)
    else match FirstIndex(s[1..], p)
      case None => None
      case Some(k) => Some(k + 1)
  }

  /** The first element of `s` that satisfies `p`. */
  function First<T(!new)>(s: seq<T>, p: T -> bool): (r: Option<T>)
    ensures r.Some? ==> r.value in s && p(r.value)
    ensures r.Some? ==> exists k :: 0 <= k < |s| && s[k] == r.value && forall j :: 0 <= j < k ==> !p(s[j])
    ensures r.None? <==> forall x :: x in s ==> !p(x)
  {
    match FirstIndex(s, p)
    case None => None
    case Some(k) => Some(s[k])
  }

  /** The first element of a filtered sequence satisfying `q` is the first
      element of the whole sequence satisfying both conditions. */
  lemma {:induction false} FirstOfFilter<T(!new)>(s: seq<T>, p: T -> bool, q: T -> bool, pq: T -> bool)
    requires forall x :: pq(x) == (p(x) && q(x))
    ensures First(Filter(s, p), q) == First(s, pq)
    decreases |s|
  {
    if s != [] {
      assert s == [s[0]] + s[1..];
      FirstOfFilter(s[1..], p, q, pq);
      var f := Filter(s, p);
      if p(s[0]) {
        assert f == [s[0]] + Filter(s[1..], p);
        assert f[0] == s[0] && f[1..] == Filter(s[1..], p);
        FirstCons(f, q);
      } else {
        assert f == Filter(s[1..], p);
      }
      FirstCons(s, pq);
    }
  }

  /** `First` on a non-empty sequence looks at the head, then the tail. */
  lemma FirstCons<T(!new)>(s: seq<T>, p: T -> bool)
    requires s != []
    ensures First(s, p) == if p(s[0]) then Some(s[0]) else First(s[1..], p)
  {
    if !p(s[0]) {
      match FirstIndex(s[1..], p)
      case None =>
      case Some(k) => assert s[k + 1] == s[1..][k];
    }
  }

  // ---------------------------------------------------------------------
  // Mapping a fallible step over a sequence (a Python `for` loop whose body
  // may raise: the first failure in loop order aborts the whole loop)
  // ---------------------------------------------------------------------

  function Traverse<A, B, E>(xs: seq<A>, f: A -> Result<B, E>): (r: Result<seq<B>, E>)
    ensures r.Ok? <==> forall i :: 0 <= i < |xs| ==> f(xs[i]).Ok?
    ensures r.Ok? ==> |r.value| == |xs| && forall i :: 0 <= i < |xs| ==> f(xs[i]) == Ok(r.value[i])
    ensures r.Err? ==> exists k :: 0 <= k < |xs| && f(xs[k]) == Err(r.error) && forall j :: 0 <= j < k ==> f(xs[j]).Ok?
    decreases |xs|
  {
    if xs == [] then Ok([])
    else match f(xs[0])
      case Err(e) => Err(e)
      case Ok(y) =>
        match Traverse(xs[1..], f)
        case Err(e) =>
          assert forall j :: 1 <= j < |xs| ==> xs[j] == xs[1..][j - 1];
          Err(e)
        case Ok(ys) =>
          assert forall j :: 1 <= j < |xs| ==> xs[j] == xs[1..][j - 1];
          Ok([y] + ys)
  }

  /** A loop every step of which succeeds returns the steps' values. */
  lemma TraverseAllOk<A, B, E>(xs: seq<A>, f: A -> Result<B, E>, ys: seq<B>)
    requires |ys| == |xs| && forall j :: 0 <= j < |xs| ==> f(xs[j]) == Ok(ys[j])
    ensures Traverse(xs, f) == Ok(ys)
  {
    var r := Traverse(xs, f);
    assert r.Ok?;
    assert forall j :: 0 <= j < |xs| ==> r.value[j] == ys[j];
    assert r.value == ys;
  }

  /** One more successful step extends the values of the steps so far. */
  lemma TraverseExtend<A, B, E>(xs: seq<A>, f: A -> Result<B, E>, ys: seq<B>, y: B)
    requires |ys| < |xs| && f(xs[|ys|]) == Ok(y)
    requires forall j :: 0 <= j < |ys| ==> f(xs[j]) == Ok(ys[j])
    ensures forall j :: 0 <= j < |ys| + 1 ==> f(xs[j]) == Ok((ys + [y])[j])
  {
  }

  /** A loop whose steps succeed up to `i` and fail at `i` fails with that
      step's error. */
  lemma TraverseFailsAt<A, B, E>(xs: seq<A>, f: A -> Result<B, E>, i: nat, e: E)
    requires i < |xs| && f(xs[i]) == Err(e)
    requires forall j :: 0 <= j < i ==> f(xs[j]).Ok?
    ensures Traverse(xs, f) == Err(e)
  {
    var r := Traverse(xs, f);
    assert r.Err?;
    var k :| 0 <= k < |xs| && f(xs[k]) == Err(r.error) && forall j :: 0 <= j < k ==> f(xs[j]).Ok?;
    assert k == i;
  }

  /** The present entries of a list in which absent ones are `None`
      (`[m for m in xs if m is not None]`). */
  function Somes<T>(xs: seq<Option<T>>): (r: seq<T>)
    decreases |xs|
  {
    if xs == [] then []
    else match xs[0]
      case None => Somes(xs[1..])
      case Some(x) => [x] + Somes(xs[1..])
  }

  /** Dropping the absent entries keeps exactly the present payloads: each
      kept value was present, and each present one is kept. */
  lemma {:induction false} SomesSpec<T>(xs: seq<Option<T>>)
    ensures |Somes(xs)| <= |xs|
    ensures forall i :: 0 <= i < |Somes(xs)| ==> Some(Somes(xs)[i]) in xs
    ensures forall i :: 0 <= i < |xs| && xs[i].Some? ==> xs[i].value in Somes(xs)
    decreases |xs|
  {
    if xs != [] {
      SomesSpec(xs[1..]);
      var r := Somes(xs);
      var t := Somes(xs[1..]);
      assert r == if xs[0].Some? then [xs[0].value] + t else t;
      forall i | 0 <= i < |r|
        ensures Some(r[i]) in xs
      {
        if xs[0].Some? && i == 0 {
        } else {
          var j := if xs[0].Some? then i - 1 else i;
          assert r[i] == t[j];
          assert Some(t[j]) in xs[1..];
        }
      }
      forall i | 0 <= i < |xs| && xs[i].Some?
        ensures xs[i].value in r
      {
        if i > 0 {
          assert xs[1..][i - 1] == xs[i];
        }
      }
    }
  }

  // ---------------------------------------------------------------------
  // Strings
  // ---------------------------------------------------------------------

  predicate StartsWith(s: string, prefix: string) {
    |prefix| <= |s| && s[..|prefix|] == prefix
  }

  /** Python's `t in s` for strings: `t` occurs somewhere in `s`. */
  predicate IsSubstring(t: string, s: string) {
    exists i :: 0 <= i <= |s| && OccursAt(t, s, i)
  }

  predicate OccursAt(t: string, s: string, i: int) {
    0 <= i <= |s| - |t| && s[i..i + |t|] == t
  }

  /** A pattern whose first character never occurs in `s` is not in `s`. */
  lemma AbsentFirstChar(t: string, s: string)
    requires |t| > 0 && t[0] !in s
    ensures !IsSubstring(t, s)
  {
    forall i ensures !OccursAt(t, s, i) {
      if 0 <= i <= |s| - |t| {
        assert s[i..i + |t|][0] == s[i];
      }
    }
  }

  /** A pattern that does not start at position 0 of `s` and whose first
      character is absent from the rest of `s` is not in `s`. */
  lemma AbsentAfterFirst(t: string, s: string)
    requires 2 <= |t| <= |s| && s[1] != t[1] && forall i :: 1 <= i < |s| ==> s[i] != t[0]
    ensures !IsSubstring(t, s)
  {
    forall i ensures !OccursAt(t, s, i) {
      if i < 0 || i > |s| - |t| {
      } else if i == 0 {
        assert s[..|t|][1] == s[1];
      } else {
        assert s[i..i + |t|][0] == s[i];
      }
    }
  }

  /** A pattern longer than `s` is not in `s`. */
  lemma LongerNotSubstring(t: string, s: string)
    requires |s| < |t|
    ensures !IsSubstring(t, s)
  {
  }

  lemma SelfSubstring(s: string)
    ensures IsSubstring(s, s)
  {
    assert s[0..0 + |s|] == s;
    assert OccursAt(s, s, 0);
  }

  /** Python's `s.replace(a, b)` for a one-character pattern and replacement. */
  function ReplaceChar(s: string, a: char, b: char): (r: string)
    ensures |r| == |s|
    ensures forall i :: 0 <= i < |s| ==> r[i] == if s[i] == a then b else s[i]
  {
    seq(|s|, i requires 0 <= i < |s| => if s[i] == a then b else s[i])
  }

  /** Replacing a character the string does not hold changes nothing. */
  lemma ReplaceAbsent(s: string, a: char, b: char)
    requires a !in s
    ensures ReplaceChar(s, a, b) == s
  {
    var r := ReplaceChar(s, a, b);
    forall i | 0 <= i < |s| ensures r[i] == s[i] {
      assert s[i] in s;
    }
  }

  /** Replacing the single occurrence of a character. */
  lemma ReplaceSingle(p: string, q: string, a: char, b: char)
    requires a !in p && a !in q
    ensures ReplaceChar(p + [a] + q, a, b) == p + [b] + q
  {
    var s := p + [a] + q;
    var r := ReplaceChar(s, a, b);
    forall i | 0 <= i < |s| ensures r[i] == (p + [b] + q)[i] {
      if i < |p| {
        assert s[i] == p[i] && p[i] in p;
      } else if i > |p| {
        assert s[i] == q[i - |p| - 1] && q[i - |p| - 1] in q;
      }
    }
  }

  /** `str.lower()` on one character, for ASCII and Latin-1 letters:
      A-Z and À-Þ (except the sign ×) go to their lower-case forms. */
  function LowerChar(c: char): (d: char)
    ensures d == c || ('A' <= c <= 'Z' || 'À' <= c <= 'Þ')
  {
    if 'A' <= c <= 'Z' || ('À' <= c <= 'Þ' && c != '×') then (c as int + 32) as char else c
  }

  /** `str.lower()` character by character. */
  function Lower(s: string): (r: string)
    ensures |r| == |s|
    ensures forall i :: 0 <= i < |s| ==> r[i] == LowerChar(s[i])
  {
    seq(|s|, i requires 0 <= i < |s| => LowerChar(s[i]))
  }

  /** Lower-casing twice is lower-casing once. */
  lemma LowerIdempotent(s: string)
    ensures Lower(Lower(s)) == Lower(s)
  {
    var r := Lower(s);
    forall i | 0 <= i < |s| ensures LowerChar(r[i]) == r[i] {
      LowerCharIdempotent(s[i]);
    }
  }

  lemma LowerCharIdempotent(c: char)
    ensures LowerChar(LowerChar(c)) == LowerChar(c)
  {
  }

  function DigitChar(d: nat): (c: char)
    requires d < 10
    ensures '0' <= c <= '9'
  {
    ['0', '1', '2', '3', '4', '5', '6', '7', '8', '9'][d]
  }

  /** Decimal rendering of a natural number, as Python's `str` or an f-string
      renders an integer. */
  function NatToString(n: nat): (r: string)
    ensures |r| > 0
    ensures forall i :: 0 <= i < |r| ==> '0' <= r[i] <= '9'
    decreases n
  {
    if n < 10 then [DigitChar(n)] else NatToString(n / 10) + [DigitChar(n % 10)]
  }

  function DigitValue(c: char): (d: nat)
    requires '0' <= c <= '9'
    ensures d < 10
  {
    c as int - '0' as int
  }

  /** Reads back a string of decimal digits. */
  function ParseNat(s: string): (n: nat)
    requires forall i :: 0 <= i < |s| ==> '0' <= s[i] <= '9'
    decreases |s|
  {
    if s == [] then 0 else 10 * ParseNat(s[..|s| - 1]) + DigitValue(s[|s| - 1])
  }

  lemma {:induction false} ParseNatToString(n: nat)
    ensures ParseNat(NatToString(n)) == n
    decreases n
  {
    if n >= 10 {
      var s := NatToString(n);
      assert s[..|s| - 1] == NatToString(n / 10);
      ParseNatToString(n / 10);
    }
  }

  /** Distinct numbers render as distinct strings. */
  lemma NatToStringInjective(m: nat, n: nat)
    requires NatToString(m) == NatToString(n)
    ensures m == n
  {
    ParseNatToString(m);
    ParseNatToString(n);
  }
}
