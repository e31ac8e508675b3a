/** The per-date ranking: the rows of one date sorted in descending order
    on a metric, a team's rank being its 1-based position.

    The dashboard sorts with pandas' default (non-stable) sort, so the order
    of tied rows is not determined. The lemmas below are therefore stated for
    EVERY arrangement of the day's rows that is a permutation sorted in
    descending order (`IsRanking`); `SortDesc`, the arrangement the model
    computes, is a stable insertion sort and is one of them. */
module Ranking {
  import opened Common
  import opened Stats

  /** `stats[stats['Date'] == fecha]`. */
  function DayRows(t: StatsTable, date: string): (r: seq<StatsRow>)
    ensures forall x :: x in r <==> x in t.rows && x.date == date
  {
    Filter(t.rows, (x: StatsRow) => x.date == date)
  }

  ghost predicate HasColumn(s: seq<StatsRow>, col: string) {
    forall x :: x in s ==> col in x.values
  }

  ghost predicate Descending(s: seq<StatsRow>, col: string)
    requires HasColumn(s, col)
  {
    forall i, j :: 0 <= i < j < |s| ==> s[i].values[col] >= s[j].values[col]
  }

  /** `s` is a possible result of sorting `day` in descending order on `col`. */
  ghost predicate IsRanking(s: seq<StatsRow>, day: seq<StatsRow>, col: string) {
    && HasColumn(day, col)
    && multiset(s) == multiset(day)
    && HasColumn(s, col)
    && Descending(s, col)
  }

  function Insert(x: StatsRow, s: seq<StatsRow>, col: string): (r: seq<StatsRow>)
    requires col in x.values && HasColumn(s, col) && Descending(s, col)
    ensures multiset(r) == multiset(s) + multiset{x}
    ensures HasColumn(r, col) && Descending(r, col)
    decreases |s|
  {
    if s == [] then [x]
    else if x.values[col] >= s[0].values[col] then
      DescendingCons(x, s, col);
      [x] + s
    else
      assert s == [s[0]] + s[1..];
      var rest := Insert(x, s[1..], col);
      HeadDominates(s, col);
      assert s[0].values[col] >= x.values[col];
      DominatesInsert(s[0].values[col], x, s[1..], rest, col);
      DescendingCons(s[0], rest, col);
      [s[0]] + rest
  }

  /** Every element of `rest` that is not `x` comes from `s`, so a bound on
      `x` and on `s` bounds `rest`. */
  lemma DominatesInsert(v: real, x: StatsRow, s: seq<StatsRow>, rest: seq<StatsRow>, col: string)
    requires col in x.values && HasColumn(s, col) && HasColumn(rest, col)
    requires multiset(rest) == multiset(s) + multiset{x}
    requires v >= x.values[col] && forall y :: y in s ==> v >= y.values[col]
    ensures forall k :: 0 <= k < |rest| ==> v >= rest[k].values[col]
  {
    forall k | 0 <= k < |rest| ensures v >= rest[k].values[col] {
      assert rest[k] in multiset(rest);
    }
  }

  lemma HeadDominates(s: seq<StatsRow>, col: string)
    requires s != [] && HasColumn(s, col) && Descending(s, col)
    ensures forall y :: y in s[1..] ==> s[0].values[col] >= y.values[col]
  {
    forall y | y in s[1..] ensures s[0].values[col] >= y.values[col] {
      var j :| 0 <= j < |s[1..]| && s[1..][j] == y;
      assert s[j + 1] == y;
    }
  }

  lemma DescendingCons(h: StatsRow, s: seq<StatsRow>, col: string)
    requires col in h.values && HasColumn(s, col) && Descending(s, col)
    requires (s != [] ==> h.values[col] >= s[0].values[col])
    ensures HasColumn([h] + s, col) && Descending([h] + s, col)
  {
    var r := [h] + s;
    assert forall y :: y in r ==> y == h || y in s;
    forall i, j | 0 <= i < j < |r| ensures r[i].values[col] >= r[j].values[col] {
      if i == 0 {
        assert r[j] == s[j - 1];
        assert s[0] in s && s[j - 1] in s;
      } else {
        assert r[i] == s[i - 1] && r[j] == s[j - 1];
      }
    }
  }

  /** The day's rows sorted in descending order on `col` (`sort_values(by=col,
      ascending=False)`), ties kept in load order. */
  function SortDesc(s: seq<StatsRow>, col: string): (r: seq<StatsRow>)
    requires HasColumn(s, col)
    ensures IsRanking(r, s, col)
    decreases |s|
  {
    if s == [] then []
    else
      assert s == [s[0]] + s[1..];
      Insert(s[0], SortDesc(s[1..], col), col)
  }

  /** `ranking[ranking['Team'] == team].index[0]`: the position of the
      team's first row. */
  function Position(s: seq<StatsRow>, team: string): (r: Option<nat>)
    ensures r.Some? ==> r.value < |s| && s[r.value].team == team
    ensures r.Some? ==> forall j :: 0 <= j < r.value ==> s[j].team != team
    ensures r.None? <==> forall j :: 0 <= j < |s| ==> s[j].team != team
  {
    FirstIndex(s, (x: StatsRow) => x.team == team)
  }

  /** How many of the rows are above `v` on `col`, and how many at least `v`. */
  function Above(col: string, v: real): StatsRow -> bool {
    (x: StatsRow) => col in x.values && x.values[col] > v
  }

  function AtLeast(col: string, v: real): StatsRow -> bool {
    (x: StatsRow) => col in x.values && x.values[col] >= v
  }

  function OfTeam(team: string): StatsRow -> bool {
    (x: StatsRow) => x.team == team
  }

  function CountAbove(s: seq<StatsRow>, col: string, v: real): nat {
    |Filter(s, Above(col, v))|
  }

  function CountAtLeast(s: seq<StatsRow>, col: string, v: real): nat {
    |Filter(s, AtLeast(col, v))|
  }

  function CountTeam(s: seq<StatsRow>, team: string): nat {
    |Filter(s, OfTeam(team))|
  }

  /** Each team has at most one row among `s`. */
  ghost predicate TeamsUnique(s: seq<StatsRow>) {
    forall team :: CountTeam(s, team) <= 1
  }

  /** A team's rank on a date and metric: its 1-based position among that
      date's rows sorted in descending order on the metric. It fails when the
      column does not exist (KeyError in the sort) or the team has no row on
      that date (IndexError in `.index[0]`). */
  function RankOf(t: StatsTable, date: string, col: string, team: string): (r: Result<nat, Error>)
    requires WellFormed(t)
    ensures r.Err? && col !in t.columns ==> r.error == MissingColumn(col)
    ensures r.Err? && col in t.columns ==> r.error == NotFound(team)
  {
    if col !in t.columns then Err(MissingColumn(col))
    else
      match Position(SortDesc(DayRows(t, date), col), team)
      case None => Err(NotFound(team))
      case Some(i) => Ok(i + 1)
  }

  /** A rank lies between 1 and the number of rows that day; on an existing
      column the lookup fails exactly when the team has no row that day. */
  lemma RankOfSpec(t: StatsTable, date: string, col: string, team: string)
    requires WellFormed(t)
    ensures var r := RankOf(t, date, col, team);
      && (r.Err? <==> col !in t.columns || forall x :: x in DayRows(t, date) ==> x.team != team)
      && (r.Ok? ==> 1 <= r.value <= |DayRows(t, date)|)
  {
    if col in t.columns {
      var day := DayRows(t, date);
      var s := SortDesc(day, col);
      assert |s| == |multiset(s)| == |multiset(day)| == |day|;
      match Position(s, team)
      case None =>
        assert forall x :: x in day ==> x in multiset(s);
      case Some(i) =>
        assert s[i] in multiset(day);
    }
  }

  /** The rows of one date of a well-formed table all have its columns. */
  lemma DayRowsHaveColumns(t: StatsTable, date: string, col: string)
    requires WellFormed(t) && col in t.columns
    ensures HasColumn(DayRows(t, date), col)
  {
  }

  // ---------------------------------------------------------------------
  // Properties of every descending arrangement
  // ---------------------------------------------------------------------

  /** A row strictly above another on the metric has a strictly smaller
      position, whatever the order of ties. */
  lemma HigherValueEarlier(s: seq<StatsRow>, day: seq<StatsRow>, col: string, a: string, b: string)
    requires IsRanking(s, day, col)
    requires Position(s, a).Some? && Position(s, b).Some?
    requires s[Position(s, a).value].values[col] > s[Position(s, b).value].values[col]
    ensures Position(s, a).value < Position(s, b).value
  {
  }

  /** Competition bounds on a position, independent of the order of ties: the
      row at position `i` comes after every row strictly above its value and
      no later than the last row with at least its value. Without ties at
      that value the rank is exactly one more than the number of rows above. */
  lemma RankTieBounds(s: seq<StatsRow>, day: seq<StatsRow>, col: string, i: nat)
    requires IsRanking(s, day, col) && i < |s|
    ensures CountAbove(day, col, s[i].values[col]) <= i
    ensures i + 1 <= CountAtLeast(day, col, s[i].values[col])
  {
    var v := s[i].values[col];
    CountsArePermutationInvariant(s, day, col, v);
    AboveOnlyBefore(s, col, i);
    AtLeastUpTo(s, col, i);
  }

  lemma CountsArePermutationInvariant(s: seq<StatsRow>, day: seq<StatsRow>, col: string, v: real)
    requires multiset(s) == multiset(day)
    ensures CountAbove(s, col, v) == CountAbove(day, col, v)
    ensures CountAtLeast(s, col, v) == CountAtLeast(day, col, v)
  {
    FilterPermutation(s, day, Above(col, v));
    FilterPermutation(s, day, AtLeast(col, v));
  }

  lemma AboveOnlyBefore(s: seq<StatsRow>, col: string, i: nat)
    requires i < |s| && HasColumn(s, col) && Descending(s, col)
    ensures CountAbove(s, col, s[i].values[col]) <= i
  {
    var v := s[i].values[col];
    var above := Above(col, v);
    forall j | i <= j < |s| ensures !above(s[j]) {
      assert s[j] in s;
    }
    FilterPrefixBound(s, above, i);
  }

  lemma AtLeastUpTo(s: seq<StatsRow>, col: string, i: nat)
    requires i < |s| && HasColumn(s, col) && Descending(s, col)
    ensures i + 1 <= CountAtLeast(s, col, s[i].values[col])
  {
    var v := s[i].values[col];
    var atLeast := AtLeast(col, v);
    forall j | 0 <= j < i + 1 ensures atLeast(s[j]) {
      assert s[j] in s;
    }
    FilterPrefixLowerBound(s, atLeast, i + 1);
  }

  /** When every team plays at most once that day, the ranks of the day's
      teams are exactly 1..n: the team at each position has that position as
      its rank, and different teams get different ranks. */
  lemma RanksArePermutation(s: seq<StatsRow>, day: seq<StatsRow>, col: string)
    requires IsRanking(s, day, col) && TeamsUnique(day)
    ensures forall i :: 0 <= i < |s| ==> Position(s, s[i].team) == Some(i)
    ensures forall a, b :: a != b && Position(s, a).Some? && Position(s, b).Some? ==> Position(s, a) != Position(s, b)
  {
    forall i | 0 <= i < |s| ensures Position(s, s[i].team) == Some(i) {
      var team := s[i].team;
      var j := Position(s, team).value;
      if j < i {
        TeamTwice(s, day, team, j, i);
        assert false;
      }
    }
  }

  /** A team occurring at two positions of a permutation of `day` occurs
      twice in `day`. */
  lemma TeamTwice(s: seq<StatsRow>, day: seq<StatsRow>, team: string, j: nat, i: nat)
    requires multiset(s) == multiset(day)
    requires j < i < |s| && s[j].team == team && s[i].team == team
    ensures CountTeam(day, team) >= 2
  {
    FilterTwoPositions(s, OfTeam(team), j, i);
    FilterPermutation(s, day, OfTeam(team));
  }

  // ---------------------------------------------------------------------
  // The same properties for RankOf
  // ---------------------------------------------------------------------

  /** A team's rank lies between one more than the number of the day's rows
      above its value and the number of the day's rows with at least its
      value. */
  lemma RankOfBounds(t: StatsTable, date: string, col: string, team: string)
    requires WellFormed(t) && col in t.columns
    requires RankOf(t, date, col, team).Ok?
    ensures var day := DayRows(t, date);
      var r := RankOf(t, date, col, team).value;
      exists x :: x in day && x.team == team
        && CountAbove(day, col, x.values[col]) < r <= CountAtLeast(day, col, x.values[col])
  {
    var day := DayRows(t, date);
    var s := SortDesc(day, col);
    var i := Position(s, team).value;
    RankTieBounds(s, day, col, i);
    assert s[i] in multiset(day);
  }

  /** On one date and metric, a team whose row has a strictly greater value
      has a strictly smaller rank. */
  lemma RankOfHigherValueBetter(t: StatsTable, date: string, col: string, xa: StatsRow, xb: StatsRow)
    requires WellFormed(t) && col in t.columns
    requires TeamsUnique(DayRows(t, date))
    requires xa in DayRows(t, date) && xb in DayRows(t, date)
    requires xa.values[col] > xb.values[col]
    ensures RankOf(t, date, col, xa.team).Ok? && RankOf(t, date, col, xb.team).Ok?
    ensures RankOf(t, date, col, xa.team).value < RankOf(t, date, col, xb.team).value
  {
    var day := DayRows(t, date);
    DayRowsHaveColumns(t, date, col);
    var s := SortDesc(day, col);
    HigherValueBetter(s, day, col, xa, xb);
    RankOfAt(t, date, col, xa.team, s, Position(s, xa.team));
    RankOfAt(t, date, col, xb.team, s, Position(s, xb.team));
  }

  /** The same for any descending arrangement of the day's rows. */
  lemma HigherValueBetter(s: seq<StatsRow>, day: seq<StatsRow>, col: string, xa: StatsRow, xb: StatsRow)
    requires IsRanking(s, day, col) && TeamsUnique(day)
    requires xa in day && xb in day && xa.values[col] > xb.values[col]
    ensures Position(s, xa.team).Some? && Position(s, xb.team).Some?
    ensures Position(s, xa.team).value < Position(s, xb.team).value
  {
    RanksArePermutation(s, day, col);
    assert xa in multiset(s) && xb in multiset(s);
    var ia :| 0 <= ia < |s| && s[ia] == xa;
    var ib :| 0 <= ib < |s| && s[ib] == xb;
    assert Position(s, xa.team) == Some(ia);
    assert Position(s, xb.team) == Some(ib);
    HigherValueEarlier(s, day, col, xa.team, xb.team);
  }

  /** When every team plays at most once that day, the ranks of that day's
      teams are distinct and cover 1..n. */
  lemma RankOfCoversDay(t: StatsTable, date: string, col: string)
    requires WellFormed(t) && col in t.columns
    requires TeamsUnique(DayRows(t, date))
    ensures forall k :: 1 <= k <= |DayRows(t, date)| ==> RankTaken(t, date, col, k)
  {
    var day := DayRows(t, date);
    DayRowsHaveColumns(t, date, col);
    var s := SortDesc(day, col);
    PositionsCoverDay(s, day, col);
    forall k | 1 <= k <= |day| ensures RankTaken(t, date, col, k) {
      var x := s[k - 1];
      RankOfAt(t, date, col, x.team, s, Position(s, x.team));
      RankTakenBy(t, date, col, k, x);
    }
  }

  lemma RankTakenBy(t: StatsTable, date: string, col: string, k: nat, x: StatsRow)
    requires WellFormed(t) && x in DayRows(t, date) && RankOf(t, date, col, x.team) == Ok(k)
    ensures RankTaken(t, date, col, k)
  {
  }

  /** Some team playing that day has rank `k`. */
  ghost predicate RankTaken(t: StatsTable, date: string, col: string, k: nat)
    requires WellFormed(t)
  {
    exists x :: x in DayRows(t, date) && RankOf(t, date, col, x.team) == Ok(k)
  }

  /** The same for any descending arrangement of the day's rows. */
  lemma PositionsCoverDay(s: seq<StatsRow>, day: seq<StatsRow>, col: string)
    requires IsRanking(s, day, col) && TeamsUnique(day)
    ensures |s| == |day|
    ensures forall k :: 0 <= k < |s| ==> s[k] in day && Position(s, s[k].team) == Some(k)
  {
    RanksArePermutation(s, day, col);
    assert |s| == |multiset(s)| == |multiset(day)| == |day|;
    forall k | 0 <= k < |s| ensures s[k] in day {
      assert s[k] in multiset(day);
    }
  }

  /** Different teams get different ranks (whether or not either has one). */
  lemma RankOfDistinct(t: StatsTable, date: string, col: string, a: string, b: string)
    requires WellFormed(t) && col in t.columns && a != b
    ensures RankOf(t, date, col, a).Ok? && RankOf(t, date, col, b).Ok? ==>
      RankOf(t, date, col, a).value != RankOf(t, date, col, b).value
  {
  }

  // ---------------------------------------------------------------------
  // Ranking table rows
  // ---------------------------------------------------------------------

  /** A rank as the tables print it: `f"{pos}º"`. */
  function Ordinal(n: nat): (r: string)
    ensures |r| >= 2 && r[|r| - 1] == 'º'
  {
    NatToString(n) + "º"
  }

  /** One ranking row: the metric label and both teams' ranks. */
  function RankingRow(m: Metric, t: StatsTable, date: string, local: string, visitante: string): (r: Result<Row, Error>)
    requires WellFormed(t)
  {
    match RankOf(t, date, m.column, local)
    case Err(e) => Err(e)
    case Ok(pl) =>
      match RankOf(t, date, m.column, visitante)
      case Err(e) => Err(e)
      case Ok(pv) => Ok(Row(m.name, Text(Ordinal(pl)), Text(Ordinal(pv))))
  }

  /** The body of the ranking loop for one metric: select the date's rows,
      sort them on the metric, and look both teams up. */
  method RankingEntry(m: Metric, t: StatsTable, fecha: string, local: string, visitante: string)
    returns (r: Result<Row, Error>)
    requires WellFormed(t)
    ensures r == RankingRow(m, t, fecha, local, visitante)
  {
    var partidos := DayRows(t, fecha);
    if m.column !in t.columns {
      return Err(MissingColumn(m.column));
    }
    DayRowsHaveColumns(t, fecha, m.column);
    var ranking := SortDesc(partidos, m.column);
    var posLocal := Position(ranking, local);
    var posVisitante := Position(ranking, visitante);
    RankOfAt(t, fecha, m.column, local, ranking, posLocal);
    RankOfAt(t, fecha, m.column, visitante, ranking, posVisitante);
    if posLocal.None? {
      return Err(NotFound(local));
    }
    if posVisitante.None? {
      return Err(NotFound(visitante));
    }
    return Ok(Row(m.name, Text(Ordinal(posLocal.value + 1)), Text(Ordinal(posVisitante.value + 1))));
  }

  /** On an existing column, a rank is read off the sorted day's rows. */
  lemma RankOfAt(t: StatsTable, date: string, col: string, team: string, s: seq<StatsRow>, p: Option<nat>)
    requires WellFormed(t) && col in t.columns
    requires HasColumn(DayRows(t, date), col) && s == SortDesc(DayRows(t, date), col)
    requires p == Position(s, team)
    ensures p.None? ==> RankOf(t, date, col, team) == Err(NotFound(team))
    ensures p.Some? ==> RankOf(t, date, col, team) == Ok(p.value + 1)
  {
  }

  /** The body rows of the ranking table, one per present ranking metric. */
  function RankingRows(t: StatsTable, date: string, local: string, visitante: string): Result<seq<Row>, Error>
    requires WellFormed(t)
  {
    Traverse(RankingMetrics(t.columns), RankingStep(t, date, local, visitante))
  }

  function RankingStep(t: StatsTable, date: string, local: string, visitante: string): Metric -> Result<Row, Error>
    requires WellFormed(t)
  {
    (m: Metric) => RankingRow(m, t, date, local, visitante)
  }

  /** The ranking table has one row per present ranking metric, in catalog
      order; each cell is the team's rank on that metric rendered as `<n>º`.
      It fails exactly when a metric's column is missing or either team did
      not play on that date. */
  lemma RankingRowsSpec(t: StatsTable, date: string, local: string, visitante: string)
    requires WellFormed(t)
    ensures var ms := RankingMetrics(t.columns);
      var r := RankingRows(t, date, local, visitante);
      && (r.Ok? <==> forall i :: 0 <= i < |ms| ==>
            RankOf(t, date, ms[i].column, local).Ok? && RankOf(t, date, ms[i].column, visitante).Ok?)
      && (r.Ok? ==> |r.value| == |ms| && forall i :: 0 <= i < |ms| ==>
            && r.value[i].caption == ms[i].name
            && r.value[i].home == Text(Ordinal(RankOf(t, date, ms[i].column, local).value))
            && r.value[i].away == Text(Ordinal(RankOf(t, date, ms[i].column, visitante).value)))
  {
    RankingRowsOver(t, date, local, visitante, RankingMetrics(t.columns));
  }

  /** The same for the rows of any list of metrics. */
  lemma RankingRowsOver(t: StatsTable, date: string, local: string, visitante: string, ms: seq<Metric>)
    requires WellFormed(t)
    ensures var r := Traverse(ms, RankingStep(t, date, local, visitante));
      && (r.Ok? <==> forall i :: 0 <= i < |ms| ==>
            RankOf(t, date, ms[i].column, local).Ok? && RankOf(t, date, ms[i].column, visitante).Ok?)
      && (r.Ok? ==> |r.value| == |ms| && forall i :: 0 <= i < |ms| ==>
            && r.value[i].caption == ms[i].name
            && r.value[i].home == Text(Ordinal(RankOf(t, date, ms[i].column, local).value))
            && r.value[i].away == Text(Ordinal(RankOf(t, date, ms[i].column, visitante).value)))
  {
    var f := RankingStep(t, date, local, visitante);
    var r := Traverse(ms, f);
    assert forall i :: 0 <= i < |ms| ==> f(ms[i]) == RankingRow(ms[i], t, date, local, visitante);
    if r.Ok? {
      forall i | 0 <= i < |ms|
        ensures r.value[i].home == Text(Ordinal(RankOf(t, date, ms[i].column, local).value))
        ensures r.value[i].away == Text(Ordinal(RankOf(t, date, ms[i].column, visitante).value))
      {
        assert RankingRow(ms[i], t, date, local, visitante) == Ok(r.value[i]);
      }
    }
  }
}
