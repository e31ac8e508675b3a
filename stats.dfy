/** The data model of the two loaded tables (the match schedule and the
    season statistics), the metric catalogs, the cell formatting rule of
    the general-metrics table, and the row lookups every view shares. */
module Stats {
  import opened Common

  /** One row of the schedule table: a fixture and its teams, date and round. */
  datatype Fixture = Fixture(matchName: string, home: string, away: string, date: string, round: nat)

  /** One row of the statistics table: one team's numbers for one match.
      The numeric columns (Goals, xG, Possession, ...) are a map from column
      name to value. */
  datatype StatsRow = StatsRow(matchName: string, team: string, date: string, values: map<string, real>)

  /** The statistics table: its numeric column names and its rows in load order. */
  datatype StatsTable = StatsTable(columns: set<string>, rows: seq<StatsRow>)

  /** Every row of a data frame has the frame's columns. */
  ghost predicate WellFormed(t: StatsTable) {
    forall r :: r in t.rows ==> r.values.Keys == t.columns
  }

  /** KeyError on a column, IndexError on an empty selection. */
  datatype Error = MissingColumn(column: string) | NotFound(key: string)

  /** A catalog entry: the label shown in a table and the column it reads. */
  datatype Metric = Metric(name: string, column: string)

  /** A table cell: text, a value passed through as read, or a value shown
      with a `%` suffix. */
  datatype Cell = Text(text: string) | Value(v: real) | Percent(v: real)

  /** One table row: the metric label, then the home and the away cell. */
  datatype Row = Row(caption: string, home: Cell, away: Cell)

  /** A dashboard table: its header row and its body rows. */
  datatype Table = Table(header: Row, body: seq<Row>)

  /** Both table builders start with this header row. */
  function HeaderRow(local: string, visitante: string): Row {
    Row("Métrica", Text(local), Text(visitante))
  }

  // ---------------------------------------------------------------------
  // Metric catalogs
  // ---------------------------------------------------------------------

  /** The 9 metrics of the general table (app.py:37-47, utils/pdf_report.py:15-25). */
  const GeneralMetrics: seq<Metric> := [
    Metric("xG", "xG"),
    Metric("Posesión", "Possession"),
    Metric("Field Tilt", "Field Tilt"),
    Metric("Pass in Opp. Half", "Passes in Opposition Half"),
    Metric("PPDA", "PPDA"),
    Metric("High Recovery", "High Recoveries"),
    Metric("Crosses", "Crosses"),
    Metric("Corners", "Corners"),
    Metric("Fouls", "Fouls")
  ]

  const Goals := Metric("Goles", "Goals")
  const ExpectedGoals := Metric("xG", "xG")
  const ExpectedAssists := Metric("xA", "xA")
  const Assists := Metric("Asistencias", "Assists")
  const Recoveries := Metric("Recuperaciones", "High Recoveries")
  const Fouls := Metric("Faltas", "Fouls")
  const Corners := Metric("Corners", "Corners")

  /** The ranking metrics: xA and Assists only when the table has those
      columns, the entries for absent columns being dropped. */
  function RankingMetrics(columns: set<string>): seq<Metric> {
    Somes([
      Some(Goals),
      Some(ExpectedGoals),
      if "xA" in columns then Some(ExpectedAssists) else None,
      if "Assists" in columns then Some(Assists) else None,
      Some(Recoveries),
      Some(Fouls),
      Some(Corners)
    ])
  }

  /** The ranking list always holds Goals, xG, High Recoveries, Fouls and
      Corners in that order; xA and Assists sit between xG and High
      Recoveries exactly when the table has those columns. */
  lemma RankingMetricsShape(columns: set<string>)
    ensures var ms := RankingMetrics(columns);
      var n := 5 + (if "xA" in columns then 1 else 0) + (if "Assists" in columns then 1 else 0);
      && |ms| == n
      && ms[0] == Goals && ms[1] == ExpectedGoals
      && ms[n - 3..] == [Recoveries, Fouls, Corners]
      && (ExpectedAssists in ms <==> "xA" in columns)
      && (Assists in ms <==> "Assists" in columns)
      && ms[2..n - 3] == (if "xA" in columns then [ExpectedAssists] else []) + (if "Assists" in columns then [Assists] else [])
  {
    var oc := if "xA" in columns then Some(ExpectedAssists) else None;
    var od := if "Assists" in columns then Some(Assists) else None;
    SomesTwoOptional(Goals, ExpectedGoals, oc, od, Recoveries, Fouls, Corners);
    assert ExpectedAssists !in [Goals, ExpectedGoals, Assists, Recoveries, Fouls, Corners] by {
      assert ExpectedAssists.name[1] == 'A';
    }
    assert Assists !in [Goals, ExpectedGoals, Recoveries, Fouls, Corners] by {
      assert |Assists.name| == 11;
    }
  }

  /** The present entries of a seven-entry list whose third and fourth
      entries are optional, in each of the four cases. */
  lemma SomesTwoOptional<T>(a: T, b: T, oc: Option<T>, od: Option<T>, e: T, f: T, g: T)
    ensures var ms := Somes([Some(a), Some(b), oc, od, Some(e), Some(f), Some(g)]);
      && (oc.Some? && od.Some? ==> ms == [a, b, oc.value, od.value, e, f, g])
      && (oc.Some? && od.None? ==> ms == [a, b, oc.value, e, f, g])
      && (oc.None? && od.Some? ==> ms == [a, b, od.value, e, f, g])
      && (oc.None? && od.None? ==> ms == [a, b, e, f, g])
  {
    var x7 := [Some(a), Some(b), oc, od, Some(e), Some(f), Some(g)];
    var x6 := [Some(b), oc, od, Some(e), Some(f), Some(g)];
    var x5 := [oc, od, Some(e), Some(f), Some(g)];
    assert x7[1..] == x6;
    assert x6[1..] == x5;
    var t := Somes(x5);
    SomesOptionalPair(oc, od, e, f, g);
    assert Somes(x7) == [a, b] + t;
  }

  /** The same for the last five entries. */
  lemma SomesOptionalPair<T>(oc: Option<T>, od: Option<T>, e: T, f: T, g: T)
    ensures var ms := Somes([oc, od, Some(e), Some(f), Some(g)]);
      && (oc.Some? && od.Some? ==> ms == [oc.value, od.value, e, f, g])
      && (oc.Some? && od.None? ==> ms == [oc.value, e, f, g])
      && (oc.None? && od.Some? ==> ms == [od.value, e, f, g])
      && (oc.None? && od.None? ==> ms == [e, f, g])
  {
    var x5 := [oc, od, Some(e), Some(f), Some(g)];
    var x4 := [od, Some(e), Some(f), Some(g)];
    var x3 := [Some(e), Some(f), Some(g)];
    assert x5[1..] == x4;
    assert x4[1..] == x3;
    SomesThree(e, f, g);
  }

  lemma SomesThree<T>(e: T, f: T, g: T)
    ensures Somes([Some(e), Some(f), Some(g)]) == [e, f, g]
  {
    var x3 := [Some(e), Some(f), Some(g)];
    var x2 := [Some(f), Some(g)];
    var x1 := [Some(g)];
    assert x3[1..] == x2;
    assert x2[1..] == x1;
    assert x1[1..] == [];
    assert Somes(x1) == [g];
    assert Somes(x2) == [f, g];
  }

  // ---------------------------------------------------------------------
  // General-metrics table
  // ---------------------------------------------------------------------

  /** `"Possession" in col or "Field Tilt" in col`: substring tests on the
      column name. */
  predicate IsPercentColumn(col: string) {
    IsSubstring("Possession", col) || IsSubstring("Field Tilt", col)
  }

  /** The value of a column as the table shows it: suffixed with `%` for
      the percentage columns, passed through unchanged otherwise. */
  function FormatCell(col: string, v: real): (c: Cell)
    ensures !c.Text? && c.v == v
    ensures c.Percent? <==> IsPercentColumn(col)
  {
    if IsPercentColumn(col) then Percent(v) else Value(v)
  }

  /** One general-table row; a column missing from either team's row is a
      KeyError. */
  function GeneralRow(m: Metric, home: StatsRow, away: StatsRow): (r: Result<Row, Error>)
    ensures r.Ok? <==> m.column in home.values && m.column in away.values
    ensures r.Err? ==> r.error == MissingColumn(m.column)
    ensures r.Ok? ==>
      && r.value.caption == m.name
      && r.value.home == FormatCell(m.column, home.values[m.column])
      && r.value.away == FormatCell(m.column, away.values[m.column])
  {
    if m.column !in home.values || m.column !in away.values then Err(MissingColumn(m.column))
    else Ok(Row(m.name, FormatCell(m.column, home.values[m.column]), FormatCell(m.column, away.values[m.column])))
  }

  /** The body rows of the general table, one per metric in catalog order. */
  function GeneralRows(metrics: seq<Metric>, home: StatsRow, away: StatsRow): Result<seq<Row>, Error> {
    Traverse(metrics, GeneralStep(home, away))
  }

  function GeneralStep(home: StatsRow, away: StatsRow): Metric -> Result<Row, Error> {
    m => GeneralRow(m, home, away)
  }

  /** The general table has exactly one row per catalog metric, labelled
      with the metric's name, in catalog order; a cell shows the team's value
      unchanged, with a `%` suffix exactly for Possession and Field Tilt. It
      fails exactly when one of the 9 columns is missing. */
  lemma GeneralRowsShape(home: StatsRow, away: StatsRow)
    ensures var r := GeneralRows(GeneralMetrics, home, away);
      && (r.Ok? <==> forall i :: 0 <= i < 9 ==> GeneralMetrics[i].column in home.values && GeneralMetrics[i].column in away.values)
      && (r.Ok? ==> |r.value| == 9 && forall i :: 0 <= i < 9 ==>
            && r.value[i].caption == GeneralMetrics[i].name
            && r.value[i].home.v == home.values[GeneralMetrics[i].column]
            && r.value[i].away.v == away.values[GeneralMetrics[i].column]
            && (r.value[i].home.Percent? <==> i == 1 || i == 2)
            && (r.value[i].away.Percent? <==> i == 1 || i == 2))
  {
    PercentColumnsOfGeneralMetrics();
    var f := GeneralStep(home, away);
    assert forall i :: 0 <= i < 9 ==> f(GeneralMetrics[i]) == GeneralRow(GeneralMetrics[i], home, away);
  }

  /** Among the 9 general columns, exactly Possession and Field Tilt are
      percentage columns. */
  lemma PercentColumnsOfGeneralMetrics()
    ensures forall i :: 0 <= i < 9 ==> (IsPercentColumn(GeneralMetrics[i].column) <==> i == 1 || i == 2)
  {
    var cols := seq(9, i requires 0 <= i < 9 => GeneralMetrics[i].column);
    ShortColumnNotPercent(cols[0]);
    PercentColumn(cols[1]);
    PercentColumn(cols[2]);
    PassesColumnNotPercent(cols[3]);
    ShortColumnNotPercent(cols[4]);
    HighRecoveriesNotPercent(cols[5]);
    ShortColumnNotPercent(cols[6]);
    ShortColumnNotPercent(cols[7]);
    ShortColumnNotPercent(cols[8]);
  }

  lemma ShortColumnNotPercent(col: string)
    requires |col| < 10
    ensures !IsPercentColumn(col)
  {
    LongerNotSubstring("Possession", col);
    LongerNotSubstring("Field Tilt", col);
  }

  lemma PassesColumnNotPercent(col: string)
    requires col == "Passes in Opposition Half"
    ensures !IsPercentColumn(col)
  {
    PassesColumnChars(col);
    AbsentAfterFirst("Possession", col);
    AbsentFirstChar("Field Tilt", col);
  }

  lemma PassesColumnChars(col: string)
    requires col == "Passes in Opposition Half"
    ensures col[1] != 'o' && 'F' !in col
    ensures forall i :: 1 <= i < |col| ==> col[i] != 'P'
  {
    forall i | 0 <= i < |col| ensures col[i] != 'F' && (i != 0 ==> col[i] != 'P') {
      assert i in {0, 1, 2, 3, 4, 5, 6, 7, 8, 9, 10, 11, 12, 13, 14, 15, 16, 17, 18, 19, 20, 21, 22, 23, 24};
    }
  }

  lemma HighRecoveriesNotPercent(col: string)
    requires col == "High Recoveries"
    ensures !IsPercentColumn(col)
  {
    assert 'P' !in col && 'F' !in col;
    AbsentFirstChar("Possession", col);
    AbsentFirstChar("Field Tilt", col);
  }

  lemma PercentColumn(col: string)
    requires col == "Possession" || col == "Field Tilt"
    ensures IsPercentColumn(col)
  {
    SelfSubstring(col);
  }

  // ---------------------------------------------------------------------
  // Lookups
  // ---------------------------------------------------------------------

  /** One value per requested column (`[float(row[m]) for m in cols]`). */
  function ColumnValue(row: StatsRow, col: string): (r: Result<real, Error>)
    ensures r.Ok? <==> col in row.values
    ensures r.Ok? ==> r.value == row.values[col]
    ensures r.Err? ==> r.error == MissingColumn(col)
  {
    if col in row.values then Ok(row.values[col]) else Err(MissingColumn(col))
  }

  function ColumnValues(row: StatsRow, cols: seq<string>): (r: Result<seq<real>, Error>) {
    Traverse(cols, ColumnStep(row))
  }

  function ColumnStep(row: StatsRow): string -> Result<real, Error> {
    c => ColumnValue(row, c)
  }

  /** The values are read column by column, in order; the lookup fails
      with the first column the row lacks. */
  lemma ColumnValuesSpec(row: StatsRow, cols: seq<string>)
    ensures var r := ColumnValues(row, cols);
      && (r.Ok? <==> forall i :: 0 <= i < |cols| ==> cols[i] in row.values)
      && (r.Ok? ==> |r.value| == |cols| && forall i :: 0 <= i < |cols| ==> r.value[i] == row.values[cols[i]])
      && (r.Err? ==> exists k :: 0 <= k < |cols| && cols[k] !in row.values && r.error == MissingColumn(cols[k])
                       && forall j :: 0 <= j < k ==> cols[j] in row.values)
  {
  }

  /** `matches[matches['Match'] == name].iloc[0]`. */
  function FindFixture(matches: seq<Fixture>, name: string): (r: Result<Fixture, Error>)
    ensures r.Ok? ==> r.value in matches && r.value.matchName == name
    ensures r.Ok? ==> exists k :: 0 <= k < |matches| && matches[k] == r.value && forall j :: 0 <= j < k ==> matches[j].matchName != name
    ensures r.Err? <==> forall f :: f in matches ==> f.matchName != name
    ensures r.Err? ==> r.error == NotFound(name)
  {
    match First(matches, (f: Fixture) => f.matchName == name)
    case None => Err(NotFound(name))
    case Some(f) => Ok(f)
  }
}
