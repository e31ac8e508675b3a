/** The PDF post-match report (utils/pdf_report.py): the data lists of its
    two tables, the radar and bar series of its charts, the lookup of the
    two teams' statistics rows, and the names and paths of its files. */
module PdfReport {
  import opened Common
  import opened Stats
  import opened Ranking
  import opened Radar

  // ---------------------------------------------------------------------
  // Table data
  // ---------------------------------------------------------------------

  /** `get_metricas_generales_data`: the header row, then one row per
      general metric appended in a loop; a missing column is a KeyError. */
  method GetMetricasGeneralesData(local: string, visitante: string, home: StatsRow, away: StatsRow)
    returns (r: Result<seq<Row>, Error>)
    ensures var rows := GeneralRows(GeneralMetrics, home, away);
      && (r.Ok? <==> rows.Ok?)
      && (r.Ok? ==> r.value == [HeaderRow(local, visitante)] + rows.value)
      && (r.Err? ==> r.error == rows.error)
  {
    var f := GeneralStep(home, away);
    var data := [HeaderRow(local, visitante)];
    ghost var rows: seq<Row> := [];
    var i := 0;
    while i < |GeneralMetrics|
      invariant 0 <= i <= |GeneralMetrics|
      invariant data == [HeaderRow(local, visitante)] + rows
      invariant |rows| == i && forall j :: 0 <= j < i ==> f(GeneralMetrics[j]) == Ok(rows[j])
    {
      var m := GeneralMetrics[i];
      if m.column !in home.values || m.column !in away.values {
        TraverseFailsAt(GeneralMetrics, f, i, MissingColumn(m.column));
        return Err(MissingColumn(m.column));
      }
      var valLocal := FormatCell(m.column, home.values[m.column]);
      var valVisitante := FormatCell(m.column, away.values[m.column]);
      TraverseExtend(GeneralMetrics, f, rows, Row(m.name, valLocal, valVisitante));
      data := data + [Row(m.name, valLocal, valVisitante)];
      rows := rows + [Row(m.name, valLocal, valVisitante)];
      i := i + 1;
    }
    TraverseAllOk(GeneralMetrics, f, rows);
    return Ok(data);
  }

  /** `get_ranking_data`: the header row, then for each present ranking
      metric the rank of both teams among that date's rows, rendered as
      `<n>º`. A missing column is a KeyError in the sort, a team without a
      row that day an IndexError. */
  method GetRankingData(local: string, visitante: string, t: StatsTable, fecha: string)
    returns (r: Result<seq<Row>, Error>)
    requires WellFormed(t)
    ensures var rows := RankingRows(t, fecha, local, visitante);
      && (r.Ok? <==> rows.Ok?)
      && (r.Ok? ==> r.value == [HeaderRow(local, visitante)] + rows.value)
      && (r.Err? ==> r.error == rows.error)
  {
    var f := RankingStep(t, fecha, local, visitante);
    var metricas := RankingMetrics(t.columns);
    var data := [HeaderRow(local, visitante)];
    ghost var rows: seq<Row> := [];
    for i := 0 to |metricas|
      invariant data == [HeaderRow(local, visitante)] + rows
      invariant |rows| == i && forall j :: 0 <= j < i ==> f(metricas[j]) == Ok(rows[j])
    {
      var row := RankingEntry(metricas[i], t, fecha, local, visitante);
      assert f(metricas[i]) == row;
      if row.Err? {
        TraverseFailsAt(metricas, f, i, row.error);
        return Err(row.error);
      }
      TraverseExtend(metricas, f, rows, row.value);
      data := data + [row.value];
      rows := rows + [row.value];
    }
    TraverseAllOk(metricas, f, rows);
    return Ok(data);
  }

  // ---------------------------------------------------------------------
  // Chart labels and the columns they read
  // ---------------------------------------------------------------------

  /** The radar's category labels, one of them broken over two lines. */
  const RadarCategories: seq<string> := ["xG", "Shots", "PPDA", "Field Tilt", "High\nRecoveries", "Corners", "Crosses"]

  /** The column a radar label reads: the label with its line break turned
      into a space, or "High Recoveries" for a label holding a line break. */
  function RadarColumn(name: string): string {
    if '\n' !in name then ReplaceChar(name, '\n', ' ') else "High Recoveries"
  }

  /** The bar chart's labels. */
  const BarLabels: seq<string> := ["Corners", "Crosses", "Fouls", "On-Ball\nPressure", "Off-Ball\nPressure"]

  /** The column a bar label reads: the label with its line break turned
      into a space. */
  function BarColumn(name: string): string {
    ReplaceChar(name, '\n', ' ')
  }

  /** The columns a list of radar labels reads, label by label. */
  function RadarColumnsOf(labels: seq<string>): (cols: seq<string>)
    ensures |cols| == |labels|
    ensures forall i :: 0 <= i < |cols| ==> cols[i] == RadarColumn(labels[i])
  {
    seq(|labels|, i requires 0 <= i < |labels| => RadarColumn(labels[i]))
  }

  /** The columns a list of bar labels reads, label by label. */
  function BarColumnsOf(labels: seq<string>): (cols: seq<string>)
    ensures |cols| == |labels|
    ensures forall i :: 0 <= i < |cols| ==> cols[i] == BarColumn(labels[i])
  {
    seq(|labels|, i requires 0 <= i < |labels| => BarColumn(labels[i]))
  }

  function RadarColumns(): seq<string> {
    RadarColumnsOf(RadarCategories)
  }

  function BarColumns(): seq<string> {
    BarColumnsOf(BarLabels)
  }

  /** A label on one line reads the column it names, on either chart. */
  lemma OneLineLabel(name: string)
    requires '\n' !in name
    ensures RadarColumn(name) == name
  {
    ReplaceAbsent(name, '\n', ' ');
  }

  lemma OneLineBarLabel(name: string)
    requires '\n' !in name
    ensures BarColumn(name) == name
  {
    ReplaceAbsent(name, '\n', ' ');
  }

  /** A label broken over two lines at position `k` reads the column named
      by its two halves joined with a space. */
  lemma TwoLineLabel(name: string, k: nat)
    requires k < |name| && name[k] == '\n' && '\n' !in name[..k] && '\n' !in name[k + 1..]
    ensures BarColumn(name) == name[..k] + [' '] + name[k + 1..]
  {
    assert name == name[..k] + ['\n'] + name[k + 1..];
    ReplaceSingle(name[..k], name[k + 1..], '\n', ' ');
  }

  /** For the two-line radar label, the special case names the same column
      as replacing its line break by a space. */
  lemma HighRecoveriesLabel(name: string)
    requires name == "High\nRecoveries"
    ensures RadarColumn(name) == BarColumn(name) == "High Recoveries"
  {
    assert name == "High" + ['\n'] + "Recoveries";
    ReplaceSingle("High", "Recoveries", '\n', ' ');
    assert "High" + [' '] + "Recoveries" == "High Recoveries";
  }

  /** The radar labels read xG, Shots, PPDA, Field Tilt, High Recoveries,
      Corners and Crosses: every label the column it names once its line
      break is a space. */
  lemma RadarColumnsAreLabels(labels: seq<string>, columns: seq<string>)
    requires labels == RadarCategories
    requires columns == ["xG", "Shots", "PPDA", "Field Tilt", "High Recoveries", "Corners", "Crosses"]
    ensures RadarColumnsOf(labels) == columns
  {
    var cols := RadarColumnsOf(labels);
    forall i | 0 <= i < |labels| && i != 4 ensures cols[i] == columns[i] {
      OneLineLabel(labels[i]);
    }
  }

  /** The bar labels read Corners, Crosses, Fouls, On-Ball Pressure and
      Off-Ball Pressure. */
  lemma BarColumnsAreLabels(labels: seq<string>, columns: seq<string>)
    requires labels == BarLabels
    requires columns == ["Corners", "Crosses", "Fouls", "On-Ball Pressure", "Off-Ball Pressure"]
    ensures BarColumnsOf(labels) == columns
  {
    var cols := BarColumnsOf(labels);
    forall i | 0 <= i < 3 ensures cols[i] == columns[i] {
      OneLineBarLabel(labels[i]);
    }
    PressureColumns();
  }

  lemma PressureColumns()
    ensures BarColumn("On-Ball\nPressure") == "On-Ball Pressure"
    ensures BarColumn("Off-Ball\nPressure") == "Off-Ball Pressure"
  {
    PressureLabel("On-Ball");
    assert "On-Ball\nPressure" == "On-Ball" + "\nPressure";
    PressureLabel("Off-Ball");
    assert "Off-Ball\nPressure" == "Off-Ball" + "\nPressure";
  }

  /** "On-Ball\nPressure" and "Off-Ball\nPressure" read the pressure
      columns: a one-line prefix, a line break and "Pressure". */
  lemma PressureLabel(prefix: string)
    requires '\n' !in prefix
    ensures BarColumn(prefix + "\nPressure") == prefix + " Pressure"
  {
    assert prefix + "\nPressure" == prefix + ['\n'] + "Pressure";
    ReplaceSingle(prefix, "Pressure", '\n', ' ');
    assert prefix + [' '] + "Pressure" == prefix + " Pressure";
  }

  // ---------------------------------------------------------------------
  // Radar series
  // ---------------------------------------------------------------------

  /** What the radar chart plots: both teams' normalised series and the
      angular positions, each closed into a loop. */
  datatype RadarSeries = RadarSeries(home: seq<real>, away: seq<real>, turns: seq<real>)

  /** `crear_radar_png` up to the drawing: read both teams' values, divide
      by the shared denominators, and extend every series in place by its
      first element (`local_norm += local_norm[:1]`). */
  method CrearRadarSeries(home: StatsRow, away: StatsRow) returns (r: Result<RadarSeries, Error>)
    ensures var lv := ColumnValues(home, RadarColumns());
      var vv := ColumnValues(away, RadarColumns());
      && (r.Ok? <==> lv.Ok? && vv.Ok?)
      && (r.Err? ==> r.error == if lv.Err? then lv.error else vv.error)
      && (r.Ok? ==>
        var n := |RadarCategories|;
        var ms := Maximos(lv.value, vv.value);
        && |r.value.home| == |r.value.away| == |r.value.turns| == n + 1
        && r.value.home[..n] == Divide(lv.value, ms) && r.value.home[n] == r.value.home[0]
        && r.value.away[..n] == Divide(vv.value, ms) && r.value.away[n] == r.value.away[0]
        && r.value.turns[..n] == Turns(n) && r.value.turns[n] == r.value.turns[0])
  {
    r := RadarSeriesOver(home, away, RadarColumns());
  }

  /** The body of `crear_radar_png` for any nonempty list of columns. */
  method RadarSeriesOver(home: StatsRow, away: StatsRow, cols: seq<string>) returns (r: Result<RadarSeries, Error>)
    requires |cols| > 0
    ensures var lv := ColumnValues(home, cols);
      var vv := ColumnValues(away, cols);
      && (r.Ok? <==> lv.Ok? && vv.Ok?)
      && (r.Err? ==> r.error == if lv.Err? then lv.error else vv.error)
      && (r.Ok? ==>
        var n := |cols|;
        var ms := Maximos(lv.value, vv.value);
        && |r.value.home| == |r.value.away| == |r.value.turns| == n + 1
        && r.value.home[..n] == Divide(lv.value, ms) && r.value.home[n] == r.value.home[0]
        && r.value.away[..n] == Divide(vv.value, ms) && r.value.away[n] == r.value.away[0]
        && r.value.turns[..n] == Turns(n) && r.value.turns[n] == r.value.turns[0])
  {
    var n := |cols|;
    ColumnValuesSpec(home, cols);
    ColumnValuesSpec(away, cols);
    var localVals := ColumnValues(home, cols);
    if localVals.Err? {
      return Err(localVals.error);
    }
    var visitanteVals := ColumnValues(away, cols);
    if visitanteVals.Err? {
      return Err(visitanteVals.error);
    }
    var maximos := Maximos(localVals.value, visitanteVals.value);
    var localNorm := Divide(localVals.value, maximos);
    var visitanteNorm := Divide(visitanteVals.value, maximos);
    var angulos := Turns(n);
    ghost var l0, v0, a0 := localNorm, visitanteNorm, angulos;
    localNorm := localNorm + localNorm[..1];
    visitanteNorm := visitanteNorm + visitanteNorm[..1];
    angulos := angulos + angulos[..1];
    assert localNorm[..n] == l0 && visitanteNorm[..n] == v0 && angulos[..n] == a0;
    return Ok(RadarSeries(localNorm, visitanteNorm, angulos));
  }

  /** `crear_barras_png` up to the drawing: both teams' values over the
      columns the bar labels read, the home row being read first. */
  function CrearBarrasValues(home: StatsRow, away: StatsRow): (r: Result<(seq<real>, seq<real>), Error>)
    ensures var lv := ColumnValues(home, BarColumns());
      var vv := ColumnValues(away, BarColumns());
      && (r.Ok? <==> lv.Ok? && vv.Ok?)
      && (r.Ok? ==> r.value == (lv.value, vv.value))
      && (r.Err? ==> r.error == if lv.Err? then lv.error else vv.error)
  {
    match ColumnValues(home, BarColumns())
    case Err(e) => Err(e)
    case Ok(localVals) =>
      match ColumnValues(away, BarColumns())
      case Err(e) => Err(e)
      case Ok(visitanteVals) => Ok((localVals, visitanteVals))
  }

  // ---------------------------------------------------------------------
  // Statistics rows of a match
  // ---------------------------------------------------------------------

  function OfMatch(partido: string): StatsRow -> bool {
    (x: StatsRow) => x.matchName == partido
  }

  function OfMatchAndTeam(partido: string, team: string): StatsRow -> bool {
    (x: StatsRow) => x.matchName == partido && x.team == team
  }

  /** `stats_partido[stats_partido['Team'] == team].iloc[0]`, an IndexError
      when the selection is empty. */
  function TeamRow(rows: seq<StatsRow>, team: string): (r: Result<StatsRow, Error>)
    ensures r.Ok? ==> r.value in rows && r.value.team == team
    ensures r.Err? <==> forall x :: x in rows ==> x.team != team
    ensures r.Err? ==> r.error == NotFound(team)
  {
    match First(rows, OfTeam(team))
    case None => Err(NotFound(team))
    case Some(x) => Ok(x)
  }

  /** `get_stats_partido`: the home and the away statistics rows of a match. */
  function GetStatsPartido(t: StatsTable, partido: string, local: string, visitante: string): (r: Result<(StatsRow, StatsRow), Error>)
    ensures r.Ok? ==> r.value.0 in t.rows && r.value.0.matchName == partido && r.value.0.team == local
    ensures r.Ok? ==> r.value.1 in t.rows && r.value.1.matchName == partido && r.value.1.team == visitante
  {
    var statsPartido := Filter(t.rows, OfMatch(partido));
    match TeamRow(statsPartido, local)
    case Err(e) => Err(e)
    case Ok(statsLocal) =>
      match TeamRow(statsPartido, visitante)
      case Err(e) => Err(e)
      case Ok(statsVisitante) => Ok((statsLocal, statsVisitante))
  }

  /** Each returned row is the first row of the table for that match and
      team; the lookup fails, naming the first missing team, exactly when
      the table has no row for the match and one of the teams. */
  lemma GetStatsPartidoSpec(t: StatsTable, partido: string, local: string, visitante: string)
    ensures var r := GetStatsPartido(t, partido, local, visitante);
      var hasLocal := exists x :: x in t.rows && x.matchName == partido && x.team == local;
      var hasVisitante := exists x :: x in t.rows && x.matchName == partido && x.team == visitante;
      && (r.Ok? <==> hasLocal && hasVisitante)
      && (r.Err? ==> r.error == if !hasLocal then NotFound(local) else NotFound(visitante))
      && (r.Ok? ==>
        && Some(r.value.0) == First(t.rows, OfMatchAndTeam(partido, local))
        && Some(r.value.1) == First(t.rows, OfMatchAndTeam(partido, visitante)))
  {
    var p := OfMatch(partido);
    FirstOfFilter(t.rows, p, OfTeam(local), OfMatchAndTeam(partido, local));
    FirstOfFilter(t.rows, p, OfTeam(visitante), OfMatchAndTeam(partido, visitante));
  }

  // ---------------------------------------------------------------------
  // Names and paths
  // ---------------------------------------------------------------------

  /** `normaliza_nombre` on one character: lower-case it, then a space
      becomes `_` and á é í ó ú lose their accents. */
  function NormalizeChar(c: char): char {
    var d := LowerChar(c);
    if d == ' ' then '_'
    else if d == 'á' then 'a'
    else if d == 'é' then 'e'
    else if d == 'í' then 'i'
    else if d == 'ó' then 'o'
    else if d == 'ú' then 'u'
    else d
  }

  /** `nombre.lower().replace(" ", "_").replace("á", "a")...replace("ú", "u")`. */
  function NormalizaNombre(nombre: string): (r: string)
    ensures |r| == |nombre|
    ensures forall i :: 0 <= i < |r| ==> r[i] == NormalizeChar(nombre[i])
  {
    var s := Lower(nombre);
    ReplaceChar(ReplaceChar(ReplaceChar(ReplaceChar(ReplaceChar(ReplaceChar(
      s, ' ', '_'), 'á', 'a'), 'é', 'e'), 'í', 'i'), 'ó', 'o'), 'ú', 'u')
  }

  /** The normalised name holds no space and none of á é í ó ú. */
  lemma NormalizaNombreClean(nombre: string)
    ensures var r := NormalizaNombre(nombre);
      ' ' !in r && 'á' !in r && 'é' !in r && 'í' !in r && 'ó' !in r && 'ú' !in r
  {
    var r := NormalizaNombre(nombre);
    forall i | 0 <= i < |r|
      ensures r[i] != ' ' && r[i] != 'á' && r[i] != 'é' && r[i] != 'í' && r[i] != 'ó' && r[i] != 'ú'
    {
    }
  }

  /** Normalising a normalised name changes nothing. */
  lemma NormalizaNombreIdempotent(nombre: string)
    ensures NormalizaNombre(NormalizaNombre(nombre)) == NormalizaNombre(nombre)
  {
    var r := NormalizaNombre(nombre);
    forall i | 0 <= i < |r| ensures NormalizeChar(r[i]) == r[i] {
      NormalizeCharIdempotent(nombre[i]);
    }
  }

  lemma NormalizeCharIdempotent(c: char)
    ensures NormalizeChar(NormalizeChar(c)) == NormalizeChar(c)
  {
  }

  /** The crest file the report draws for a team. */
  function EscudoFile(equipo: string): (r: string)
    ensures StartsWith(r, "assets/Escudos/") && |r| == |equipo| + 19
  {
    "assets/Escudos/" + NormalizaNombre(equipo) + ".png"
  }

  const RadarPrefix := "assets/tmp/radar_"
  const BarrasPrefix := "assets/tmp/barras_"

  function GetRadarPath(partido: string): string {
    RadarPrefix + partido + ".png"
  }

  function GetBarrasPath(partido: string): string {
    BarrasPrefix + partido + ".png"
  }

  /** The match a temporary image belongs to, read back from its path. */
  function PathMatch(prefix: string, path: string): (r: Option<string>)
    ensures r.Some? ==> path == prefix + r.value + ".png"
  {
    if |path| >= |prefix| + 4 && path[..|prefix|] == prefix && path[|path| - 4..] == ".png"
    then
      assert path == prefix + path[|prefix|..|path| - 4] + ".png";
      Some(path[|prefix|..|path| - 4])
    else None
  }

  /** The match can be read back from either temporary path, so different
      matches never share an image file. */
  lemma PathRoundTrip(partido: string)
    ensures PathMatch(RadarPrefix, GetRadarPath(partido)) == Some(partido)
    ensures PathMatch(BarrasPrefix, GetBarrasPath(partido)) == Some(partido)
  {
    var r := GetRadarPath(partido);
    assert r[..|RadarPrefix|] == RadarPrefix && r[|r| - 4..] == ".png";
    assert r[|RadarPrefix|..|r| - 4] == partido;
    var b := GetBarrasPath(partido);
    assert b[..|BarrasPrefix|] == BarrasPrefix && b[|b| - 4..] == ".png";
    assert b[|BarrasPrefix|..|b| - 4] == partido;
  }

  lemma PathsInjective(p: string, q: string)
    requires p != q
    ensures GetRadarPath(p) != GetRadarPath(q)
    ensures GetBarrasPath(p) != GetBarrasPath(q)
  {
    PathRoundTrip(p);
    PathRoundTrip(q);
  }

  /** A radar image path is never a bar image path, whatever the matches. */
  lemma RadarNotBarras(p: string, q: string)
    ensures GetRadarPath(p) != GetBarrasPath(q)
  {
    assert GetRadarPath(p)[11] == 'r';
    assert GetBarrasPath(q)[11] == 'b';
  }

  /** `f"Jornada {jornada} - {fecha}" if jornada else fecha`, the round being
      absent (`partido_row.get('Round', "")`) or 0 counting as false. */
  function HeaderText(jornada: Option<nat>, fecha: string): (r: string)
    ensures |r| >= |fecha| && r[|r| - |fecha|..] == fecha
    ensures r == fecha <==> !GivenNat(jornada)
  {
    if GivenNat(jornada) then "Jornada " + NatToString(jornada.value) + " - " + fecha else fecha
  }

  /** The round can be read back from a header that shows one. */
  lemma HeaderTextRound(j: nat, fecha: string)
    requires j != 0
    ensures var r := HeaderText(Some(j), fecha);
      var digits := r[8..|r| - |fecha| - 3];
      && StartsWith(r, "Jornada ")
      && (forall i :: 0 <= i < |digits| ==> '0' <= digits[i] <= '9')
      && ParseNat(digits) == j
  {
    var r := HeaderText(Some(j), fecha);
    assert r[8..|r| - |fecha| - 3] == NatToString(j);
    ParseNatToString(j);
  }
}
