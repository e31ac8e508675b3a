/** The live dashboard (app.py): its two tables, the radar and bar data of
    the selected match, the match dropdown and its default value, the
    download link, the user lookup, and the sense in which each agrees with
    the PDF report's copy of the same computation. */
module App {
  import opened Common
  import opened Stats
  import opened Ranking
  import opened Radar
  import opened PdfReport

  // ---------------------------------------------------------------------
  // Tables
  // ---------------------------------------------------------------------

  /** `tabla_metricas_generales`: a header row and the body rows appended
      one per metric; a column missing from either team's row is a
      KeyError. */
  method TablaMetricasGenerales(local: string, visitante: string, home: StatsRow, away: StatsRow)
    returns (r: Result<Table, Error>)
    ensures var rows := GeneralRows(GeneralMetrics, home, away);
      && (r.Ok? <==> rows.Ok?)
      && (r.Ok? ==> r.value == Table(HeaderRow(local, visitante), rows.value))
      && (r.Err? ==> r.error == rows.error)
  {
    var f := GeneralStep(home, away);
    var header := HeaderRow(local, visitante);
    var rows: seq<Row> := [];
    for i := 0 to |GeneralMetrics|
      invariant |rows| == i && forall j :: 0 <= j < i ==> f(GeneralMetrics[j]) == Ok(rows[j])
    {
      var m := GeneralMetrics[i];
      if m.column !in home.values || m.column !in away.values {
        TraverseFailsAt(GeneralMetrics, f, i, MissingColumn(m.column));
        return Err(MissingColumn(m.column));
      }
      var valLocal := FormatCell(m.column, home.values[m.column]);
      var valVisitante := FormatCell(m.column, away.values[m.column]);
      TraverseExtend(GeneralMetrics, f, rows, Row(m.name, valLocal, valVisitante));
      rows := rows + [Row(m.name, valLocal, valVisitante)];
    }
    TraverseAllOk(GeneralMetrics, f, rows);
    return Ok(Table(header, rows));
  }

  /** `ranking_mini_tabla`: a header row and, per present ranking metric,
      both teams' 1-based positions among that date's rows. */
  method RankingMiniTabla(local: string, visitante: string, t: StatsTable, fecha: string)
    returns (r: Result<Table, Error>)
    requires WellFormed(t)
    ensures var rows := RankingRows(t, fecha, local, visitante);
      && (r.Ok? <==> rows.Ok?)
      && (r.Ok? ==> r.value == Table(HeaderRow(local, visitante), rows.value))
      && (r.Err? ==> r.error == rows.error)
  {
    var f := RankingStep(t, fecha, local, visitante);
    var metricas := RankingMetrics(t.columns);
    var header := HeaderRow(local, visitante);
    var rows: seq<Row> := [];
    for i := 0 to |metricas|
      invariant |rows| == i && forall j :: 0 <= j < i ==> f(metricas[j]) == Ok(rows[j])
    {
      var row := RankingEntry(metricas[i], t, fecha, local, visitante);
      assert f(metricas[i]) == row;
      if row.Err? {
        TraverseFailsAt(metricas, f, i, row.error);
        return Err(row.error);
      }
      TraverseExtend(metricas, f, rows, row.value);
      rows := rows + [row.value];
    }
    TraverseAllOk(metricas, f, rows);
    return Ok(Table(header, rows));
  }

  // ---------------------------------------------------------------------
  // The infographic of one match
  // ---------------------------------------------------------------------

  /** The selected fixture and both teams' statistics rows: the fixture is
      the first with that name, and each statistics row belongs to that
      match and to its home or away team. */
  function PartidoSeleccionado(matches: seq<Fixture>, t: StatsTable, nombre: string)
    : (r: Result<(Fixture, StatsRow, StatsRow), Error>)
    ensures r.Ok? ==> r.value.0 in matches && r.value.0.matchName == nombre
    ensures r.Ok? ==> r.value.1 in t.rows && r.value.1.matchName == nombre && r.value.1.team == r.value.0.home
    ensures r.Ok? ==> r.value.2 in t.rows && r.value.2.matchName == nombre && r.value.2.team == r.value.0.away
    ensures FindFixture(matches, nombre).Err? ==> r == Err(NotFound(nombre))
  {
    match FindFixture(matches, nombre)
    case Err(e) => Err(e)
    case Ok(partido) =>
      match GetStatsPartido(t, nombre, partido.home, partido.away)
      case Err(e) => Err(e)
      case Ok(rows) => Ok((partido, rows.0, rows.1))
  }

  /** Once the fixture is found, the selection succeeds exactly when the
      statistics table has a row of that match for its home team and one
      for its away team; it then returns that fixture and the first such
      rows, and otherwise fails naming the first team without a row. */
  lemma PartidoSeleccionadoSpec(matches: seq<Fixture>, t: StatsTable, nombre: string)
    ensures var f := FindFixture(matches, nombre);
      var r := PartidoSeleccionado(matches, t, nombre);
      f.Ok? ==>
        var p := f.value;
        var hasLocal := exists x :: x in t.rows && x.matchName == nombre && x.team == p.home;
        var hasVisitante := exists x :: x in t.rows && x.matchName == nombre && x.team == p.away;
        && (r.Ok? <==> hasLocal && hasVisitante)
        && (r.Err? ==> r.error == if !hasLocal then NotFound(p.home) else NotFound(p.away))
        && (r.Ok? ==>
          && r.value.0 == p
          && Some(r.value.1) == First(t.rows, OfMatchAndTeam(nombre, p.home))
          && Some(r.value.2) == First(t.rows, OfMatchAndTeam(nombre, p.away)))
  {
    var f := FindFixture(matches, nombre);
    if f.Ok? {
      GetStatsPartidoSpec(t, nombre, f.value.home, f.value.away);
    }
  }

  /** The caption under the score, `f"Jornada {jornada} - {fecha}"`. */
  function Cabecera(partido: Fixture): string {
    "Jornada " + NatToString(partido.round) + " - " + partido.date
  }

  /** For a fixture with a nonzero round the dashboard's caption is the
      report's header text; for round 0 the report shows the date alone. */
  lemma CabeceraMatchesReport(partido: Fixture)
    ensures partido.round != 0 ==> Cabecera(partido) == HeaderText(Some(partido.round), partido.date)
    ensures partido.round == 0 ==> HeaderText(Some(partido.round), partido.date) == partido.date != Cabecera(partido)
  {
  }

  /** The radar's metric columns, one line each. */
  const RadarMetricas: seq<string> := ["xG", "Shots", "PPDA", "Field Tilt", "High Recoveries", "Corners", "Crosses"]

  /** The bar chart's metric columns. */
  const ExtraMetricas: seq<string> := ["Corners", "Crosses", "Fouls", "On-Ball Pressure", "Off-Ball Pressure"]

  /** The two radar traces: each team's normalised values and the category
      labels, each closed by repeating its first element. */
  datatype RadarTraces = RadarTraces(home: seq<real>, away: seq<real>, theta: seq<string>)

  /** The radar block of `actualizar_infografia`, over a nonempty list of
      metric columns: read both teams' values (a KeyError for a missing
      column, the home row being read first), normalise them by the shared
      denominators, and close every trace into a loop. */
  function RadarTracesOver(home: StatsRow, away: StatsRow, metricas: seq<string>): (r: Result<RadarTraces, Error>)
    requires |metricas| > 0
  {
    match ColumnValues(home, metricas)
    case Err(e) => Err(e)
    case Ok(localVals) =>
      match ColumnValues(away, metricas)
      case Err(e) => Err(e)
      case Ok(visitanteVals) =>
        ColumnValuesSpec(home, metricas);
        ColumnValuesSpec(away, metricas);
        var maximos := Maximos(localVals, visitanteVals);
        Ok(RadarTraces(
          Closed(Normaliza(localVals, maximos)),
          Closed(Normaliza(visitanteVals, maximos)),
          Closed(metricas)))
  }

  /** The dashboard's radar, over its 7 metrics. */
  function RadarFigure(home: StatsRow, away: StatsRow): Result<RadarTraces, Error> {
    RadarTracesOver(home, away, RadarMetricas)
  }

  /** The radar fails exactly when a metric column is missing from either
      row, the home row's error first. When it succeeds, all three traces
      have N+1 points, the last equal to the first; the first N values are
      the rows' values over the shared denominators, and the labels are the
      metric names. */
  lemma RadarTracesShape(home: StatsRow, away: StatsRow, metricas: seq<string>)
    requires |metricas| > 0
    ensures var r := RadarTracesOver(home, away, metricas);
      var lv := ColumnValues(home, metricas);
      var vv := ColumnValues(away, metricas);
      var n := |metricas|;
      && (r.Ok? <==> lv.Ok? && vv.Ok?)
      && (r.Err? ==> r.error == if lv.Err? then lv.error else vv.error)
      && (r.Ok? ==>
        var ms := Maximos(lv.value, vv.value);
        && |r.value.home| == |r.value.away| == |r.value.theta| == n + 1
        && r.value.home[..n] == Normaliza(lv.value, ms) && r.value.home[n] == r.value.home[0]
        && r.value.away[..n] == Normaliza(vv.value, ms) && r.value.away[n] == r.value.away[0]
        && r.value.theta[..n] == metricas && r.value.theta[n] == r.value.theta[0])
  {
    ColumnValuesSpec(home, metricas);
    ColumnValuesSpec(away, metricas);
  }

  /** For non-negative statistics every plotted value lies in [0, 1/1.2],
      and for each metric the team with the larger positive value is
      plotted at exactly 1/1.2. */
  lemma RadarTracesBounds(home: StatsRow, away: StatsRow, metricas: seq<string>, lv: seq<real>, vv: seq<real>)
    requires |metricas| > 0
    requires ColumnValues(home, metricas) == Ok(lv) && ColumnValues(away, metricas) == Ok(vv)
    requires forall i :: 0 <= i < |lv| ==> 0.0 <= lv[i]
    requires forall i :: 0 <= i < |vv| ==> 0.0 <= vv[i]
    ensures RadarTracesOver(home, away, metricas).Ok?
    ensures var r := RadarTracesOver(home, away, metricas).value;
      && (forall i :: 0 <= i < |r.home| ==> 0.0 <= r.home[i] <= 5.0 / 6.0)
      && (forall i :: 0 <= i < |r.away| ==> 0.0 <= r.away[i] <= 5.0 / 6.0)
      && (forall i :: 0 <= i < |lv| && i < |vv| && Max(lv[i], vv[i]) > 0.0 ==>
            i < |r.home| && i < |r.away| && Max(r.home[i], r.away[i]) == 5.0 / 6.0)
  {
    ColumnValuesSpec(home, metricas);
    ColumnValuesSpec(away, metricas);
    SeriesBounds(lv, vv);
    var r := RadarTracesOver(home, away, metricas).value;
    var ms := Maximos(lv, vv);
    assert r.home == Normaliza(lv, ms) + [Normaliza(lv, ms)[0]];
    assert r.away == Normaliza(vv, ms) + [Normaliza(vv, ms)[0]];
  }

  /** The bar block of `actualizar_infografia`: each team's values over the
      extra metrics, in order, the home row being read first. */
  function BarrasFigure(home: StatsRow, away: StatsRow): (r: Result<(seq<real>, seq<real>), Error>)
    ensures r.Ok? <==> forall i :: 0 <= i < 5 ==> ExtraMetricas[i] in home.values && ExtraMetricas[i] in away.values
    ensures r.Ok? ==> |r.value.0| == |r.value.1| == 5 && forall i :: 0 <= i < 5 ==>
      r.value.0[i] == home.values[ExtraMetricas[i]] && r.value.1[i] == away.values[ExtraMetricas[i]]
  {
    ColumnValuesSpec(home, ExtraMetricas);
    ColumnValuesSpec(away, ExtraMetricas);
    match ColumnValues(home, ExtraMetricas)
    case Err(e) => Err(e)
    case Ok(localExtra) =>
      match ColumnValues(away, ExtraMetricas)
      case Err(e) => Err(e)
      case Ok(visitanteExtra) => Ok((localExtra, visitanteExtra))
  }

  // ---------------------------------------------------------------------
  // The two copies agree
  // ---------------------------------------------------------------------

  /** The report's radar labels read the dashboard's radar columns, and its
      bar labels the dashboard's extra columns. */
  lemma LabelsReadDashboardColumns()
    ensures RadarColumns() == RadarMetricas
    ensures BarColumns() == ExtraMetricas
  {
    RadarColumnsAreLabels(RadarCategories, RadarMetricas);
    BarColumnsAreLabels(BarLabels, ExtraMetricas);
  }

  /** The report's bar chart plots the dashboard's bar values, or both fail
      with the same missing column. */
  lemma BarsAgree(home: StatsRow, away: StatsRow)
    ensures CrearBarrasValues(home, away) == BarrasFigure(home, away)
  {
    LabelsReadDashboardColumns();
  }

  /** For the same rows, the report's general-table data is the dashboard's
      general table, header first, or both fail with the same missing
      column. */
  method CompareGeneralTables(local: string, visitante: string, home: StatsRow, away: StatsRow)
    returns (dashboard: Result<Table, Error>, report: Result<seq<Row>, Error>)
    ensures dashboard.Ok? <==> report.Ok?
    ensures dashboard.Ok? ==> report.value == [dashboard.value.header] + dashboard.value.body
    ensures dashboard.Ok? ==> dashboard.value.header == HeaderRow(local, visitante) && |dashboard.value.body| == 9
    ensures dashboard.Err? ==> report.error == dashboard.error
  {
    GeneralRowsShape(home, away);
    dashboard := TablaMetricasGenerales(local, visitante, home, away);
    report := GetMetricasGeneralesData(local, visitante, home, away);
  }

  /** For the same table and date, the report's ranking data is the
      dashboard's ranking table, header first, or both fail alike. */
  method CompareRankingTables(local: string, visitante: string, t: StatsTable, fecha: string)
    returns (dashboard: Result<Table, Error>, report: Result<seq<Row>, Error>)
    requires WellFormed(t)
    ensures dashboard.Ok? <==> report.Ok?
    ensures dashboard.Ok? ==> report.value == [dashboard.value.header] + dashboard.value.body
    ensures dashboard.Ok? ==> dashboard.value.header == HeaderRow(local, visitante)
    ensures dashboard.Err? ==> report.error == dashboard.error
  {
    dashboard := RankingMiniTabla(local, visitante, t, fecha);
    report := GetRankingData(local, visitante, t, fecha);
  }

  /** For the same rows, the report's radar series are the dashboard's
      radar traces, point for point, or both fail with the same missing
      column. */
  method CompareRadar(home: StatsRow, away: StatsRow)
    returns (dashboard: Result<RadarTraces, Error>, report: Result<RadarSeries, Error>)
    ensures dashboard.Ok? <==> report.Ok?
    ensures dashboard.Ok? ==> report.value.home == dashboard.value.home && report.value.away == dashboard.value.away
    ensures dashboard.Ok? ==> |report.value.turns| == |dashboard.value.theta|
    ensures dashboard.Err? ==> report.error == dashboard.error
  {
    LabelsReadDashboardColumns();
    dashboard := RadarFigure(home, away);
    report := CrearRadarSeries(home, away);
    RadarTracesShape(home, away, RadarMetricas);
    var lv, vv := ColumnValues(home, RadarMetricas), ColumnValues(away, RadarMetricas);
    if lv.Ok? && vv.Ok? {
      var ms := Maximos(lv.value, vv.value);
      GuardNeverTaken(lv.value, lv.value, vv.value);
      GuardNeverTaken(vv.value, lv.value, vv.value);
      ClosedUnique(Normaliza(lv.value, ms), report.value.home);
      ClosedUnique(Normaliza(vv.value, ms), report.value.away);
      ClosedUnique(Normaliza(lv.value, ms), dashboard.value.home);
      ClosedUnique(Normaliza(vv.value, ms), dashboard.value.away);
    }
  }

  /** A series of one more point whose prefix is `s` and whose last point
      is its first is `s` closed. */
  lemma ClosedUnique<T>(s: seq<T>, c: seq<T>)
    requires |s| > 0 && |c| == |s| + 1 && c[..|s|] == s && c[|s|] == c[0]
    ensures c == Closed(s)
  {
    assert c == c[..|s|] + [c[|s|]];
  }

  // ---------------------------------------------------------------------
  // Crest images
  // ---------------------------------------------------------------------

  /** `get_escudo_path`: the team name with its accents removed
      (`stripAccents`, standing for the NFKD-and-ASCII round trip), spaces
      turned into `_`, lower-cased, as a URL under /assets/Escudos/. */
  function GetEscudoPath(equipo: string, stripAccents: string -> string): (r: string)
    ensures |r| >= 20 && r[..16] == "/assets/Escudos/" && r[|r| - 4..] == ".png"
    ensures ' ' !in r[16..|r| - 4]
  {
    var nombre := Lower(ReplaceChar(stripAccents(equipo), ' ', '_'));
    var r := "/assets/Escudos/" + nombre + ".png";
    assert r[16..|r| - 4] == nombre;
    r
  }

  /** For a team name of ASCII characters that the accent stripping leaves
      alone, the dashboard's crest URL is the report's crest file, rooted
      at `/`. */
  lemma EscudoPathsAgree(equipo: string, stripAccents: string -> string)
    requires forall i :: 0 <= i < |equipo| ==> equipo[i] < 128 as char
    requires stripAccents(equipo) == equipo
    ensures GetEscudoPath(equipo, stripAccents) == "/" + EscudoFile(equipo)
  {
    var nombre := Lower(ReplaceChar(equipo, ' ', '_'));
    assert nombre == NormalizaNombre(equipo);
  }

  // ---------------------------------------------------------------------
  // Match dropdown
  // ---------------------------------------------------------------------

  /** One dropdown entry: what it shows, and the match name it stands for. */
  datatype DropdownOption = DropdownOption(caption: string, value: string)

  /** `{'label': f"{row['Match']} ({row['Date']})", 'value': row['Match']}`. */
  function OptionOf(f: Fixture): DropdownOption {
    DropdownOption(f.matchName + " (" + f.date + ")", f.matchName)
  }

  function OptionsOf(fixtures: seq<Fixture>): (options: seq<DropdownOption>)
    ensures |options| == |fixtures|
    ensures forall i :: 0 <= i < |options| ==> options[i] == OptionOf(fixtures[i])
  {
    seq(|fixtures|, i requires 0 <= i < |fixtures| => OptionOf(fixtures[i]))
  }

  /** Whether a fixture passes the active filters: an empty or absent team
      and an absent or zero round filter nothing. */
  predicate Keeps(f: Fixture, equipo: Option<string>, jornada: Option<nat>) {
    && (GivenText(equipo) ==> f.home == equipo.value || f.away == equipo.value)
    && (GivenNat(jornada) ==> f.round == jornada.value)
  }

  function KeepsFilters(equipo: Option<string>, jornada: Option<nat>): Fixture -> bool {
    (f: Fixture) => Keeps(f, equipo, jornada)
  }

  function PlaysIn(equipo: string): Fixture -> bool {
    (f: Fixture) => f.home == equipo || f.away == equipo
  }

  function InRound(jornada: nat): Fixture -> bool {
    (f: Fixture) => f.round == jornada
  }

  /** The fixtures the dropdown lists. */
  function Seleccionados(matches: seq<Fixture>, equipo: Option<string>, jornada: Option<nat>): seq<Fixture> {
    Filter(matches, KeepsFilters(equipo, jornada))
  }

  /** The dropdown lists exactly the fixtures that pass both filters, in
      their original order; with no filter it lists every fixture. */
  lemma SeleccionadosSpec(matches: seq<Fixture>, equipo: Option<string>, jornada: Option<nat>)
    ensures var s := Seleccionados(matches, equipo, jornada);
      && (forall f :: f in s <==> f in matches && Keeps(f, equipo, jornada))
      && IsSubsequence(s, matches)
      && (!GivenText(equipo) && !GivenNat(jornada) ==> s == matches)
  {
    if !GivenText(equipo) && !GivenNat(jornada) {
      FilterAll(matches, KeepsFilters(equipo, jornada));
    }
  }

  /** `filtrar_partidos`: start from every fixture, narrow to the team's
      matches when a team is chosen, then to the round when one is chosen,
      and list what is left. */
  method FiltrarPartidos(matches: seq<Fixture>, equipo: Option<string>, jornada: Option<nat>)
    returns (options: seq<DropdownOption>)
    ensures options == OptionsOf(Seleccionados(matches, equipo, jornada))
  {
    var keep := KeepsFilters(equipo, jornada);
    var df := matches;
    if GivenText(equipo) {
      df := Filter(df, PlaysIn(equipo.value));
    }
    if GivenNat(jornada) {
      df := Filter(df, InRound(jornada.value));
    }
    if GivenText(equipo) && GivenNat(jornada) {
      FilterFilter(matches, PlaysIn(equipo.value), InRound(jornada.value), keep);
    } else if GivenText(equipo) {
      FilterSame(matches, PlaysIn(equipo.value), keep);
    } else if GivenNat(jornada) {
      FilterSame(matches, InRound(jornada.value), keep);
    } else {
      FilterAll(matches, keep);
    }
    options := OptionsOf(df);
  }

  function Values(options: seq<DropdownOption>): (values: seq<string>)
    ensures |values| == |options|
    ensures forall i :: 0 <= i < |options| ==> values[i] == options[i].value
  {
    seq(|options|, i requires 0 <= i < |options| => options[i].value)
  }

  /** `seleccionar_primero`: no value without options; otherwise the
      current value while it is still offered, else the first option's. */
  function SeleccionarPrimero(options: seq<DropdownOption>, current: Option<string>): (r: Option<string>)
    ensures r.None? <==> options == []
    ensures r.Some? ==> r.value in Values(options)
    ensures current.Some? && current.value in Values(options) ==> r == current
    ensures options != [] && (current.None? || current.value !in Values(options)) ==> r == Some(options[0].value)
  {
    if options == [] then None
    else if current.Some? && current.value in Values(options) then current
    else Some(Values(options)[0])
  }

  /** Choosing again from the same options keeps the choice. */
  lemma SeleccionarPrimeroStable(options: seq<DropdownOption>, current: Option<string>)
    ensures SeleccionarPrimero(options, SeleccionarPrimero(options, current)) == SeleccionarPrimero(options, current)
  {
  }

  /** The match the dropdown selects after filtering is a fixture that
      passes both filters; nothing is selected exactly when no fixture
      passes. */
  lemma SelectionPassesFilters(matches: seq<Fixture>, equipo: Option<string>, jornada: Option<nat>, current: Option<string>)
    ensures var s := Seleccionados(matches, equipo, jornada);
      var r := SeleccionarPrimero(OptionsOf(s), current);
      && (r.None? <==> forall f :: f in matches ==> !Keeps(f, equipo, jornada))
      && (r.Some? ==> exists f :: f in matches && Keeps(f, equipo, jornada) && f.matchName == r.value)
  {
    SeleccionadosSpec(matches, equipo, jornada);
    var s := Seleccionados(matches, equipo, jornada);
    var options := OptionsOf(s);
    var r := SeleccionarPrimero(options, current);
    if r.Some? {
      var k :| 0 <= k < |options| && Values(options)[k] == r.value;
      assert s[k] in s;
    }
  }

  // ---------------------------------------------------------------------
  // Download link
  // ---------------------------------------------------------------------

  const DownloadPrefix := "/descargar_pdf/"

  /** `actualizar_link_descarga`: a placeholder link while no match is
      selected, else the report route for the match. */
  function ActualizarLinkDescarga(partido: Option<string>): (r: string)
    ensures r == "#" <==> !GivenText(partido)
    ensures GivenText(partido) ==>
      |r| >= |DownloadPrefix| && r[..|DownloadPrefix|] == DownloadPrefix && r[|DownloadPrefix|..] == partido.value
  {
    if !GivenText(partido) then "#" else DownloadPrefix + partido.value
  }

  /** The match the report route `/descargar_pdf/<partido>` receives: a
      nonempty path segment with no `/`. */
  function RouteArgument(path: string): (r: Option<string>)
    ensures r.Some? ==> path == DownloadPrefix + r.value && r.value != [] && '/' !in r.value
  {
    var n := |DownloadPrefix|;
    if |path| > n && path[..n] == DownloadPrefix && '/' !in path[n..] then
      assert path == DownloadPrefix + path[n..];
      Some(path[n..])
    else None
  }

  /** The link hands the route the selected match whenever its name holds
      no `/`; the placeholder reaches no route. */
  lemma LinkRoundTrip(partido: Option<string>)
    ensures !GivenText(partido) ==> RouteArgument(ActualizarLinkDescarga(partido)) == None
    ensures GivenText(partido) && '/' !in partido.value ==>
      RouteArgument(ActualizarLinkDescarga(partido)) == Some(partido.value)
  {
    var link := ActualizarLinkDescarga(partido);
    if GivenText(partido) {
      assert link[..|DownloadPrefix|] == DownloadPrefix;
      assert link[|DownloadPrefix|..] == partido.value;
    }
  }

  // ---------------------------------------------------------------------
  // Users
  // ---------------------------------------------------------------------

  datatype User = User(id: string, username: string, password: string)

  /** The two built-in accounts; ids are kept as strings. */
  const Users: seq<User> := [User("1", "admin", "admin"), User("2", "analista", "futbol123")]

  function HasId(userId: string): User -> bool {
    (u: User) => u.id == userId
  }

  /** `load_user`: the first account whose id is `userId`, or none. */
  function LoadUser(userId: string): (r: Option<User>)
    ensures r.Some? ==> r.value in Users && r.value.id == userId
    ensures r.None? <==> forall u :: u in Users ==> u.id != userId
  {
    First(Users, HasId(userId))
  }

  /** Every account is found by its own id, and only "1" and "2" name an
      account. */
  lemma LoadUserFindsEachUser(userId: string)
    ensures forall k :: 0 <= k < |Users| ==> LoadUser(Users[k].id) == Some(Users[k])
    ensures LoadUser(userId).Some? <==> userId == "1" || userId == "2"
  {
    FirstCons(Users, HasId(Users[0].id));
    FirstCons(Users, HasId(Users[1].id));
    FirstCons(Users[1..], HasId(Users[1].id));
  }

  function Matches(username: string, password: string): User -> bool {
    (u: User) => u.username == username && u.password == password
  }

  /** The account the login callback signs in: the first whose user name
      and password both match, or none. */
  function Login(username: string, password: string): (r: Option<User>)
    ensures r.Some? ==> r.value in Users && r.value.username == username && r.value.password == password
    ensures r.None? <==> forall u :: u in Users ==> u.username != username || u.password != password
  {
    First(Users, Matches(username, password))
  }

  /** The session of a signed-in account is restored by its id: the user
      loader finds the very account the login chose. */
  lemma LoginThenLoad(username: string, password: string)
    ensures Login(username, password).Some? ==> LoadUser(Login(username, password).value.id) == Login(username, password)
  {
    LoadUserFindsEachUser("1");
  }
}
