# LaLiga post-match dashboard: a Dafny model of its statistics core

The dashboard shows one LaLiga 24/25 match at a time. It has five parts:

- a general-metrics table;
- a table ranking both teams among that date's matches;
- a radar chart and a bar chart comparing the two teams;
- a match selector filtered by team and round;
- a link to a PDF report.

The PDF report (`utils/pdf_report.py`) computes the same tables and charts a second time. A separate page charts injury records, filtered by player and by injury type.

This project models that computation in Dafny and proves properties of it. The proofs also show that the dashboard's copy and the report's copy agree.

Modules, in dependency order:

- `Common` (common.dfy) holds the shared pieces:
  - `Option` and `Result`;
  - Python truthiness of an optional text or number (`GivenText`, `GivenNat`);
  - order-preserving `Filter` and its algebra;
  - first-match search and the all-or-first-error traversal `Traverse`, used for list comprehensions that can raise;
  - character replacement, lower-casing and decimal rendering of numbers.
- `Stats` (stats.dfy) holds the data model:
  - fixtures, statistics rows (numeric columns as a `map<string, real>`), the statistics table and table rows;
  - the two metric catalogs;
  - the `%` rule;
  - the pure specification of the general table;
  - column lookups, where a missing column is a KeyError modelled as `MissingColumn`.
- `Ranking` (ranking.dfy) ranks one date's rows in descending order on a metric. A team's rank is its 1-based position. A team with no row that day is an IndexError, modelled as `NotFound`. The statistics table is expected to hold at most one row per team and date (`Ranking.TeamsUnique`). Five lemmas assume it: `RankOfHigherValueBetter`, `RankOfCoversDay`, `RanksArePermutation`, `HigherValueBetter` and `PositionsCoverDay`. Every other rank lemma holds without it.
- `Radar` (radar.dfy) holds the radar arithmetic: denominators, the guarded and unguarded divisions, closing a series into a loop, and angular positions.
- `PdfReport` (pdf_report.dfy) models the report:
  - the loops that build its table data;
  - the radar series, extended in place;
  - the label-to-column mapping of both charts;
  - `get_stats_partido`, `normaliza_nombre`, the temporary-image paths and the header text.
- `App` (app.dfy) models the dashboard:
  - its table loops and radar and bar data;
  - the match filter, the dropdown's default value and the download link;
  - the user lookups;
  - the methods and lemmas that relate each of these to the report's copy.
- `Lesiones` (lesiones.dfy) models the injury callback: its two optional filters, the counts per injury type and per body zone, and the empty fallback view.

The four table builders (`tabla_metricas_generales`, `ranking_mini_tabla`, `get_metricas_generales_data` and `get_ranking_data`) append rows in a loop, and are modelled as methods with loops. Two other operations have no loop but rebind their lists step by step: the narrowing of `filtrar_partidos` and the in-place `+=` of `crear_radar_png`. They are modelled as methods that rebind their sequences in the same order. Each of these methods is proved against a pure specification. Expressions and searches are modelled as functions.

Where the two copies differ, the model keeps the difference:

- The dashboard always writes "Jornada {round} - {date}". The report shows the date alone when the round is 0 or absent (`App.CabeceraMatchesReport`).
- The dashboard's crest is a URL with a leading `/` and is built with NFKD accent stripping. The report's crest is a relative file path and is built with `normaliza_nombre`. The two agree, up to the leading `/`, for ASCII team names (`App.EscudoPathsAgree`).

## Model

| member | source | states |
|---|---|---|
| Stats.GeneralRowsShape | app.py:37-61 | the general table has exactly one row per each of the 9 catalog metrics, in catalog order, captioned with the metric name; each cell holds the team's value unchanged, and only the Possession and Field Tilt cells (positions 1 and 2) carry the `%` suffix; it fails exactly when one of the 9 columns is missing |
| Stats.FormatCell | app.py:56-59 | a cell keeps the value, and it is a percentage cell exactly when the column name contains "Possession" or "Field Tilt" |
| Stats.GeneralRow | utils/pdf_report.py:28-33 | one metric's row is present exactly when both teams' rows have the column; otherwise the error names that column |
| Stats.PercentColumnsOfGeneralMetrics | utils/pdf_report.py:30 | among the 9 catalog columns, only Possession and Field Tilt satisfy the substring test |
| Stats.RankingMetricsShape | app.py:82-91 | the ranking list always starts with Goals and xG and ends with High Recoveries, Fouls and Corners; xA and Assists appear, between them, exactly when the table has those columns, and are otherwise left out without error; when both are present xA comes first |
| Stats.RankingMetrics | app.py:82-91 | the ranking metrics list; characterised by `Stats.RankingMetricsShape` |
| Stats.SomesTwoOptional | app.py:82-91 | dropping the absent entries of a seven-entry list whose third and fourth entries are optional keeps the other entries in order, in each of the four cases |
| Stats.ColumnValuesSpec | app.py:531-532 | the values are read column by column in order; the lookup fails exactly when some column is missing, and then names the first missing one |
| Stats.FindFixture | app.py:503 | the fixture found is the first fixture with that match name; the lookup fails exactly when there is none |
| Ranking.DayRows | app.py:99 | keeps exactly the rows of the given date |
| Ranking.SortDesc | app.py:100 | the result is a permutation of the day's rows, sorted in descending order on the metric |
| Ranking.Position | app.py:101 | gives the first position holding the team; there is none exactly when no row holds it |
| Ranking.RankOf | app.py:100-102 | a failure is a missing column (KeyError) when the column is absent, otherwise the team's absence (IndexError) |
| Ranking.RankOfSpec | app.py:99-102 | the rank fails exactly when the column is absent or the team has no row on that date; a rank lies in 1..n, where n is the number of rows that day |
| Ranking.RankTieBounds | app.py:100-101 | for any descending arrangement of the day's rows, the row at position i has at most i rows strictly above its value and at least i+1 rows at or above it |
| Ranking.HigherValueEarlier | app.py:100 | in any descending arrangement, a strictly greater value comes strictly earlier |
| Ranking.RankOfBounds | app.py:100-102 | a team's rank lies strictly above the number of rows with a greater value, and at most at the number of rows with at least its value, so ties are left unordered |
| Ranking.RankOfHigherValueBetter | app.py:100-102 | with one row per team that day, on one date and metric, a team with a strictly greater value gets a strictly smaller rank |
| Ranking.HigherValueBetter | app.py:100-101 | in any descending arrangement of a day on which every team plays once, a team with a strictly greater value has a strictly smaller position |
| Ranking.RanksArePermutation | app.py:100-102 | with one row per team, every team's position is its own index, and different teams have different positions |
| Ranking.RankOfCoversDay | app.py:100-102 | with one row per team, every rank 1..n is held by some team of that day |
| Ranking.PositionsCoverDay | app.py:100-101 | in any descending arrangement of a day on which every team plays once, the team at each position is first found at that position |
| Ranking.RankOfDistinct | app.py:101-102 | two different teams never share a rank |
| Ranking.Ordinal | utils/pdf_report.py:53 | a rendered rank ends in `º` |
| Ranking.RankingRow | app.py:99-107 | one metric's ranking row; `Ranking.RankingEntry` proves the loop body equal to it, and `Ranking.RankingRowsOver` describes it row by row |
| Ranking.RankingEntry | app.py:98-109 | one ranking row computed step by step (filter, sort, two position lookups) equals its specification |
| Ranking.RankingRowsSpec | utils/pdf_report.py:47-53 | one ranking row per present metric, in catalog order; each cell is the team's rank rendered as `<n>º`; fails exactly when some metric's rank fails for either team |
| Ranking.RankingRowsOver | utils/pdf_report.py:47-53 | the same row-by-row description of the ranking loop, for any list of metrics |
| Radar.Denominator | app.py:533 | a denominator is strictly positive and at least both values |
| Radar.Maximos | utils/pdf_report.py:70 | one strictly positive denominator per pair, as many as the shorter list |
| Radar.Normaliza | app.py:536-537 | the guarded division, as many values as the shorter list; related to the report's division by `Radar.GuardNeverTaken` |
| Radar.Divide | utils/pdf_report.py:71-72 | the unguarded division, as many values as the shorter list, defined only when no denominator is 0; see `Radar.GuardNeverTaken` |
| Radar.GuardNeverTaken | app.py:536-537 | over these denominators, the report's unguarded division is defined (no division by zero) and equals the dashboard's guarded `normaliza` |
| Radar.PairBounds | app.py:533-540 | for non-negative values both results lie in [0, 1/1.2]; the larger positive value maps to exactly 1/1.2; when both are 0 the denominator is 1 and both results are 0 |
| Radar.SeriesBounds | app.py:533-540 | the same bounds over whole series, metric by metric |
| Radar.Closed | app.py:544-545 | a closed series has one more element, starts with the original series, and ends with its first element |
| Radar.Turns | utils/pdf_report.py:75 | the angular positions, as fractions of a turn, lie in [0, 1) and strictly increase |
| PdfReport.GetMetricasGeneralesData | utils/pdf_report.py:14-34 | the loop's data is the header row `Métrica / local / visitante` followed by the general rows, or the same missing-column error |
| PdfReport.GetRankingData | utils/pdf_report.py:36-54 | the loop's data is the header row followed by the ranking rows, or the same error |
| PdfReport.RadarColumn | utils/pdf_report.py:66-67 | the radar label rule; characterised by `PdfReport.OneLineLabel` and `PdfReport.HighRecoveriesLabel` |
| PdfReport.BarColumn | utils/pdf_report.py:127-128 | the bar label rule; characterised by `PdfReport.OneLineLabel`, `PdfReport.TwoLineLabel` and `PdfReport.PressureLabel` |
| PdfReport.RadarColumnsOf | utils/pdf_report.py:66-67 | each radar label maps to one column, computed by the label rule |
| PdfReport.OneLineLabel | utils/pdf_report.py:66 | a label without a line break reads the column it names |
| PdfReport.TwoLineLabel | utils/pdf_report.py:127 | a label with one line break reads the label with that break turned into a space |
| PdfReport.PressureLabel | utils/pdf_report.py:126-128 | a one-line prefix, a line break and "Pressure" read the prefix, a space and "Pressure" |
| PdfReport.HighRecoveriesLabel | utils/pdf_report.py:66-67 | "High\nRecoveries" reads "High Recoveries" under either chart's label rule |
| PdfReport.RadarColumnsAreLabels | utils/pdf_report.py:62-67 | the 7 radar labels read xG, Shots, PPDA, Field Tilt, High Recoveries, Corners and Crosses |
| PdfReport.BarColumnsAreLabels | utils/pdf_report.py:126-129 | the 5 bar labels read Corners, Crosses, Fouls, On-Ball Pressure and Off-Ball Pressure |
| PdfReport.CrearRadarSeries | utils/pdf_report.py:62-78 | succeeds exactly when both rows have every radar column, with the home error first; both series and the angles are extended in place to N+1 points, the first N being the values over the strictly positive denominators (the angles: N increasing turns), and the last equal to the first |
| PdfReport.RadarSeriesOver | utils/pdf_report.py:69-78 | the radar body for any nonempty column list: fails exactly when a column is missing, home first; otherwise both series and the angles have N+1 points, the first N being the values over the strictly positive denominators (the angles: N increasing turns), and the last equal to the first |
| PdfReport.CrearBarrasValues | utils/pdf_report.py:126-129 | both teams' values over the bar columns, or the first missing column, home first |
| PdfReport.TeamRow | utils/pdf_report.py:182-183 | the row returned belongs to the team; the lookup fails exactly when no row does |
| PdfReport.GetStatsPartido | utils/pdf_report.py:180-184 | both returned rows come from the table, belong to the match, and belong to the home and the away team respectively |
| PdfReport.GetStatsPartidoSpec | utils/pdf_report.py:180-184 | succeeds exactly when the table has a row for the match and each team; each row is the first such; the error names the first missing team |
| PdfReport.NormalizaNombre | utils/pdf_report.py:199-200 | keeps the length; character by character: lower-case, then a space becomes `_`, and á é í ó ú lose their accent |
| PdfReport.NormalizaNombreClean | utils/pdf_report.py:200 | the normalised name holds no space and none of á é í ó ú |
| PdfReport.NormalizaNombreIdempotent | utils/pdf_report.py:200 | normalising twice gives the same as normalising once |
| PdfReport.EscudoFile | utils/pdf_report.py:209-210 | a crest file path lies under `assets/Escudos/`, and its length is fixed by the team name's length |
| PdfReport.GetRadarPath | utils/pdf_report.py:193-194 | the radar image path; see `PdfReport.PathRoundTrip`, `PdfReport.PathsInjective` and `PdfReport.RadarNotBarras` |
| PdfReport.GetBarrasPath | utils/pdf_report.py:196-197 | the bar image path; see `PdfReport.PathRoundTrip`, `PdfReport.PathsInjective` and `PdfReport.RadarNotBarras` |
| PdfReport.PathRoundTrip | utils/pdf_report.py:193-197 | the match can be read back from either temporary-image path (`assets/tmp/radar_` or `assets/tmp/barras_` + match + `.png`) |
| PdfReport.PathsInjective | utils/pdf_report.py:193-197 | different matches get different radar paths and different bar paths |
| PdfReport.RadarNotBarras | utils/pdf_report.py:193-197 | a radar path is never a bar path |
| PdfReport.HeaderText | utils/pdf_report.py:207-248 | the header ends with the date, and it is the date alone exactly when the round is absent or 0 |
| PdfReport.HeaderTextRound | utils/pdf_report.py:248 | when the round is nonzero, the header is "Jornada " followed by digits that parse back to the round |
| App.TablaMetricasGenerales | app.py:35-68 | the loop builds the header row and the general rows, or fails with the same missing column |
| App.RankingMiniTabla | app.py:81-109 | the loop builds the header row and the ranking rows, or fails with the same error |
| App.PartidoSeleccionado | app.py:503-511 | the selected fixture bears the match name; the two statistics rows belong to that match and to its home and away team |
| App.PartidoSeleccionadoSpec | app.py:501-511 | once the fixture is found, the selection succeeds exactly when the table has a row of that match for its home team and one for its away team; it then returns that very fixture and the first such rows, and otherwise fails naming the first team without a row |
| App.Cabecera | app.py:526 | the dashboard's caption; compared with the report's header by `App.CabeceraMatchesReport` |
| App.CabeceraMatchesReport | app.py:526 | the dashboard's caption equals the report's header for a nonzero round; for round 0 the report shows the date alone and the two differ |
| App.RadarTracesOver | app.py:530-556 | the radar block for any nonempty metric list; characterised by `App.RadarTracesShape` and `App.RadarTracesBounds` |
| App.RadarFigure | app.py:530-556 | the dashboard's radar over its 7 metrics; characterised by `App.RadarTracesShape` and, against the report, `App.CompareRadar` |
| App.RadarTracesShape | app.py:530-556 | fails exactly when a radar column is missing, home first; the values, the other team's values and the labels are closed to 8 points with the last equal to the first; the values are the rows' values over the shared denominators |
| App.RadarTracesBounds | app.py:533-545 | for non-negative statistics every plotted point lies in [0, 1/1.2], and for each metric the team with the larger positive value is plotted at exactly 1/1.2 |
| App.BarrasFigure | app.py:587-589 | the bars are both teams' values over the 5 extra metrics, in order; present exactly when every column is |
| App.LabelsReadDashboardColumns | utils/pdf_report.py:66-67 | the report's radar labels read exactly the dashboard's radar columns, and its bar labels read the dashboard's extra columns |
| App.BarsAgree | utils/pdf_report.py:126-129 | the report's bar values equal the dashboard's bar values, errors included |
| App.CompareGeneralTables | utils/pdf_report.py:26-33 | the report's general data is the dashboard's table (header, then the same 9 body rows), or both fail with the same column |
| App.CompareRankingTables | utils/pdf_report.py:46-53 | the report's ranking data is the dashboard's ranking table, header first, or both fail alike |
| App.CompareRadar | utils/pdf_report.py:69-78 | the report's radar series equal the dashboard's plotted traces point for point, or both fail with the same column |
| App.GetEscudoPath | app.py:151-155 | the crest URL lies under `/assets/Escudos/`, ends in `.png`, and its name part holds no space |
| App.EscudoPathsAgree | app.py:151-155 | for an ASCII team name, the dashboard's crest URL is the report's crest file path preceded by `/` |
| App.SeleccionadosSpec | app.py:466-475 | the dropdown lists exactly the fixtures where the team plays home or away (if a team is given) and the round matches (if a round is given), in input order; with no filter, every fixture |
| App.FiltrarPartidos | app.py:466-475 | the two conditional narrowing steps give the options of exactly those fixtures, each labelled `match (date)` with the match name as its value |
| App.OptionOf | app.py:473 | one dropdown entry, `match (date)` with the match name as its value; see `App.FiltrarPartidos` |
| App.OptionsOf | app.py:472-475 | one option per fixture, in order |
| App.SeleccionarPrimero | app.py:482-488 | none exactly when there are no options; otherwise always one of the option values: the current value if it is still offered, else the first option's |
| App.SeleccionarPrimeroStable | app.py:482-488 | choosing again from the same options keeps the choice |
| App.SelectionPassesFilters | app.py:466-488 | after filtering, the selected value names a fixture that passes the filters; nothing is selected exactly when no fixture passes |
| App.ActualizarLinkDescarga | app.py:373-376 | the link is `#` exactly when no match is selected; otherwise it is the report route prefix followed by the selected match |
| App.RouteArgument | app.py:157-158 | a path the report route accepts is the route prefix followed by a nonempty segment with no `/` |
| App.LinkRoundTrip | app.py:157-158 | the link hands the route exactly the selected match when its name holds no `/`; the placeholder reaches no route |
| App.LoadUser | app.py:196-203 | the user found has the requested id; there is none exactly when no account has that id |
| App.LoadUserFindsEachUser | app.py:190-203 | every built-in account is found by its own id, and only ids "1" and "2" name an account |
| App.Login | app.py:425-427 | the account signed in has the given user name and password, and there is none exactly when no account matches both |
| App.LoginThenLoad | app.py:196-203 | the user loader restores the account that the login chose, from its id |
| Lesiones.Filtrar | callbacks/lesiones_callbacks.py:16-19 | the two conditional filters; characterised by `Lesiones.FiltrarSpec` |
| Lesiones.FiltrarSpec | callbacks/lesiones_callbacks.py:16-19 | the two conditional filters keep exactly the records passing every active filter, in order; with neither filter, every record |
| Lesiones.CountBy | callbacks/lesiones_callbacks.py:23-24 | the counts of a column add up to the number of records, and the categories are exactly the values present |
| Lesiones.CountByFilter | callbacks/lesiones_callbacks.py:41-42 | a category's count is the number of records in that category, and every charted count is positive |
| Lesiones.ActualizarDashboard | callbacks/lesiones_callbacks.py:12-73 | any failure (load error, missing column) gives two empty figures and an empty table; success gives two count charts |
| Lesiones.ActualizarDashboardSpec | callbacks/lesiones_callbacks.py:16-56 | on success, the table holds exactly the filtered records, in order (all of them with no filter); both charts count exactly those records, with positive counts adding up to the table's length |
| Lesiones.TypeFilterSingleBar | callbacks/lesiones_callbacks.py:18-24 | with a type filter set, the type chart has one bar, for that type, as tall as the table is long |
| Common.Filter | app.py:469-471 | filtering keeps exactly the elements satisfying the predicate, in order, each as often as in the input |
| Common.FilterFilter | app.py:469-471 | filtering twice equals filtering once by both predicates |
| Common.Traverse | app.py:531 | a comprehension that may raise succeeds exactly when every element does, value by value, and otherwise fails at the first failing element |
| Common.SomesSpec | app.py:91 | dropping the `None` entries keeps exactly the present values: every kept value was present, every present value is kept, and the list never grows |
| Common.NatToStringInjective | app.py:106-107 | different ranks render as different digit strings |

## Left out

- Web framework: Flask routing, Dash callback wiring and layouts, `flask_login` sessions (`login_user`, `current_user`, `logout_user`), `display_page` and `render_inner_page`. Only the pure lookups behind login (`App.Login`, `App.LoadUser`) are modelled.
- Drawing: Plotly figures, matplotlib charts (including `crear_grafico_barras`), the reportlab canvas and frames, colours and sizes; only the values each chart plots are modelled.
- File I/O: the CSV loads (`load_lesiones` becomes an optional loaded table given as a parameter), `savefig`, `os.path.exists`, `limpiar_tmp`'s `os.remove`, and the file sending in `descargar_pdf`.
- Concurrency: two simultaneous downloads of the same match share one temporary image path; this is not modelled.
- Floating point: statistics are exact `real`s. NaN values and `float()` conversion are not modelled. The `f"{v}%"` rendering of a general-table cell keeps the number as a value (`Stats.Percent(v)`). A rank `f"{n}º"` is rendered as text: its decimal digits followed by `º` (`Ranking.Ordinal`, built on `Common.NatToString`).
- The score line `{local} {goals} - {goals} {visitante}` is not modelled: it is float formatting.
- Radar angles `n / N * 2 * pi` are modelled as fractions of a turn (`Radar.Turns`); trigonometric floats are not modelled.
- The pandas sort is not stable, so the order of tied rows is unspecified. The rank lemmas hold for every descending permutation of the day's rows (`Ranking.IsRanking`). The concrete `Ranking.SortDesc` is a stable insertion sort, one permitted refinement.
- The order of `value_counts` is not modelled: counts are a multiset.
- Lesiones.CountBy: the injury records are assumed to have no missing cells. Each `Injury` field is a plain string, so the model cannot hold an empty `TipoLesion`, `ZonaCorporal` or `Jugador` cell. In the source, `value_counts()` drops such a cell (`dropna=True`), so that record is listed in the table but not counted. An equality filter also never keeps it. For tables with missing cells, `|r| == |records|` and the count equalities of `Lesiones.ActualizarDashboardSpec` therefore do not describe the source.
- The injury records' other columns are carried as an opaque map, and date parsing is not modelled.
- Common.Lower: lower-cases ASCII and the Latin-1 upper-case letters only, not the rest of Unicode, because Python's full case table is library data.
- App.GetEscudoPath: the NFKD normalisation and ASCII encoding are an abstract `stripAccents` parameter, because they are a library call.
- App.EscudoPathsAgree: the agreement between the two crest paths is stated only for ASCII names. For other letters the two copies strip accents differently: ñ or ü, for instance, survive `normaliza_nombre` but not NFKD.
- Logging: the `print` calls in `load_user`, in `login` and in the injury callback's `except` branch write to the console only, and are not modelled.
- The `/descargar_pdf/<partido>` route is modelled only through the argument it receives (`App.RouteArgument`); building and sending the PDF are I/O.
