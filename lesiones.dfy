/** The injury dashboard's callback (callbacks/lesiones_callbacks.py): the
    optional player and injury-type filters over the loaded records, the
    per-type and per-body-zone counts it charts, and the empty view it
    falls back to when anything fails. */
module Lesiones {
  import opened Common

  /** One injury record: the three columns the callback reads, and the
      rest of the record as the table shows it. */
  datatype Injury = Injury(jugador: string, tipoLesion: string, zonaCorporal: string, others: map<string, string>)

  /** The loaded injury table: the columns the file has, and its records. */
  datatype InjuryTable = InjuryTable(columns: set<string>, records: seq<Injury>)

  /** A chart of counts per category (`value_counts`, whose order is not
      modelled), or the empty figure. */
  datatype Figure = Counts(counts: multiset<string>) | EmptyFigure

  /** The callback's three outputs. */
  datatype View = View(tipos: Figure, zonas: Figure, tabla: seq<Injury>)

  const JugadorColumn := "Jugador"
  const TipoColumn := "TipoLesion"
  const ZonaColumn := "ZonaCorporal"

  function OfPlayer(jugador: string): Injury -> bool {
    (x: Injury) => x.jugador == jugador
  }

  function OfType(tipo: string): Injury -> bool {
    (x: Injury) => x.tipoLesion == tipo
  }

  /** Whether a record passes the active filters; an empty or absent filter
      value filters nothing. */
  predicate Passes(x: Injury, jugador: Option<string>, tipo: Option<string>) {
    && (GivenText(jugador) ==> x.jugador == jugador.value)
    && (GivenText(tipo) ==> x.tipoLesion == tipo.value)
  }

  function PassesFilters(jugador: Option<string>, tipo: Option<string>): Injury -> bool {
    (x: Injury) => Passes(x, jugador, tipo)
  }

  /** The two conditional filters, applied in turn. */
  function Filtrar(records: seq<Injury>, jugador: Option<string>, tipo: Option<string>): seq<Injury> {
    var df := if GivenText(jugador) then Filter(records, OfPlayer(jugador.value)) else records;
    if GivenText(tipo) then Filter(df, OfType(tipo.value)) else df
  }

  /** Filtering in two steps keeps exactly the records that pass both
      filters, in their original order; with no filter it keeps every
      record. */
  lemma FiltrarSpec(records: seq<Injury>, jugador: Option<string>, tipo: Option<string>)
    ensures var r := Filtrar(records, jugador, tipo);
      && r == Filter(records, PassesFilters(jugador, tipo))
      && (forall x :: x in r <==> x in records && Passes(x, jugador, tipo))
      && IsSubsequence(r, records)
      && (!GivenText(jugador) && !GivenText(tipo) ==> r == records)
  {
    var keep := PassesFilters(jugador, tipo);
    if GivenText(jugador) && GivenText(tipo) {
      FilterFilter(records, OfPlayer(jugador.value), OfType(tipo.value), keep);
    } else if GivenText(jugador) {
      FilterSame(records, OfPlayer(jugador.value), keep);
    } else if GivenText(tipo) {
      FilterSame(records, OfType(tipo.value), keep);
    } else {
      FilterAll(records, keep);
    }
  }

  /** `value_counts` of one column: each value as often as records hold it. */
  function CountBy(records: seq<Injury>, key: Injury -> string): (r: multiset<string>)
    ensures |r| == |records|
    ensures forall k :: k in r <==> exists x :: x in records && key(x) == k
  {
    if records == [] then multiset{}
    else
      var rest := CountBy(records[1..], key);
      assert forall x :: x in records <==> x == records[0] || x in records[1..];
      multiset{key(records[0])} + rest
  }

  function KeyIs(key: Injury -> string, k: string): Injury -> bool {
    (x: Injury) => key(x) == k
  }

  /** Each category's count is the number of records in that category, so
      every charted count is positive and the counts add up to the number
      of records. */
  lemma {:induction false} CountByFilter(records: seq<Injury>, key: Injury -> string, k: string)
    ensures CountBy(records, key)[k] == |Filter(records, KeyIs(key, k))|
    ensures k in CountBy(records, key) ==> CountBy(records, key)[k] > 0
    decreases |records|
  {
    if records != [] {
      var p := KeyIs(key, k);
      CountByFilter(records[1..], key, k);
      assert CountBy(records, key) == multiset{key(records[0])} + CountBy(records[1..], key);
      assert |Filter(records, p)| == (if p(records[0]) then 1 else 0) + |Filter(records[1..], p)|;
    }
  }

  function Tipo(x: Injury): string {
    x.tipoLesion
  }

  function Zona(x: Injury): string {
    x.zonaCorporal
  }

  /** Whether the callback completes: the file loaded, and it has every
      column the callback reads (the player column only when that filter
      is active). Anything else raises inside the `try`. */
  predicate Succeeds(loaded: Option<InjuryTable>, jugador: Option<string>) {
    && loaded.Some?
    && (GivenText(jugador) ==> JugadorColumn in loaded.value.columns)
    && TipoColumn in loaded.value.columns
    && ZonaColumn in loaded.value.columns
  }

  /** `actualizar_dashboard`: the filtered records, counted by injury type
      and by body zone, or two empty figures and an empty table when
      loading or a column lookup fails. */
  function ActualizarDashboard(loaded: Option<InjuryTable>, jugador: Option<string>, tipo: Option<string>): (v: View)
    ensures !Succeeds(loaded, jugador) ==> v == View(EmptyFigure, EmptyFigure, [])
    ensures Succeeds(loaded, jugador) ==> v.tipos.Counts? && v.zonas.Counts?
  {
    if !Succeeds(loaded, jugador) then View(EmptyFigure, EmptyFigure, [])
    else
      var df := Filtrar(loaded.value.records, jugador, tipo);
      View(Counts(CountBy(df, Tipo)), Counts(CountBy(df, Zona)), df)
  }

  /** On success the table lists exactly the records passing the filters,
      in order (every record when no filter is set), and both charts count
      exactly the listed records: per type and per zone, each count is the
      number of listed records in that category, and the counts add up to
      the number of listed records. */
  lemma ActualizarDashboardSpec(loaded: Option<InjuryTable>, jugador: Option<string>, tipo: Option<string>, k: string)
    requires Succeeds(loaded, jugador)
    ensures var v := ActualizarDashboard(loaded, jugador, tipo);
      var records := loaded.value.records;
      && v.tabla == Filter(records, PassesFilters(jugador, tipo))
      && (forall x :: x in v.tabla <==> x in records && Passes(x, jugador, tipo))
      && IsSubsequence(v.tabla, records)
      && (!GivenText(jugador) && !GivenText(tipo) ==> v.tabla == records)
      && |v.tipos.counts| == |v.tabla| && |v.zonas.counts| == |v.tabla|
      && v.tipos.counts[k] == |Filter(v.tabla, KeyIs(Tipo, k))|
      && v.zonas.counts[k] == |Filter(v.tabla, KeyIs(Zona, k))|
      && (k in v.tipos.counts ==> v.tipos.counts[k] > 0)
      && (k in v.zonas.counts ==> v.zonas.counts[k] > 0)
  {
    var df := Filtrar(loaded.value.records, jugador, tipo);
    FiltrarSpec(loaded.value.records, jugador, tipo);
    CountByFilter(df, Tipo, k);
    CountByFilter(df, Zona, k);
  }

  /** With a type filter set, the type chart has a single bar, for that
      type, as tall as the table is long. */
  lemma TypeFilterSingleBar(loaded: Option<InjuryTable>, jugador: Option<string>, tipo: Option<string>, k: string)
    requires Succeeds(loaded, jugador) && GivenText(tipo)
    ensures var v := ActualizarDashboard(loaded, jugador, tipo);
      && (k in v.tipos.counts ==> k == tipo.value)
      && v.tipos.counts[tipo.value] == |v.tabla|
  {
    var v := ActualizarDashboard(loaded, jugador, tipo);
    FiltrarSpec(loaded.value.records, jugador, tipo);
    CountByFilter(v.tabla, Tipo, tipo.value);
    FilterAll(v.tabla, KeyIs(Tipo, tipo.value));
  }
}
