/** The list page's client-side filter: four case-insensitive substring
    tests over the fetched records, and the reset rule of the status select. */
module HomeFilter {
  import opened Wrappers
  import opened Seqs
  import opened Text
  import opened CalidadModel

  /** The four filter inputs: status, outcome, plates, order number. */
  datatype Filters = Filters(status: string, statusOs: string, placas: string, orden: string)

  /** The filters when the page mounts. */
  const Initial := Filters("Pendiente", "", "", "")

  /** The status option that reveals the outcome select. */
  const TerminadoOption := "Terminado"

  /** `normal(x)`: null or undefined read as the empty string, then
      lower-cased. */
  function Normal(x: Option<string>): string {
    Lower(x.GetOr(""))
  }

  /** `!filtro || normal(field).includes(filtro.toLowerCase())`. */
  predicate FieldPasses(value: Option<string>, filtro: string) {
    |filtro| == 0 || Includes(Normal(value), Lower(filtro))
  }

  /** The predicate handed to `items.filter`. */
  predicate Passes(v: Calidad, f: Filters) {
    && FieldPasses(v.status, f.status)
    && FieldPasses(v.statusOs, f.statusOs)
    && FieldPasses(v.noPlacas, f.placas)
    && FieldPasses(v.noOrden, f.orden)
  }

  /** `filtrados`: the records passing every filter, in list order. */
  function Filtrados(items: seq<Calidad>, f: Filters): (r: seq<Calidad>)
    ensures forall v :: v in r <==> v in items && Passes(v, f)
    ensures forall v :: Passes(v, f) ==> multiset(r)[v] == multiset(items)[v]
    ensures IsSubsequence(r, items)
  {
    Filter((v: Calidad) => Passes(v, f), items)
  }

  /** The status select's `onChange`: any value other than "Terminado"
      also clears the outcome filter. */
  function SelectStatus(f: Filters, value: string): (r: Filters)
    ensures r.status == value
    ensures r.statusOs == (if value == TerminadoOption then f.statusOs else "")
    ensures r.placas == f.placas && r.orden == f.orden
  {
    var cleared := if value != TerminadoOption then "" else f.statusOs;
    f.(status := value, statusOs := cleared)
  }

  /** A field matches a filter: the filter is empty, or its lower-cased text
      occurs in the lower-cased field. */
  ghost predicate Matches(value: Option<string>, filtro: string) {
    |filtro| == 0 || exists i :: OccursAt(Normal(value), Lower(filtro), i)
  }

  /** The field test is exactly the substring-occurrence specification. */
  lemma FieldPassesIff(value: Option<string>, filtro: string)
    ensures FieldPasses(value, filtro) <==> Matches(value, filtro)
  {
    IncludesIffOccurs(Normal(value), Lower(filtro));
  }

  /** A record passes iff every non-empty filter occurs, case-insensitively,
      in its field. */
  lemma PassesIff(v: Calidad, f: Filters)
    ensures Passes(v, f) <==>
              Matches(v.status, f.status) && Matches(v.statusOs, f.statusOs)
              && Matches(v.noPlacas, f.placas) && Matches(v.noOrden, f.orden)
  {
    FieldPassesIff(v.status, f.status);
    FieldPassesIff(v.statusOs, f.statusOs);
    FieldPassesIff(v.noPlacas, f.placas);
    FieldPassesIff(v.noOrden, f.orden);
  }

  /** A missing field passes its test only when the filter is empty. */
  lemma MissingFieldPassesOnlyEmpty(filtro: string)
    ensures FieldPasses(None, filtro) <==> |filtro| == 0
  {
    IncludedInEmptyIffEmpty(Lower(filtro));
  }

  /** With every filter empty the list is shown unfiltered. */
  lemma EmptyFiltersKeepAll(items: seq<Calidad>)
    ensures Filtrados(items, Filters("", "", "", "")) == items
  {
    FilterAll((v: Calidad) => Passes(v, Filters("", "", "", "")), items);
  }

  /** When the page mounts, the list shows exactly the records whose status
      contains "pendiente", ignoring case. */
  lemma InitialShowsPending(items: seq<Calidad>)
    ensures forall v :: v in Filtrados(items, Initial) <==> v in items && Includes(Normal(v.status), "pendiente")
  {
    assert Lower("Pendiente") == "pendiente";
    forall v ensures Passes(v, Initial) <==> Includes(Normal(v.status), "pendiente") {
      assert FieldPasses(v.statusOs, "") && FieldPasses(v.noPlacas, "") && FieldPasses(v.noOrden, "");
    }
  }

  /** After choosing any status but "Terminado", the outcome filter that
      was set before no longer affects the list. */
  lemma SelectStatusForgetsOutcome(items: seq<Calidad>, f: Filters, x: string, value: string)
    requires value != TerminadoOption
    ensures Filtrados(items, SelectStatus(f, value)) == Filtrados(items, SelectStatus(f.(statusOs := x), value))
  {
  }

  /** After choosing any status but "Terminado", the list holds exactly the
      records passing the status, plates and order filters, whatever their
      outcome. */
  lemma SelectStatusShowsAnyOutcome(items: seq<Calidad>, f: Filters, value: string)
    requires value != TerminadoOption
    ensures forall v :: v in Filtrados(items, SelectStatus(f, value)) <==>
              v in items && FieldPasses(v.status, value) && FieldPasses(v.noPlacas, f.placas)
              && FieldPasses(v.noOrden, f.orden)
  {
    forall v: Calidad ensures FieldPasses(v.statusOs, SelectStatus(f, value).statusOs) {
    }
  }

  /** Choosing "Terminado" keeps the outcome filter: every record shown
      still passes it. */
  lemma SelectTerminadoKeepsOutcome(items: seq<Calidad>, f: Filters)
    ensures Filtrados(items, SelectStatus(f, TerminadoOption)) == Filtrados(items, f.(status := TerminadoOption))
    ensures forall v :: v in Filtrados(items, SelectStatus(f, TerminadoOption)) ==> FieldPasses(v.statusOs, f.statusOs)
  {
    assert SelectStatus(f, TerminadoOption) == f.(status := TerminadoOption);
  }
}
