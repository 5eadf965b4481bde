/** The home page's search box: four fields, and the listing URL the search button navigates to. */
module Hero {
  import opened Seqs
  import opened Text

  datatype SearchParams = SearchParams(tipoNegocio: string, tipoImovel: string, cidade: string, precoMax: string)

  /** The four fields, named as the form names them. */
  datatype Field = TipoNegocio | TipoImovel | Cidade | PrecoMax

  const Initial := SearchParams("", "", "", "")

  function Get(sp: SearchParams, f: Field): string {
    match f
    case TipoNegocio => sp.tipoNegocio
    case TipoImovel => sp.tipoImovel
    case Cidade => sp.cidade
    case PrecoMax => sp.precoMax
  }

  function Name(f: Field): string {
    match f
    case TipoNegocio => "tipo_negocio"
    case TipoImovel => "tipo_imovel"
    case Cidade => "cidade"
    case PrecoMax => "preco_max"
  }

  /** `Object.entries(searchParams)`: the fields in declaration order. */
  function Entries(sp: SearchParams): (es: Query)
    ensures |es| == 4
    ensures es[0] == (Name(TipoNegocio), Get(sp, TipoNegocio)) && es[1] == (Name(TipoImovel), Get(sp, TipoImovel))
    ensures es[2] == (Name(Cidade), Get(sp, Cidade)) && es[3] == (Name(PrecoMax), Get(sp, PrecoMax))
  {
    [("tipo_negocio", sp.tipoNegocio), ("tipo_imovel", sp.tipoImovel), ("cidade", sp.cidade), ("preco_max", sp.precoMax)]
  }

  predicate HasValue(e: (string, string)) {
    e.1 != ""
  }

  /** The query the search sends: the non-empty fields, under their own names, in field order. */
  function SearchQuery(sp: SearchParams): (q: Query)
    ensures |q| <= 4
    ensures forall e :: e in q ==> e in Entries(sp) && e.1 != ""
  {
    Filter(Entries(sp), HasValue)
  }

  /** A field is in the query iff it is non-empty, and then with its own value. */
  lemma SearchQueryFields(sp: SearchParams, f: Field)
    ensures (Name(f), Get(sp, f)) in SearchQuery(sp) <==> Get(sp, f) != ""
    ensures forall v :: (Name(f), v) in SearchQuery(sp) ==> v == Get(sp, f)
  {
    var es := Entries(sp);
    assert (Name(f), Get(sp, f)) in es;
    forall v | (Name(f), v) in SearchQuery(sp)
      ensures v == Get(sp, f)
    {
      assert (Name(f), v) in es;
    }
  }

  /** The query never holds a name outside the four fields, nor an empty value. */
  lemma SearchQueryShape(sp: SearchParams)
    ensures |SearchQuery(sp)| <= 4
    ensures forall e :: e in SearchQuery(sp) ==> e.1 != "" && e.0 in {"tipo_negocio", "tipo_imovel", "cidade", "preco_max"}
  {
  }

  /** With every field empty the search goes to `/imoveis?`. */
  lemma EmptySearch()
    ensures SearchQuery(Initial) == []
  {
    assert forall e :: e in Entries(Initial) ==> !HasValue(e);
  }

  /** The `forEach` over the entries: append each pair whose value is non-empty. */
  method AppendNonEmpty(entries: Query) returns (params: Query)
    ensures params == Filter(entries, HasValue)
  {
    params := [];
    var i := 0;
    while i < |entries|
      invariant 0 <= i <= |entries|
      invariant params == Filter(entries[..i], HasValue)
    {
      assert entries[..i + 1] == entries[..i] + [entries[i]];
      FilterAppend(entries[..i], [entries[i]], HasValue);
      var (key, value) := entries[i];
      if value != "" {
        params := params + [(key, value)];
      }
      i := i + 1;
    }
    assert entries[..i] == entries;
  }

  /** `handleSearch`: the non-empty fields as a query, then navigate to `/imoveis?<query>`. */
  method HandleSearch(sp: SearchParams) returns (target: string)
    ensures target == "/imoveis?" + QueryString(SearchQuery(sp))
  {
    var params := AppendNonEmpty(Entries(sp));
    target := "/imoveis?" + QueryString(params);
  }

  /** `handleSelectChange(value, field)` and `handleInputChange`: a copy with one field replaced. */
  function SetField(sp: SearchParams, f: Field, value: string): (r: SearchParams)
    ensures Get(r, f) == value
    ensures forall g :: g != f ==> Get(r, g) == Get(sp, g)
  {
    match f
    case TipoNegocio => sp.(tipoNegocio := value)
    case TipoImovel => sp.(tipoImovel := value)
    case Cidade => sp.(cidade := value)
    case PrecoMax => sp.(precoMax := value)
  }

  /** Writing a field's current value back changes nothing; writing twice keeps the last. */
  lemma SetFieldLaws(sp: SearchParams, f: Field, v: string, w: string)
    ensures SetField(sp, f, Get(sp, f)) == sp
    ensures SetField(SetField(sp, f, v), f, w) == SetField(sp, f, w)
  {
  }
}
