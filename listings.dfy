/**
 * The listing store: the loaded listings, the featured listings, the listing being
 * viewed, the pagination cursor and the active filter record, with the operations
 * that fetch into them and the serialiser that turns the filter record into query
 * parameters.
 *
 * The filter record is an ordered list of entries. A JavaScript object keeps its keys
 * in insertion order, spreading `{ ...a, ...b }` keeps `a`'s keys where they are and
 * appends `b`'s new ones, and the listing page merges arbitrary URL keys into it, so
 * the record is neither a fixed tuple nor an unordered map.
 */
module Listings {
  import opened Common
  import opened Seqs
  import opened Text
  import opened Http

  /** Every filter field holds a string or a boolean. */
  datatype FilterValue = Str(s: string) | Bool(b: bool)

  type Entry = (string, FilterValue)
  type Filtros = seq<Entry>

  /** The record's keys, in record order. */
  function Keys(f: Filtros): (ks: seq<string>)
    ensures |ks| == |f|
  {
    seq(|f|, i requires 0 <= i < |f| => f[i].0)
  }

  lemma KeysCons(e: Entry, f: Filtros)
    ensures Keys([e] + f) == [e.0] + Keys(f)
  {
  }

  lemma KeysTail(f: Filtros)
    requires f != []
    ensures Keys(f)[0] == f[0].0 && Keys(f)[1..] == Keys(f[1..])
  {
  }

  predicate Distinct(ks: seq<string>) {
    forall i, j :: 0 <= i < j < |ks| ==> ks[i] != ks[j]
  }

  /** A JavaScript object never holds a key twice. */
  predicate DistinctKeys(f: Filtros) {
    Distinct(Keys(f))
  }

  /** `f[k]`, or `None` when `f` has no key `k`. */
  function Lookup(f: Filtros, k: string): (r: Option<FilterValue>)
    ensures r.None? <==> k !in Keys(f)
  {
    if f == [] then None
    else
      KeysCons(f[0], f[1..]);
      assert f == [f[0]] + f[1..];
      if f[0].0 == k then Some(f[0].1) else Lookup(f[1..], k)
  }

  /** `f[k] = v`: an existing key keeps its position, a new key goes last. */
  function Set(f: Filtros, k: string, v: FilterValue): (r: Filtros)
    ensures (k, v) in r
    ensures |r| == |f| || |r| == |f| + 1
  {
    if f == [] then [(k, v)]
    else if f[0].0 == k then [(k, v)] + f[1..]
    else [f[0]] + Set(f[1..], k, v)
  }

  /** Assigning keeps the key order, appending the key when it is new. */
  lemma {:induction false} SetKeys(f: Filtros, k: string, v: FilterValue)
    ensures Keys(Set(f, k, v)) == if k in Keys(f) then Keys(f) else Keys(f) + [k]
  {
    if f != [] {
      KeysCons(f[0], f[1..]);
      assert f == [f[0]] + f[1..];
      if f[0].0 == k {
        KeysCons((k, v), f[1..]);
      } else {
        SetKeys(f[1..], k, v);
        KeysCons(f[0], Set(f[1..], k, v));
      }
    }
  }

  /** After assigning, the key holds the new value and every other key its old one. */
  lemma {:induction false} SetLookup(f: Filtros, k: string, v: FilterValue, k': string)
    ensures Lookup(Set(f, k, v), k') == if k' == k then Some(v) else Lookup(f, k')
  {
    if f != [] {
      if f[0].0 == k {
        assert ([(k, v)] + f[1..])[1..] == f[1..];
      } else {
        SetLookup(f[1..], k, v, k');
        assert ([f[0]] + Set(f[1..], k, v))[1..] == Set(f[1..], k, v);
      }
    }
  }

  /** `{ ...f, ...p }`: the entries of `p`, in order, assigned over `f`. */
  function Merge(f: Filtros, p: Filtros): (r: Filtros)
    ensures |f| <= |r| <= |f| + |p|
    decreases |p|
  {
    if p == [] then f else Merge(Set(f, p[0].0, p[0].1), p[1..])
  }

  /** The keys of `ps` not in `ks`, in order of first appearance. */
  function NewKeys(ks: seq<string>, ps: seq<string>): seq<string>
    decreases |ps|
  {
    if ps == [] then []
    else if ps[0] in ks then NewKeys(ks, ps[1..])
    else [ps[0]] + NewKeys(ks + [ps[0]], ps[1..])
  }

  /** A merge keeps every existing key where it was and appends the new keys in the order `p` lists them. */
  lemma {:induction false} MergeKeys(f: Filtros, p: Filtros)
    ensures Keys(Merge(f, p)) == Keys(f) + NewKeys(Keys(f), Keys(p))
    decreases |p|
  {
    if p != [] {
      var k, rest := p[0].0, p[1..];
      var g := Set(f, k, p[0].1);
      SetKeys(f, k, p[0].1);
      MergeKeys(g, rest);
      KeysTail(p);
      var ks, ps, rs := Keys(f), Keys(p), Keys(rest);
      if k in ks {
        calc {
          Keys(Merge(f, p));
          Keys(Merge(g, rest));
          ks + NewKeys(ks, rs);
          ks + NewKeys(ks, ps);
        }
      } else {
        calc {
          Keys(Merge(f, p));
          Keys(Merge(g, rest));
          (ks + [k]) + NewKeys(ks + [k], rs);
          ks + ([k] + NewKeys(ks + [k], rs));
          ks + NewKeys(ks, ps);
        }
      }
    }
  }

  /** In a merge the partial's value wins; a key the partial does not mention keeps its value. */
  lemma {:induction false} MergeLookup(f: Filtros, p: Filtros, k: string)
    requires DistinctKeys(p)
    ensures Lookup(Merge(f, p), k) == if k in Keys(p) then Lookup(p, k) else Lookup(f, k)
    decreases |p|
  {
    if p != [] {
      KeysCons(p[0], p[1..]);
      assert p == [p[0]] + p[1..];
      assert Keys(p[1..]) == Keys(p)[1..];
      SetLookup(f, p[0].0, p[0].1, k);
      MergeLookup(Set(f, p[0].0, p[0].1), p[1..], k);
    }
  }

  /** A merge into a well-formed record is a well-formed record. */
  lemma {:induction false} MergeDistinct(f: Filtros, p: Filtros)
    requires DistinctKeys(f)
    ensures DistinctKeys(Merge(f, p))
    decreases |p|
  {
    if p != [] {
      SetKeys(f, p[0].0, p[0].1);
      MergeDistinct(Set(f, p[0].0, p[0].1), p[1..]);
    }
  }

  /** Assigning a key the value it already has changes nothing. */
  lemma {:induction false} SetUnchanged(f: Filtros, k: string, v: FilterValue)
    requires Lookup(f, k) == Some(v)
    ensures Set(f, k, v) == f
  {
    assert f == [f[0]] + f[1..];
    if f[0].0 != k {
      SetUnchanged(f[1..], k, v);
    }
  }

  /** Merging a partial whose every entry the record already holds changes nothing. */
  lemma {:induction false} MergeUnchanged(f: Filtros, p: Filtros)
    requires forall e :: e in p ==> Lookup(f, e.0) == Some(e.1)
    ensures Merge(f, p) == f
    decreases |p|
  {
    if p != [] {
      assert p[0] in p;
      SetUnchanged(f, p[0].0, p[0].1);
      assert forall e :: e in p[1..] ==> e in p;
      MergeUnchanged(f, p[1..]);
    }
  }

  /** In a well-formed record, each entry is what a lookup of its key finds. */
  lemma {:induction false} LookupEntry(p: Filtros, e: Entry)
    requires DistinctKeys(p) && e in p
    ensures e.0 in Keys(p) && Lookup(p, e.0) == Some(e.1)
  {
    KeysCons(p[0], p[1..]);
    assert p == [p[0]] + p[1..];
    if p[0] != e {
      var j :| 0 <= j < |p| && p[j] == e;
      assert Keys(p)[0] != Keys(p)[j];
      assert p[1..][j - 1] == e;
      assert Keys(p[1..]) == Keys(p)[1..];
      LookupEntry(p[1..], e);
      assert Lookup(p, e.0) == Lookup(p[1..], e.0);
    }
  }

  /** Applying the same partial twice is applying it once. */
  lemma MergeIdempotent(f: Filtros, p: Filtros)
    requires DistinctKeys(p)
    ensures Merge(Merge(f, p), p) == Merge(f, p)
  {
    forall e | e in p
      ensures Lookup(Merge(f, p), e.0) == Some(e.1)
    {
      LookupEntry(p, e);
      MergeLookup(f, p, e.0);
    }
    MergeUnchanged(Merge(f, p), p);
  }

  /** The record the store starts with and `limparFiltros` restores: newest first, everything else unset. */
  function InitialFiltros(): (f: Filtros)
    ensures DistinctKeys(f)
  {
    [ ("tipo_negocio", Str("")), ("tipo_imovel", Str("")), ("cidade", Str("")),
      ("bairro", Str("")), ("preco_min", Str("")), ("preco_max", Str("")),
      ("area_min", Str("")), ("area_max", Str("")), ("quartos", Str("")),
      ("banheiros", Str("")), ("vagas_garagem", Str("")), ("piscina", Bool(false)),
      ("aceita_pets", Bool(false)), ("mobiliado", Bool(false)), ("search", Str("")),
      ("ordering", Str("-criado_em")) ]
  }

  /** An entry is sent iff its value is neither `''` nor `false`. */
  predicate Sent(v: FilterValue) {
    v != Str("") && v != Bool(false)
  }

  predicate SentEntry(e: Entry) {
    Sent(e.1)
  }

  /** The query parameter a filter key is sent under: the four range keys are renamed, every other key keeps its name. */
  function ParamName(k: string): (name: string)
    ensures k == "preco_min" ==> name == "preco_venda__gte"
    ensures k == "preco_max" ==> name == "preco_venda__lte"
    ensures k == "area_min" ==> name == "area_total__gte"
    ensures k == "area_max" ==> name == "area_total__lte"
    ensures k !in {"preco_min", "preco_max", "area_min", "area_max"} ==> name == k
  {
    if k == "preco_min" then "preco_venda__gte"
    else if k == "preco_max" then "preco_venda__lte"
    else if k == "area_min" then "area_total__gte"
    else if k == "area_max" then "area_total__lte"
    else k
  }

  /** `value.toString()`. */
  function ValueText(v: FilterValue): string {
    match v
    case Str(s) => s
    case Bool(b) => if b then "true" else "false"
  }

  function ToParam(e: Entry): (string, string) {
    (ParamName(e.0), ValueText(e.1))
  }

  /** What one entry contributes: its renamed pair when its value is sent, nothing otherwise. */
  function Emit(e: Entry): Query {
    if Sent(e.1) then [ToParam(e)] else []
  }

  /** The query pairs a filter record contributes, entry by entry. */
  function FilterParams(f: Filtros): (q: Query)
    ensures |q| <= |f|
  {
    if f == [] then []
    else Emit(f[0]) + FilterParams(f[1..])
  }

  lemma {:induction false} FilterParamsAppend(a: Filtros, b: Filtros)
    ensures FilterParams(a + b) == FilterParams(a) + FilterParams(b)
  {
    if a != [] {
      var head := if Sent(a[0].1) then [ToParam(a[0])] else [];
      assert (a + b)[0] == a[0];
      assert (a + b)[1..] == a[1..] + b;
      FilterParamsAppend(a[1..], b);
      assert FilterParams(a + b) == head + (FilterParams(a[1..]) + FilterParams(b));
      assert FilterParams(a) + FilterParams(b) == (head + FilterParams(a[1..])) + FilterParams(b);
    } else {
      assert a + b == b;
    }
  }

  /** The query is exactly the sent entries, in record order, each under its parameter name. */
  lemma {:induction false} FilterParamsAreSentEntries(f: Filtros)
    ensures FilterParams(f) == Map(Filter(f, SentEntry), ToParam)
  {
    if f != [] {
      FilterParamsAreSentEntries(f[1..]);
      var head := if Sent(f[0].1) then [f[0]] else [];
      var rest := Filter(f[1..], SentEntry);
      assert Filter(f, SentEntry) == head + rest;
      MapAppend(head, rest, ToParam);
    }
  }

  /** A pair is in the query iff some entry with a sent value produces it. */
  lemma {:induction false} FilterParamsMembership(f: Filtros, name: string, text: string)
    ensures (name, text) in FilterParams(f)
        <==> exists e :: e in f && Sent(e.1) && ToParam(e) == (name, text)
  {
    if f != [] {
      FilterParamsMembership(f[1..], name, text);
      var pr := (name, text);
      assert FilterParams(f) == Emit(f[0]) + FilterParams(f[1..]);
      assert pr in Emit(f[0]) <==> Sent(f[0].1) && ToParam(f[0]) == pr;
      if exists e :: e in f && Sent(e.1) && ToParam(e) == pr {
        var e :| e in f && Sent(e.1) && ToParam(e) == pr;
        if e != f[0] {
          assert e in f[1..];
        }
      }
    }
  }

  /** The page number `fetchImoveis` sends: `page = 1` when none is given. */
  function PageOrDefault(page: Option<nat>): (n: nat)
    ensures page.Some? ==> n == page.value
    ensures page.None? ==> n == 1
  {
    page.GetOr(1)
  }

  /** The whole query: `page` first, then the filter pairs. */
  function FetchQuery(page: nat, f: Filtros): (q: Query)
    ensures |q| >= 1 && q[0] == ("page", NatToString(page))
    ensures q[1..] == FilterParams(f)
  {
    [("page", NatToString(page))] + FilterParams(f)
  }

  /** The body of the `forEach`: append the entry's pair, renamed, when its value is sent. */
  method AppendEntry(params: Query, key: string, value: FilterValue) returns (next: Query)
    ensures next == params + Emit((key, value))
  {
    next := params;
    if value != Str("") && value != Bool(false) {
      if key == "preco_min" {
        next := next + [("preco_venda__gte", ValueText(value))];
      } else if key == "preco_max" {
        next := next + [("preco_venda__lte", ValueText(value))];
      } else if key == "area_min" {
        next := next + [("area_total__gte", ValueText(value))];
      } else if key == "area_max" {
        next := next + [("area_total__lte", ValueText(value))];
      } else {
        next := next + [(key, ValueText(value))];
      }
    }
  }

  /** The serialiser as the source runs it: append `page`, then walk the entries appending each sent one. */
  method BuildParams(page: nat, filtros: Filtros) returns (params: Query)
    ensures params == FetchQuery(page, filtros)
  {
    params := [("page", NatToString(page))];
    var i := 0;
    while i < |filtros|
      invariant 0 <= i <= |filtros|
      invariant params + FilterParams(filtros[i..]) == FetchQuery(page, filtros)
    {
      assert filtros[i..][1..] == filtros[i + 1..];
      var (key, value) := filtros[i];
      params := AppendEntry(params, key, value);
      i := i + 1;
    }
    assert filtros[i..] == [];
  }

  /** The filters `fetchImoveis` serialises: the override merged over the stored record, or the stored record. */
  function FiltersToUse(filtros: Filtros, custom: Option<Filtros>): (used: Filtros)
    ensures custom.None? ==> used == filtros
  {
    if custom.Some? then Merge(filtros, custom.value) else filtros
  }

  /** With an override, each key takes the override's value where it has one and the stored value otherwise. */
  lemma FiltersToUseLookup(filtros: Filtros, custom: Filtros, k: string)
    requires DistinctKeys(custom)
    ensures Lookup(FiltersToUse(filtros, Some(custom)), k)
         == if k in Keys(custom) then Lookup(custom, k) else Lookup(filtros, k)
  {
    MergeLookup(filtros, custom, k);
  }

  /** An empty override serialises exactly like no override. */
  lemma EmptyOverrideIsNoOverride(filtros: Filtros, page: nat)
    ensures FetchQuery(page, FiltersToUse(filtros, Some([]))) == FetchQuery(page, FiltersToUse(filtros, None))
  {
  }

  /**
   * Price bounds are renamed, `true` is sent as `"true"`, an empty field and a `false`
   * flag are dropped, but the string `"false"` (how a flag arrives from the URL) is sent.
   */
  lemma RangeExample()
    ensures FetchQuery(1, [("cidade", Str("")), ("preco_min", Str("100")), ("preco_max", Str("500")),
                           ("piscina", Bool(true)), ("mobiliado", Bool(false)), ("aceita_pets", Str("false"))])
         == [("page", "1"), ("preco_venda__gte", "100"), ("preco_venda__lte", "500"), ("piscina", "true"),
             ("aceita_pets", "false")]
  {
    var f: Filtros := [("cidade", Str("")), ("preco_min", Str("100")), ("preco_max", Str("500")),
                       ("piscina", Bool(true)), ("mobiliado", Bool(false)), ("aceita_pets", Str("false"))];
    assert Emit(f[0]) == [] by { assert !Sent(Str("")); }
    assert Emit(f[1]) == [("preco_venda__gte", "100")] by { assert Sent(Str("100")); }
    assert Emit(f[2]) == [("preco_venda__lte", "500")] by { assert Sent(Str("500")); }
    assert Emit(f[3]) == [("piscina", "true")] by { assert ParamName("piscina") == "piscina"; }
    assert Emit(f[4]) == [];
    assert Emit(f[5]) == [("aceita_pets", "false")] by {
      assert Sent(Str("false"));
      assert ParamName("aceita_pets") == "aceita_pets";
    }
    forall i | 0 <= i < |f|
      ensures FilterParams(f[i..]) == Emit(f[i]) + FilterParams(f[i + 1..])
    {
      assert f[i..][1..] == f[i + 1..];
    }
    assert f[6..] == [];
  }

  /** A listing (only the fields the core reads). */
  datatype Imovel = Imovel(
    id: int,
    titulo: string,
    tipoImovel: string,
    tipoNegocio: string,
    cidade: string,
    preco: int,
    destaque: bool,
    imagemPrincipal: Option<string>)

  datatype Pagination = Pagination(count: int, next: Option<string>, previous: Option<string>)

  /** The body of a paginated listing response. */
  datatype ListPage = ListPage(results: seq<Imovel>, count: int, next: Option<string>, previous: Option<string>)

  class ImovelStore {
    var imoveis: seq<Imovel>
    var imovel: Option<Imovel>
    var destaques: seq<Imovel>
    var loading: bool
    var pagination: Pagination
    var filtros: Filtros

    ghost predicate Valid()
      reads this
    {
      DistinctKeys(filtros)
    }

    constructor ()
      ensures Valid()
      ensures imoveis == [] && imovel == None && destaques == [] && !loading
      ensures pagination == Pagination(0, None, None) && filtros == InitialFiltros()
    {
      imoveis := [];
      imovel := None;
      destaques := [];
      loading := false;
      pagination := Pagination(0, None, None);
      filtros := InitialFiltros();
    }

    /**
     * `fetchImoveis(page, filtrosCustom)`: serialises the filters into the request's
     * query, then replaces the listings and the cursor wholesale on success and leaves
     * both alone on failure. `reply` is how the GET settles.
     */
    method FetchImoveis(page: Option<nat>, custom: Option<Filtros>, reply: Settled<ListPage>) returns (query: Query)
      modifies this`imoveis, this`pagination, this`loading
      ensures query == FetchQuery(PageOrDefault(page), FiltersToUse(filtros, custom))
      ensures reply.Fulfilled? ==> imoveis == reply.value.results
      ensures reply.Fulfilled? ==> pagination == Pagination(reply.value.count, reply.value.next, reply.value.previous)
      ensures reply.Rejected? ==> imoveis == old(imoveis) && pagination == old(pagination)
      ensures !loading
    {
      loading := true;
      query := BuildParams(PageOrDefault(page), FiltersToUse(filtros, custom));
      match reply {
        case Fulfilled(data) =>
          imoveis := data.results;
          pagination := Pagination(data.count, data.next, data.previous);
        case Rejected(_) =>
      }
      loading := false;
    }

    /** `fetchDestaques`: the response body, or `[]` when the body is missing or the request fails. */
    method FetchDestaques(reply: Settled<Option<seq<Imovel>>>)
      modifies this`destaques
      ensures destaques == if reply.Fulfilled? then reply.value.GetOr([]) else []
    {
      match reply {
        case Fulfilled(data) => destaques := data.GetOr([]);
        case Rejected(_) => destaques := [];
      }
    }

    /** `fetchImovel(id)`: the listing, remembered as the current one, or `null` on failure with the current one kept. */
    method FetchImovel(reply: Settled<Imovel>) returns (result: Option<Imovel>)
      modifies this`imovel, this`loading
      ensures result == if reply.Fulfilled? then Some(reply.value) else None
      ensures imovel == if reply.Fulfilled? then Some(reply.value) else old(imovel)
      ensures !loading
    {
      loading := true;
      match reply {
        case Fulfilled(data) =>
          imovel := Some(data);
          result := Some(data);
        case Rejected(_) =>
          result := None;
      }
      loading := false;
    }

    /** `deleteImovel(id)`: reports whether the DELETE succeeded and changes no store state. */
    method DeleteImovel(reply: Settled<()>) returns (ok: bool)
      ensures ok <==> reply.Fulfilled?
    {
      ok := reply.Fulfilled?;
    }

    /** `toggleDestaque(id)`: the updated listing, or the request's error rethrown; no store state changes. */
    method ToggleDestaque(reply: Settled<Imovel>) returns (result: Settled<Imovel>)
      ensures result == reply
    {
      result := reply;
    }

    /** `updateFiltros(partial)`: a shallow merge in which the partial's values win. */
    method UpdateFiltros(partial: Filtros)
      requires Valid() && DistinctKeys(partial)
      modifies this`filtros
      ensures Valid()
      ensures filtros == Merge(old(filtros), partial)
      ensures forall k :: Lookup(filtros, k) == if k in Keys(partial) then Lookup(partial, k) else Lookup(old(filtros), k)
      ensures Keys(filtros) == Keys(old(filtros)) + NewKeys(Keys(old(filtros)), Keys(partial))
    {
      MergeDistinct(filtros, partial);
      MergeKeys(filtros, partial);
      forall k
        ensures Lookup(Merge(filtros, partial), k) == if k in Keys(partial) then Lookup(partial, k) else Lookup(filtros, k)
      {
        MergeLookup(filtros, partial, k);
      }
      filtros := Merge(filtros, partial);
    }

    /** `limparFiltros()`: back to the initial record, whatever came before. */
    method LimparFiltros()
      modifies this`filtros
      ensures Valid()
      ensures filtros == InitialFiltros()
    {
      filtros := InitialFiltros();
    }
  }

  // The initial record split into four groups, each small enough to evaluate alone.
  const LocationGroup: Filtros := [("tipo_negocio", Str("")), ("tipo_imovel", Str("")), ("cidade", Str("")), ("bairro", Str(""))]
  const RangeGroup: Filtros := [("preco_min", Str("")), ("preco_max", Str("")), ("area_min", Str("")), ("area_max", Str(""))]
  const FeatureGroup: Filtros := [("quartos", Str("")), ("banheiros", Str("")), ("vagas_garagem", Str("")), ("piscina", Bool(false))]
  const TailGroup: Filtros := [("aceita_pets", Bool(false)), ("mobiliado", Bool(false)), ("search", Str("")), ("ordering", Str("-criado_em"))]

  lemma InitialGroups()
    ensures InitialFiltros() == LocationGroup + (RangeGroup + (FeatureGroup + TailGroup))
  {}

  lemma GroupParams()
    ensures FilterParams(LocationGroup) == []
    ensures FilterParams(RangeGroup) == []
    ensures FilterParams(FeatureGroup) == []
    ensures FilterParams(TailGroup) == [("ordering", "-criado_em")]
  {}

  /** With the initial (or cleared) record, the only parameter sent besides the page is the default ordering. */
  lemma {:induction false} InitialQuery()
    ensures FetchQuery(1, InitialFiltros()) == [("page", "1"), ("ordering", "-criado_em")]
  {
    InitialGroups();
    GroupParams();
    FilterParamsAppend(FeatureGroup, TailGroup);
    FilterParamsAppend(RangeGroup, FeatureGroup + TailGroup);
    FilterParamsAppend(LocationGroup, RangeGroup + (FeatureGroup + TailGroup));
  }
}
