/** The admin listing page: image URLs, the summary counters, tag capitalisation and the delete and feature handlers. */
module ImoveisAdmin {
  import opened Common
  import opened Seqs
  import opened Text
  import opened Http
  import opened Browser
  import opened Listings

  /** `import.meta.env.VITE_API_URL || 'http://localhost:8000'`. */
  function BaseUrl(configured: Option<string>): (base: string)
    ensures Truthy(configured) ==> base == configured.value
    ensures !Truthy(configured) ==> base == "http://localhost:8000"
  {
    if configured.Some? && configured.value != "" then configured.value else "http://localhost:8000"
  }

  predicate IsAbsolute(url: string) {
    StartsWith(url, "http://") || StartsWith(url, "https://")
  }

  /** `getImageUrl(url)`: `''` stays `''`, an absolute URL is kept, anything else is resolved against `base`. */
  function GetImageUrl(base: string, url: string): (r: string)
    ensures url == "" ==> r == ""
    ensures url != "" && IsAbsolute(url) ==> r == url
    ensures url != "" && !IsAbsolute(url) ==> r == base + url
  {
    if url == "" then ""
    else if IsAbsolute(url) then url
    else base + url
  }

  lemma {:induction false} StartsWithAppend(s: string, t: string, prefix: string)
    requires StartsWith(s, prefix)
    ensures StartsWith(s + t, prefix)
  {
    assert (s + t)[..|prefix|] == s[..|prefix|];
  }

  /** With an absolute base every non-empty result is absolute, so resolving twice is resolving once. */
  lemma {:induction false} GetImageUrlIdempotent(base: string, url: string)
    requires IsAbsolute(base)
    ensures url != "" ==> IsAbsolute(GetImageUrl(base, url))
    ensures GetImageUrl(base, GetImageUrl(base, url)) == GetImageUrl(base, url)
  {
    if url != "" && !IsAbsolute(url) {
      if StartsWith(base, "http://") {
        StartsWithAppend(base, url, "http://");
      } else {
        StartsWithAppend(base, url, "https://");
      }
      assert IsAbsolute(base + url);
    }
  }

  /** The four counters above the grid. */
  datatype Stats = Stats(total: nat, destaques: nat, venda: nat, aluguel: nat)

  predicate IsDestaque(i: Imovel) { i.destaque }
  predicate IsVenda(i: Imovel) { i.tipoNegocio == "venda" }
  predicate IsAluguel(i: Imovel) { i.tipoNegocio == "aluguel" }

  function ComputeStats(imoveis: seq<Imovel>): Stats {
    Stats(|imoveis|, |Filter(imoveis, IsDestaque)|, |Filter(imoveis, IsVenda)|, |Filter(imoveis, IsAluguel)|)
  }

  /** Each counter is at most the total, and a listing is never both for sale and for rent. */
  lemma StatsBounds(imoveis: seq<Imovel>)
    ensures ComputeStats(imoveis).total == |imoveis|
    ensures ComputeStats(imoveis).destaques <= ComputeStats(imoveis).total
    ensures ComputeStats(imoveis).venda + ComputeStats(imoveis).aluguel <= ComputeStats(imoveis).total
  {
    FilterDisjoint(imoveis, IsVenda, IsAluguel, _ => true);
  }

  /** `toUpperCase` on one character, for the ASCII letters. */
  function ToUpper(c: char): (u: char)
    ensures 'a' <= c <= 'z' ==> 'A' <= u <= 'Z' && u as int == c as int - 32
    ensures !('a' <= c <= 'z') ==> u == c
  {
    if 'a' <= c <= 'z' then (c as int - 32) as char else c
  }

  /** `s.charAt(0).toUpperCase() + s.slice(1)`. */
  function Capitalize(s: string): (r: string)
    ensures |r| == |s|
    ensures s != [] ==> r[0] == ToUpper(s[0]) && r[1..] == s[1..]
  {
    if s == "" then "" else [ToUpper(s[0])] + s[1..]
  }

  /** Capitalising twice is capitalising once. */
  lemma CapitalizeIdempotent(s: string)
    ensures Capitalize(Capitalize(s)) == Capitalize(s)
  {
  }

  /**
   * `handleDelete(id)` after the dialog closes: nothing unless confirmed; then the
   * DELETE, and a refetch of the list (page 1, the stored filters) only when it
   * succeeded. `query` is what the refetch sent.
   */
  method HandleDelete(store: ImovelStore, confirmed: bool, deleteReply: Settled<()>, fetchReply: Settled<ListPage>)
    returns (refetched: bool, query: Option<Query>)
    modifies store`imoveis, store`pagination, store`loading
    ensures refetched <==> confirmed && deleteReply.Fulfilled?
    ensures !refetched ==> query == None && unchanged(store)
    ensures refetched ==> query == Some(FetchQuery(1, store.filtros)) && !store.loading
    ensures refetched && fetchReply.Fulfilled? ==>
      && store.imoveis == fetchReply.value.results
      && store.pagination == Pagination(fetchReply.value.count, fetchReply.value.next, fetchReply.value.previous)
    ensures refetched && fetchReply.Rejected? ==>
      store.imoveis == old(store.imoveis) && store.pagination == old(store.pagination)
  {
    refetched, query := false, None;
    if confirmed {
      var ok := store.DeleteImovel(deleteReply);
      if ok {
        var sent := store.FetchImoveis(None, None, fetchReply);
        refetched, query := true, Some(sent);
      }
    }
  }

  /**
   * `handleToggleDestaque(id)`: refetch (page 1, the stored filters) after the PATCH
   * succeeds; a failure is swallowed and the store left as it was.
   */
  method HandleToggleDestaque(store: ImovelStore, toggleReply: Settled<Imovel>, fetchReply: Settled<ListPage>)
    returns (refetched: bool, query: Option<Query>)
    modifies store`imoveis, store`pagination, store`loading
    ensures refetched <==> toggleReply.Fulfilled?
    ensures !refetched ==> query == None && unchanged(store)
    ensures refetched ==> query == Some(FetchQuery(1, store.filtros)) && !store.loading
    ensures refetched && fetchReply.Fulfilled? ==>
      && store.imoveis == fetchReply.value.results
      && store.pagination == Pagination(fetchReply.value.count, fetchReply.value.next, fetchReply.value.previous)
    ensures refetched && fetchReply.Rejected? ==>
      store.imoveis == old(store.imoveis) && store.pagination == old(store.pagination)
  {
    var result := store.ToggleDestaque(toggleReply);
    refetched, query := false, None;
    if result.Fulfilled? {
      var sent := store.FetchImoveis(None, None, fetchReply);
      refetched, query := true, Some(sent);
    }
  }
}
