# ImobiLux front end — a Dafny model of its state and decision logic

This project is a Dafny model of the logic in the ImobiLux real-estate front end (a React app) that does
more than render:

- **The listing store** (`Listings`). It holds the listings, the featured listings, the listing being
  viewed, the pagination cursor and the filter record.
  - The filter record is an ordered key/value sequence. A JavaScript object spread keeps existing keys in
    place and appends new ones, and the listing page merges arbitrary URL keys into the record.
  - `fetchImoveis` serialises the record into query pairs: `page` first, then the entries whose value is
    neither `''` nor `false`, with four range keys renamed.
- **The session** (`Browser`, `Api`, `Auth`). The browser state is a class: the two stored tokens, the
  shared `Authorization` default header and the current path.
  - The request interceptor attaches the stored token.
  - The response interceptor refreshes at most once per request (the `_retry` flag), replays the request,
    and tears the session down on a failed refresh under `/admin`.
  - The session provider covers startup rehydration, login, logout and refresh.
- **Routing** (`Routes`): the route table, the `PrivateRoute` guard and the catch-all redirect.
- **Page logic** (`Config`, `Hero`, `ImoveisAdmin`, `Leads`, `Visitas`):
  - the settings hook's outcome handling;
  - the home search query;
  - image URLs, counters and capitalisation on the admin listings page;
  - the leads filter, counters, labels and WhatsApp link;
  - the visits calendar, the upcoming-visits list (filtered, sorted), its counters and labels;
  - the refetch-only-after-success handlers.

`Common`, `Seqs`, `Text` and `Http` hold what the others share:

- `Option`;
- `filter`/`map` with their lemmas;
- decimal rendering, `startsWith` and query strings;
- the settled-promise type every API call returns.

Outside effects are parameters:

- Each HTTP call is given by how its promise settles (`Settled<T>`, or `Reply` for what the server sends
  the interceptor).
- JWT decoding is a partial function `string -> Option<Claims>`.
- The clock is an integer (milliseconds).
- The calendar day of a time is a function `int -> int`, and the time-of-day text is a function
  `int -> string`.

Three behaviours of the code are worth stating plainly, because a reader might expect otherwise:

- A failed refresh does not always end the session. In `src/services/api.js:58-67` the interceptor
  removes the stored tokens and navigates to `/login` only when the path starts with `/admin`, and it
  never clears the provider's `user` or the default header. `Api.OnRejected` states exactly this.
- The session provider offers login, logout, refresh and startup rehydration only. `AuthContext` has no
  register or profile operation, so none is modelled.
- A replayed request that fails again is not caught by the interceptor's `catch`, because
  `return api(originalRequest)` is not awaited inside the `try` (`src/services/api.js:57`). Such a
  failure therefore never triggers the `/admin` teardown. `Api.OnRejected` models this.

## Model

| member | source | states |
|---|---|---|
| `Listings.Lookup` | src/context/ImovelContext.tsx:57 | `f[k]` is missing exactly when `k` is not a key of the record |
| `Listings.SetKeys` | src/context/ImovelContext.tsx:187 | assigning a key keeps an existing key in place and appends a new key last |
| `Listings.Set` | src/context/ImovelContext.tsx:187 | `f[k] = v`: the record afterwards holds the entry `(k, v)` and has at most one more entry |
| `Listings.SetLookup` | src/context/ImovelContext.tsx:187 | after `f[k] = v`, key `k` reads `v` and every other key reads its old value |
| `Listings.Merge` | src/context/ImovelContext.tsx:186-188 | `{...f, ...p}`: at least `f`'s entries and at most one more per entry of `p`; its meaning is in the five lemmas below |
| `Listings.MergeKeys` | src/context/ImovelContext.tsx:187 | the keys after `{...f, ...p}` are `f`'s keys in their order, followed by `p`'s new keys in `p`'s order |
| `Listings.MergeLookup` | src/context/ImovelContext.tsx:186-188 | after the merge, a key in the partial reads the partial's value and any other key reads the old value |
| `Listings.MergeDistinct` | src/pages/Public/ImovelListagem.tsx:18-22 | merging any partial, including arbitrary URL keys, never duplicates a key |
| `Listings.MergeUnchanged` | src/context/ImovelContext.tsx:186-188 | a record that already holds every entry of the partial is unchanged by the merge; `updateFiltros({})` is the identity |
| `Listings.MergeIdempotent` | src/context/ImovelContext.tsx:186-188 | merging the same partial twice equals merging it once |
| `Listings.InitialFiltros` | src/context/ImovelContext.tsx:31-48 | the initial record, with ordering `-criado_em`, has distinct keys |
| `Listings.InitialQuery` | src/context/ImovelContext.tsx:190-209 | the initial (or cleared) record sends only `page` and `ordering=-criado_em` |
| `Listings.ParamName` | src/context/ImovelContext.tsx:61-71 | the four range keys are renamed to `preco_venda__gte/lte` and `area_total__gte/lte`; every other key keeps its name |
| `Listings.FilterParams` | src/context/ImovelContext.tsx:59-73 | the filter pairs never outnumber the entries |
| `Listings.FilterParamsAppend` | src/context/ImovelContext.tsx:59-73 | the serialisation of the concatenation of two records is the concatenation of their serialisations, so record order is kept |
| `Listings.FilterParamsAreSentEntries` | src/context/ImovelContext.tsx:59-73 | the filter pairs are exactly the entries whose value is neither `''` nor `false`, renamed, in record order |
| `Listings.FilterParamsMembership` | src/context/ImovelContext.tsx:59-73 | a pair is sent iff some entry with a sent value produces it |
| `Listings.PageOrDefault` | src/context/ImovelContext.tsx:50 | `page` defaults to 1 |
| `Listings.FetchQuery` | src/context/ImovelContext.tsx:53-54 | the query always starts with `page=<page>` and continues with the filter pairs |
| `Listings.AppendEntry` | src/context/ImovelContext.tsx:59-72 | one step of the `forEach`, with its rename branches, appends exactly what the entry contributes to `FilterParams` |
| `Listings.BuildParams` | src/context/ImovelContext.tsx:53-73 | the loop produces exactly `FetchQuery(page, filtros)` |
| `Listings.FiltersToUse` | src/context/ImovelContext.tsx:57 | without an override the stored record is used verbatim |
| `Listings.FiltersToUseLookup` | src/context/ImovelContext.tsx:57 | with an override, each key takes the override's value where it has one and the stored value otherwise |
| `Listings.EmptyOverrideIsNoOverride` | src/context/ImovelContext.tsx:57 | an empty override sends the same query as no override |
| `Listings.RangeExample` | src/context/ImovelContext.tsx:59-71 | renamed bounds; `true` is sent as `"true"`; `''` and `false` are dropped; the string `"false"` is sent |
| `Listings.ImovelStore.constructor` | src/context/ImovelContext.tsx:21-48 | the store starts empty, not loading, with a zero cursor and the initial record |
| `Listings.ImovelStore.FetchImoveis` | src/context/ImovelContext.tsx:50-89 | sends `FetchQuery`; on success replaces the listings and cursor wholesale; on failure leaves both; `loading` ends false |
| `Listings.ImovelStore.FetchDestaques` | src/context/ImovelContext.tsx:91-99 | featured listings are the response, or `[]` on a missing body or a failure |
| `Listings.ImovelStore.FetchImovel` | src/context/ImovelContext.tsx:101-114 | returns and remembers the listing on success; returns `null` and keeps the current one on failure |
| `Listings.ImovelStore.DeleteImovel` | src/context/ImovelContext.tsx:140-150 | returns true iff the DELETE succeeded and changes no store state |
| `Listings.ImovelStore.ToggleDestaque` | src/context/ImovelContext.tsx:174-184 | returns the updated listing or rethrows the error, with no store state change |
| `Listings.ImovelStore.UpdateFiltros` | src/context/ImovelContext.tsx:186-188 | the record becomes the merge: new values win, unmentioned keys are kept, key order is as `MergeKeys` says, keys stay distinct |
| `Listings.ImovelStore.LimparFiltros` | src/context/ImovelContext.tsx:190-209 | the record becomes exactly the initial record, whatever came before |
| `Browser.Env.constructor` | src/services/api.js:3-8 | the browser state: the stored tokens as given, no default `Authorization` header yet, the current path |
| `Browser.Bearer` | src/services/api.js:15 | the header is `Bearer ` followed by the token |
| `Browser.BearerInjective` | src/services/api.js:15 | different tokens give different headers |
| `Api.Request.constructor` | src/services/api.js:28-40 | a request config starts with `_retry` unset and the given `Authorization` header |
| `Api.AttachToken` | src/services/api.js:11-18 | sets `Authorization: Bearer <token>` iff a non-empty access token is stored; otherwise the headers are untouched |
| `Api.ReplayResult` | src/services/api.js:26 | a replay answered by the server fulfils with that response; one that fails rejects with its error |
| `Api.OnRejected` | src/services/api.js:27-71 | at most one refresh and one replay, counting those made while handling the replay's own failure. No response, a non-401, or an already-retried request: rejected unchanged with no state change. A first 401 sets `_retry`. No refresh token: no refresh call. Refresh success: access token stored, set on the defaults and the request, refresh token kept, one replay. Refresh failure: rejects with the refresh error and tears down only under `/admin` |
| `Api.Send` | src/services/api.js:11-71 | a successful response passes through untouched; a non-401 error is rejected unchanged; at most one refresh per request |
| `Auth.LoginError` | src/context/AuthContext.tsx:69-72 | the message is the server `detail` when it is a non-empty string, and `Erro ao fazer login` otherwise |
| `Auth.LoginErrorWithoutResponse` | src/context/AuthContext.tsx:67-73 | a failure without a response, or an undecodable token, gives the generic message |
| `Auth.AuthProvider.constructor` | src/context/AuthContext.tsx:21-22 | no user, and loading |
| `Auth.AuthProvider.IsAuthenticated` | src/context/AuthContext.tsx:112-114 | true iff there is a user |
| `Auth.AuthProvider.Rehydrate` | src/context/AuthContext.tsx:24-43 | a token with `exp*1000 > now` restores the user and the header; an expired (including equal) or undecodable token removes both stored tokens with no user set; no token changes nothing; `loading` ends false on every path |
| `Auth.AuthProvider.Login` | src/context/AuthContext.tsx:45-74 | success stores both tokens, sets the header and the decoded user, and reports success. Failure, including a token that will not decode, stores nothing and reports the `LoginError` message |
| `Auth.AuthProvider.Logout` | src/context/AuthContext.tsx:76-81 | both tokens removed, header deleted, user cleared; the end state is a constant, so logging out twice equals once |
| `Auth.AuthProvider.RefreshToken` | src/context/AuthContext.tsx:83-110 | success replaces only the access token, sets the header and user, and returns the token. A missing refresh token, a failed call or an undecodable token logs out and rethrows |
| `Routes.FirstMatch` | src/routes/index.tsx:52-90 | the chosen route is in the table and matches the path |
| `Routes.FirstMatchNone` | src/routes/index.tsx:52-90 | no route is chosen iff no route of the table matches the path |
| `Routes.MatchesLength` | src/routes/index.tsx:56-84 | a pattern only matches a path with as many segments as it has |
| `Routes.PrivateRoute` | src/routes/index.tsx:31-50 | spinner while loading; the children when authenticated; a redirect to `/login` otherwise |
| `Routes.TableGuards` | src/routes/index.tsx:56-84 | the route table `Routes.Table` lists the fourteen page routes in order (the `*` catch-all is the fallback of `Routes.Visit`), and exactly the routes under `/admin` sit behind the guard |
| `Routes.AdminNeedsSession` | src/routes/index.tsx:69-84 | an `/admin` page (first segment `admin` in any letter case) renders only when loading is over and the session is authenticated; the spinner or the login redirect otherwise |
| `Routes.LoginPublic` | src/routes/index.tsx:65 | `/login`, in any letter case, renders whatever the session state |
| `Routes.RegisterPublic` | src/routes/index.tsx:66 | `/register`, in any letter case, renders whatever the session state |
| `Routes.UnmatchedGoesHome` | src/routes/index.tsx:87 | any unmatched path redirects to `/` |
| `Routes.UnknownAdminPath` | src/routes/index.tsx:69-87 | an unknown `/admin/...` path (here `/admin/relatorios`, in any letter case) is unmatched and goes to `/`, not to the guard |
| `Routes.Visit` | src/routes/index.tsx:52-90 | navigating shows the spinner only while loading, redirects to `/login` only a finished, unauthenticated session, and redirects nowhere but `/` and `/login` |
| `Routes.MatchesIgnoresCase` | src/routes/index.tsx:56-84 | route patterns match without regard to letter case: paths whose segments agree once lower-cased match the same patterns |
| `Routes.FirstMatchIgnoresCase` | src/routes/index.tsx:52-90 | paths that agree once lower-cased choose the same route |
| `Routes.VisitIgnoresCase` | src/routes/index.tsx:52-90 | paths that agree once lower-cased have the same outcome |
| `Routes.AdminIgnoresCase` | src/routes/index.tsx:69-84 | `/Admin` is the guarded dashboard, exactly as `/admin` |
| `Config.NotFoundNeedsResponse` | src/hooks/useConfig.ts:44 | only a response with status 404 counts as "not found"; an unreachable backend does not |
| `Config.ConfigHook.constructor` | src/hooks/useConfig.ts:17-33 | starts with the default settings (`Config.DefaultConfig`, useConfig.ts:17-33), loading, and no error |
| `Config.ConfigHook.FetchConfig` | src/hooks/useConfig.ts:36-54 | success: the stored settings and no error. 404: the defaults with no error recorded. Any other failure: the defaults with the error recorded. `loading` ends false |
| `Hero.Entries` | src/pages/Public/Home/components/HeroSection.tsx:9-23 | the four fields in the order `tipo_negocio, tipo_imovel, cidade, preco_max`, under their own names |
| `Hero.SearchQuery` | src/pages/Public/Home/components/HeroSection.tsx:28-33 | at most four pairs, each one of the form's fields with a non-empty value |
| `Hero.SearchQueryFields` | src/pages/Public/Home/components/HeroSection.tsx:28-33 | a field is in the query iff it is non-empty, and then with its own value |
| `Hero.SearchQueryShape` | src/pages/Public/Home/components/HeroSection.tsx:28-33 | at most the four field names, never an empty value |
| `Hero.EmptySearch` | src/pages/Public/Home/components/HeroSection.tsx:35 | with every field empty the query is empty, so the target is `/imoveis?` |
| `Hero.AppendNonEmpty` | src/pages/Public/Home/components/HeroSection.tsx:29-33 | the loop appends exactly the non-empty pairs, in order |
| `Hero.HandleSearch` | src/pages/Public/Home/components/HeroSection.tsx:25-36 | navigates to `/imoveis?` followed by the non-empty fields' query |
| `Hero.SetField` | src/pages/Public/Home/components/HeroSection.tsx:38-50 | exactly one field changes; the others stay equal |
| `Hero.SetFieldLaws` | src/pages/Public/Home/components/HeroSection.tsx:38-50 | writing back a field's own value changes nothing; of two writes the last wins |
| `ImoveisAdmin.BaseUrl` | src/pages/Admin/Imoveis.tsx:46 | the configured URL, or `http://localhost:8000` when none is set |
| `ImoveisAdmin.GetImageUrl` | src/pages/Admin/Imoveis.tsx:48-53 | `''` stays `''`; `http://` and `https://` URLs are unchanged; anything else gets the base prefixed |
| `ImoveisAdmin.GetImageUrlIdempotent` | src/pages/Admin/Imoveis.tsx:48-53 | with an absolute base, every non-empty result is absolute and resolving twice equals once |
| `ImoveisAdmin.ComputeStats` | src/pages/Admin/Imoveis.tsx:86-91 | the `stats` record: the list length and the number of featured, for-sale and for-rent listings (bounds in `ImoveisAdmin.StatsBounds`) |
| `ImoveisAdmin.StatsBounds` | src/pages/Admin/Imoveis.tsx:86-91 | `total` is the list length; `destaques` is at most `total`; `venda + aluguel` is at most `total` |
| `ImoveisAdmin.ToUpper` | src/pages/Admin/Imoveis.tsx:215 | lower-case ASCII letters become upper case; any other character is kept |
| `ImoveisAdmin.Capitalize` | src/pages/Admin/Imoveis.tsx:215-216 | same length, first character upper-cased, rest unchanged |
| `ImoveisAdmin.CapitalizeIdempotent` | src/pages/Admin/Imoveis.tsx:226-227 | capitalising twice equals once |
| `ImoveisAdmin.HandleDelete` | src/pages/Admin/Imoveis.tsx:59-74 | refetch iff the dialog was confirmed and the delete succeeded, and then with page 1 and the stored filters; only the list, the cursor and `loading` may change. No refetch: the store is unchanged. Refetch: loading ends; a successful GET replaces list and cursor, a failed one keeps both |
| `ImoveisAdmin.HandleToggleDestaque` | src/pages/Admin/Imoveis.tsx:76-83 | refetch iff the toggle succeeded, with page 1 and the stored filters; a failed toggle is swallowed and leaves the store unchanged; after a refetch, list and cursor as for `HandleDelete` |
| `Leads.LeadsQuery` | src/pages/Admin/Leads.tsx:42-45 | `status_filter` is sent iff a non-empty filter is set; otherwise the query is empty |
| `Leads.LeadsUrl` | src/pages/Admin/Leads.tsx:41-47 | always `/api/leads/?`; bare iff no non-empty filter is set, otherwise followed by `status_filter=<filter>` |
| `Leads.StatsBounds` | src/pages/Admin/Leads.tsx:127-132 | `total` is the list length, and `novos + convertidos + emNegociacao` is at most `total` |
| `Leads.ComputeStats` | src/pages/Admin/Leads.tsx:127-132 | the `stats` record: the list length and the number of new, converted and negotiating leads (bounds in `Leads.StatsBounds`) |
| `Leads.ConversionRate` | src/pages/Admin/Leads.tsx:134 | the `'0'` case happens exactly when there are no leads; otherwise the ratio is the `convertidos` counter over the `total` counter, positive total, at most that many converted |
| `Leads.StatusColor` | src/pages/Admin/Leads.tsx:92-102 | `getStatusColor`: one tag colour per status (distinctness in `Leads.StatusLabelsDistinct`) |
| `Leads.StatusText` | src/pages/Admin/Leads.tsx:104-114 | `getStatusText`: one label per status (distinctness in `Leads.StatusLabelsDistinct`) |
| `Leads.StatusLabelsDistinct` | src/pages/Admin/Leads.tsx:92-114 | the six statuses have six distinct colours and six distinct labels |
| `Leads.WhatsAppLink` | src/pages/Admin/Leads.tsx:324 | `https://wa.me/55` followed by exactly the characters of `telefone` that are digits |
| `Leads.WhatsAppLinkOrder` | src/pages/Admin/Leads.tsx:324 | the digits keep their order: the link for `a + b` carries `a`'s digits, then `b`'s |
| `Leads.WhatsAppLinkFormatted` | src/pages/Admin/Leads.tsx:324 | a number written as separator, area code, separator, number (`(11) 98765-4321` style) links to the area code followed by the number |
| `Leads.WhatsAppLinkDigits` | src/pages/Admin/Leads.tsx:324 | a number already written in digits is used as it is |
| `Leads.LeadsPage.constructor` | src/pages/Admin/Leads.tsx:35-37 | no leads, not loading, no filter |
| `Leads.LeadsPage.FetchLeads` | src/pages/Admin/Leads.tsx:39-55 | requests `LeadsUrl`; replaces the list on success and keeps it on failure; `loading` ends false |
| `Leads.LeadsPage.ChangeFilter` | src/pages/Admin/Leads.tsx:57-59 | changing the filter stores it and refetches with it; the list is replaced or kept as for `FetchLeads`, and `loading` ends false; nothing else changes |
| `Leads.LeadsPage.HandleUpdateStatus` | src/pages/Admin/Leads.tsx:61-70 | refetch iff the PUT succeeded; a failed PUT leaves the page unchanged, `loading` included; after a refetch the list is replaced or kept and `loading` is false |
| `Leads.LeadsPage.HandleDelete` | src/pages/Admin/Leads.tsx:72-90 | refetch iff confirmed and the DELETE succeeded; a cancelled dialog or a failed DELETE leaves the page unchanged, `loading` included; after a refetch the list is replaced or kept and `loading` is false |
| `Visitas.Badge` | src/pages/Admin/Visitas.tsx:92 | `success` iff confirmed; `error` iff cancelled; `warning` for scheduled and done |
| `Visitas.Item` | src/pages/Admin/Visitas.tsx:91-94 | one calendar entry: the status badge and `HH:mm - <client>` |
| `Visitas.OnDay` | src/pages/Admin/Visitas.tsx:89-90 | only visits of the list that fall on the cell's day |
| `Visitas.GetListData` | src/pages/Admin/Visitas.tsx:87-95 | one entry per visit on the cell's day, in list order, each built from its visit |
| `Visitas.OnDayMembership` | src/pages/Admin/Visitas.tsx:89-90 | a visit is in a cell iff it falls on that cell's day |
| `Visitas.Insert` | src/pages/Admin/Visitas.tsx:151 | inserting into a time-sorted list keeps it sorted |
| `Visitas.InsertMultiset` | src/pages/Admin/Visitas.tsx:151 | insertion adds exactly the one visit |
| `Visitas.SortByTime` | src/pages/Admin/Visitas.tsx:151 | the result is sorted ascending by time and has the input's length |
| `Visitas.SortByTimeMultiset` | src/pages/Admin/Visitas.tsx:151 | sorting is a permutation |
| `Visitas.Upcoming` | src/pages/Admin/Visitas.tsx:149-150 | exactly the visits of the list strictly after the start of today, each at most as often as in the list |
| `Visitas.ProximasVisitas` | src/pages/Admin/Visitas.tsx:149-151 | sorted ascending by `data_hora`, and a permutation of the visits strictly after the start of today |
| `Visitas.ProximasMembership` | src/pages/Admin/Visitas.tsx:149-151 | a visit is listed iff it is one of the page's visits and starts strictly after the start of today |
| `Visitas.ComputeStats` | src/pages/Admin/Visitas.tsx:154-161 | the `stats` record over the upcoming visits: their number, the scheduled, the confirmed and today's (bounds in `Visitas.StatsBounds`) |
| `Visitas.StatsBounds` | src/pages/Admin/Visitas.tsx:154-161 | `total` is the number of upcoming visits; `agendadas + confirmadas` is at most `total`; `hoje` is at most `total` |
| `Visitas.StatusColor` | src/pages/Admin/Visitas.tsx:124-132 | `getStatusColor`: one tag colour per status (distinctness in `Visitas.StatusLabelsDistinct`) |
| `Visitas.StatusText` | src/pages/Admin/Visitas.tsx:134-142 | `getStatusText`: one label per status (distinctness in `Visitas.StatusLabelsDistinct`) |
| `Visitas.StatusLabelsDistinct` | src/pages/Admin/Visitas.tsx:124-142 | the four statuses have distinct colours and distinct labels |
| `Visitas.VisitasPage.constructor` | src/pages/Admin/Visitas.tsx:36-37 | no visits, not loading |
| `Visitas.VisitasPage.FetchVisitas` | src/pages/Admin/Visitas.tsx:39-50 | replaces the list on success and keeps it on failure; `loading` ends false |
| `Visitas.VisitasPage.HandleUpdateStatus` | src/pages/Admin/Visitas.tsx:56-65 | refetch iff the PUT succeeded; a failed PUT leaves the page unchanged, `loading` included; after a refetch the list is replaced or kept and `loading` is false |
| `Visitas.VisitasPage.HandleDelete` | src/pages/Admin/Visitas.tsx:67-85 | refetch iff confirmed and the DELETE succeeded; a cancelled dialog or a failed DELETE leaves the page unchanged, `loading` included; after a refetch the list is replaced or kept and `loading` is false |
| `Http.Detail` | src/context/AuthContext.tsx:71 | only an axios error that carries a response can have a `detail` |
| `Http.Status` | src/hooks/useConfig.ts:44 | a status exists iff the error carries a response |
| `Seqs.FilterDisjoint` | src/pages/Admin/Leads.tsx:127-132 | two predicates that never hold together, both implying a third, count at most what the third counts |
| `Text.NatToStringRoundTrip` | src/context/ImovelContext.tsx:54 | the decimal text of the page number reads back as the page number |
| `Text.QueryString` | src/context/ImovelContext.tsx:75 | the query string is empty iff there are no pairs |

## Left out

- HTTP, `localStorage`, `window.location`, `Date.now()`, toasts and console logging are effects. They
  appear only as parameters or as fields of `Browser.Env`.
- The refresh URL `http://localhost:8000/api/token/refresh/` is a fixed endpoint and is not modelled.
- `jwt-decode` is a foreign library. It is a partial function parameter. Claims other than `exp`,
  `user_id` and `username` are dropped.
- `URLSearchParams` percent-encoding is not modelled. Queries are ordered pairs joined as `k=v&…`.
- The numeric text of a value (`toString()` of a number) is not modelled. Filter values are strings or
  booleans, as the filter record's type declares.
- `Listings.Merge`: JavaScript objects list integer-like keys (`"1"`, `"2"`) before the others. The model
  keeps plain insertion order for every key. The record's own keys are never integer-like, but the
  listing page copies every URL key into it (`src/pages/Public/ImovelListagem.tsx:18-22`). A URL-injected
  integer-like key, as in `/imoveis?2=a`, is therefore ordered last by the model where JavaScript orders
  it first: `page=1&2=a&ordering=-criado_em` in the source, `…&ordering=-criado_em&2=a` in the model.
- `createImovel`, `updateImovel` and `uploadImagem` only wrap one request and rethrow; they touch no
  store state.
- axios merges the instance's default `Authorization` header into each request. The model keeps the
  default header and the request header separately and does not model the merge.
- `Auth.AuthProvider.Login`: `reply` is the promise after the interceptors have run. The model does not
  compose `Api.OnRejected` with the login call. That composition is what would show a wrong-password 401
  being replaced by the refresh failure.
- Overlapping fetches resolving out of order, React effect timing, and the stale filter record captured
  by the listing page's effect are all async runtime behaviour and are not modelled.
- `Leads.ConversionRate` does not produce the `toFixed(1)` text of a non-zero rate, because that is
  floating point. It states when the rate is `'0'` and bounds the ratio.
- `ImoveisAdmin.ToUpper` upper-cases ASCII letters only. JavaScript's `toUpperCase` also maps other
  letters (such as `ç`).
- `Visitas.SortByTime`: the source's sort is stable. The model's insertion places a visit before later
  visits with the same time, which keeps input order, but stability is not stated as a property.
- `Routes.SegmentMatches`: React Router compares route literals with the path case-insensitively. The
  model lower-cases ASCII letters only; other letters are compared as they are. Percent-decoding and
  trailing slashes are not modelled either.
- Calendar days, `HH:mm` text and "start of today" come from dayjs and the clock. They are the
  parameters `day`, `hhmm` and `startOfToday`.
- Rendering, styling, the dashboard, the form pages, register, contact and the other static pages are
  presentation or thin request wrappers.
