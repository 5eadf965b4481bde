/**
 * The application's route table and the guard in front of the admin area. A path is
 * given by its segments (`/admin/imoveis/novo` is `["admin", "imoveis", "novo"]`,
 * `/` is `[]`).
 */
module Routes {
  import opened Common
  import opened Text

  /** A pattern segment: a literal, or a `:name` parameter matching any one segment. */
  datatype Segment = Lit(text: string) | Param(name: string)

  datatype Page =
    | Home | ImovelListagem | ImovelDetalhes | Sobre | Contato
    | Login | Register
    | Dashboard | ImoveisAdmin | ImovelFormNovo | ImovelFormEditar | LeadsAdmin | VisitasAdmin | Configuracoes

  /** A route: its full pattern, its page, and whether it sits under the `PrivateRoute` element. */
  datatype Route = Route(pattern: seq<Segment>, page: Page, isPrivate: bool)

  /** `AppRoutes`, flattened: the public layout's children, the two auth pages, and the admin children under the guard. */
  const Table: seq<Route> := [
    Route([], Home, false),
    Route([Lit("imoveis")], ImovelListagem, false),
    Route([Lit("imoveis"), Param("id")], ImovelDetalhes, false),
    Route([Lit("sobre")], Sobre, false),
    Route([Lit("contato")], Contato, false),
    Route([Lit("login")], Login, false),
    Route([Lit("register")], Register, false),
    Route([Lit("admin")], Dashboard, true),
    Route([Lit("admin"), Lit("imoveis")], ImoveisAdmin, true),
    Route([Lit("admin"), Lit("imoveis"), Lit("novo")], ImovelFormNovo, true),
    Route([Lit("admin"), Lit("imoveis"), Lit("editar"), Param("id")], ImovelFormEditar, true),
    Route([Lit("admin"), Lit("leads")], LeadsAdmin, true),
    Route([Lit("admin"), Lit("visitas")], VisitasAdmin, true),
    Route([Lit("admin"), Lit("configuracoes")], Configuracoes, true)
  ]

  predicate SegmentMatches(s: Segment, part: string) {
    match s
    case Lit(text) => text == Lower(part)
    case Param(_) => part != ""
  }

  /** The pattern and the path have the same length and match segment by segment. */
  predicate Matches(pattern: seq<Segment>, path: seq<string>) {
    if pattern == [] then path == []
    else path != [] && SegmentMatches(pattern[0], path[0]) && Matches(pattern[1..], path[1..])
  }

  /** The first route of `routes` whose pattern matches `path`, or `None` when none does. */
  function FirstMatch(routes: seq<Route>, path: seq<string>): (r: Option<Route>)
    ensures r.Some? ==> r.value in routes && Matches(r.value.pattern, path)
  {
    if routes == [] then None
    else if Matches(routes[0].pattern, path) then Some(routes[0])
    else FirstMatch(routes[1..], path)
  }

  /** There is no first match exactly when no route matches. */
  lemma {:induction false} FirstMatchNone(routes: seq<Route>, path: seq<string>)
    ensures FirstMatch(routes, path).None? <==> forall route :: route in routes ==> !Matches(route.pattern, path)
  {
    if routes != [] {
      FirstMatchNone(routes[1..], path);
      assert forall route :: route in routes ==> route == routes[0] || route in routes[1..];
    }
  }

  /** What the router shows. */
  datatype Outcome = Spinner | Render(page: Page) | Redirect(to: string)

  /** `PrivateRoute`: a spinner while the session is loading, the page when authenticated, `/login` otherwise. */
  function PrivateRoute(loading: bool, authenticated: bool, page: Page): (o: Outcome)
    ensures loading ==> o == Spinner
    ensures !loading && authenticated ==> o == Render(page)
    ensures !loading && !authenticated ==> o == Redirect("/login")
  {
    if loading then Spinner
    else if authenticated then Render(page) else Redirect("/login")
  }

  /** Navigating to `path`: the matched route, behind the guard when it is private; anything unmatched goes to `/`. */
  function Visit(path: seq<string>, loading: bool, authenticated: bool): (o: Outcome)
    ensures o.Spinner? ==> loading
    ensures o == Redirect("/login") ==> !loading && !authenticated
    ensures o.Redirect? ==> o.to in {"/", "/login"}
  {
    match FirstMatch(Table, path)
    case None => Redirect("/")
    case Some(route) =>
      if route.isPrivate then PrivateRoute(loading, authenticated, route.page) else Render(route.page)
  }

  /** Exactly the routes under `/admin` are guarded, and no route starts with a parameter. */
  lemma TableGuards()
    ensures forall i :: 0 <= i < |Table| ==> |Table[i].pattern| == 0 || Table[i].pattern[0].Lit?
    ensures forall i :: 0 <= i < |Table| ==> (Table[i].isPrivate <==> |Table[i].pattern| > 0 && Table[i].pattern[0] == Lit("admin"))
  {
  }

  /** A page under `/admin` is shown only to an authenticated session that has finished loading. */
  lemma {:induction false} AdminNeedsSession(path: seq<string>, loading: bool, authenticated: bool)
    requires |path| > 0 && Lower(path[0]) == "admin"
    ensures Visit(path, loading, authenticated).Render? ==> !loading && authenticated
    ensures FirstMatch(Table, path).Some? && loading ==> Visit(path, loading, authenticated) == Spinner
    ensures FirstMatch(Table, path).Some? && !loading && !authenticated ==> Visit(path, loading, authenticated) == Redirect("/login")
  {
    TableGuards();
    var m := FirstMatch(Table, path);
    if m.Some? {
      assert SegmentMatches(m.value.pattern[0], path[0]);
      assert m.value.isPrivate;
    }
  }

  /** The route at `k` is the one chosen when it matches and no earlier route does. */
  lemma {:induction false} FirstMatchAt(routes: seq<Route>, path: seq<string>, k: nat)
    requires k < |routes| && Matches(routes[k].pattern, path)
    requires forall j :: 0 <= j < k ==> !Matches(routes[j].pattern, path)
    ensures FirstMatch(routes, path) == Some(routes[k])
  {
    if k > 0 {
      FirstMatchAt(routes[1..], path, k - 1);
    }
  }

  /** A pattern only matches a path of its own length. */
  lemma {:induction false} MatchesLength(pattern: seq<Segment>, path: seq<string>)
    ensures Matches(pattern, path) ==> |pattern| == |path|
  {
    if pattern != [] && path != [] {
      MatchesLength(pattern[1..], path[1..]);
    }
  }

  /** A public route that matches, with no earlier route matching, renders its page. */
  lemma RenderAt(path: seq<string>, k: nat, loading: bool, authenticated: bool)
    requires k < |Table| && !Table[k].isPrivate && Matches(Table[k].pattern, path)
    requires forall j :: 0 <= j < k ==> !Matches(Table[j].pattern, path)
    ensures Visit(path, loading, authenticated) == Render(Table[k].page)
  {
    FirstMatchAt(Table, path, k);
  }

  /** `/login`, in any letter case, renders whatever the session state. */
  lemma LoginPublic(p: seq<string>, loading: bool, authenticated: bool)
    requires |p| == 1 && Lower(p[0]) == "login"
    ensures Visit(p, loading, authenticated) == Render(Login)
  {
    forall j | 0 <= j < 5
      ensures !Matches(Table[j].pattern, p)
    {
      MatchesLength(Table[j].pattern, p);
      if |Table[j].pattern| == 1 {
        assert Table[j].pattern[0] in {Lit("imoveis"), Lit("sobre"), Lit("contato")};
      }
    }
    assert Matches(Table[5].pattern, p);
    RenderAt(p, 5, loading, authenticated);
  }

  /** `/register`, in any letter case, renders whatever the session state. */
  lemma RegisterPublic(p: seq<string>, loading: bool, authenticated: bool)
    requires |p| == 1 && Lower(p[0]) == "register"
    ensures Visit(p, loading, authenticated) == Render(Register)
  {
    forall j | 0 <= j < 6
      ensures !Matches(Table[j].pattern, p)
    {
      MatchesLength(Table[j].pattern, p);
      if |Table[j].pattern| == 1 {
        assert Table[j].pattern[0] in {Lit("imoveis"), Lit("sobre"), Lit("contato"), Lit("login")};
      }
    }
    assert Matches(Table[6].pattern, p);
    RenderAt(p, 6, loading, authenticated);
  }

  /** A path no route matches redirects to `/`, even under `/admin`: the guard never sees it. */
  lemma {:induction false} UnmatchedGoesHome(path: seq<string>, loading: bool, authenticated: bool)
    requires forall j :: 0 <= j < |Table| ==> !Matches(Table[j].pattern, path)
    ensures Visit(path, loading, authenticated) == Redirect("/")
  {
    forall route | route in Table
      ensures !Matches(route.pattern, path)
    {
      var j :| 0 <= j < |Table| && Table[j] == route;
    }
    FirstMatchNone(Table, path);
  }

  /** Example: `/admin/relatorios` is not an admin route; it is unmatched and goes to `/`. */
  lemma UnknownAdminPath(p: seq<string>, loading: bool, authenticated: bool)
    requires |p| == 2 && Lower(p[0]) == "admin" && Lower(p[1]) == "relatorios"
    ensures Visit(p, loading, authenticated) == Redirect("/")
  {
    forall j | 0 <= j < |Table|
      ensures !Matches(Table[j].pattern, p)
    {
      MatchesLength(Table[j].pattern, p);
      if |Table[j].pattern| == 2 {
        assert Table[j].pattern[1] in {Param("id"), Lit("imoveis"), Lit("leads"), Lit("visitas"), Lit("configuracoes")};
      }
    }
    UnmatchedGoesHome(p, loading, authenticated);
  }

  /** A pattern sees a path segment only through its lower-cased form. */
  lemma {:induction false} MatchesIgnoresCase(pattern: seq<Segment>, p: seq<string>, q: seq<string>)
    requires |p| == |q| && forall i :: 0 <= i < |p| ==> Lower(p[i]) == Lower(q[i])
    ensures Matches(pattern, p) == Matches(pattern, q)
  {
    if pattern != [] && p != [] {
      assert |Lower(p[0])| == |p[0]| && |Lower(q[0])| == |q[0]|;
      MatchesIgnoresCase(pattern[1..], p[1..], q[1..]);
    }
  }

  lemma {:induction false} FirstMatchIgnoresCase(routes: seq<Route>, p: seq<string>, q: seq<string>)
    requires |p| == |q| && forall i :: 0 <= i < |p| ==> Lower(p[i]) == Lower(q[i])
    ensures FirstMatch(routes, p) == FirstMatch(routes, q)
  {
    if routes != [] {
      MatchesIgnoresCase(routes[0].pattern, p, q);
      FirstMatchIgnoresCase(routes[1..], p, q);
    }
  }

  /** Two paths that differ only in the case of their letters lead to the same outcome. */
  lemma VisitIgnoresCase(p: seq<string>, q: seq<string>, loading: bool, authenticated: bool)
    requires |p| == |q| && forall i :: 0 <= i < |p| ==> Lower(p[i]) == Lower(q[i])
    ensures Visit(p, loading, authenticated) == Visit(q, loading, authenticated)
  {
    FirstMatchIgnoresCase(Table, p, q);
  }

  /** Example: `/Admin` is `/admin`, the guarded dashboard, not an unmatched path. */
  lemma AdminIgnoresCase(loading: bool, authenticated: bool)
    ensures Visit(["Admin"], loading, authenticated) == Visit(["admin"], loading, authenticated)
  {
    assert Lower("Admin") == Lower("admin");
    VisitIgnoresCase(["Admin"], ["admin"], loading, authenticated);
  }
}
