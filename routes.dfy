/** The route table of the application (`AppRoutes`): a path and the current token decide
    between rendering a page and redirecting to another path. */
module Routes {
  import opened Wrappers
  import Text

  /** A URL path as its segments: "/" is [], "/forum_threads/7" is ["forum_threads", "7"]. */
  type Path = seq<string>

  /** A pattern segment: a literal (written in lower case) or a `:param` that matches any
      single segment. */
  datatype Segment = Lit(text: string) | Param

  datatype Page =
    | LoginPage | PreferencesPage | HomePage | SettingsPage | ThreadPage
    | CategoriesPage | CategoryDetailsPage | ProfilePage | ExplorePage

  /** `/login` is shown only to visitors without a token; every other route only with one. */
  datatype Access = GuestOnly | SignedInOnly

  datatype Route = Route(pattern: seq<Segment>, access: Access, page: Page)

  /** What a route renders: a page element, or `<Navigate to=...>`. */
  datatype Element = Render(page: Page) | Redirect(target: Path)

  const LoginPath: Path := ["login"]
  const HomePath: Path := []
  const PreferencesPath: Path := ["preferences"]
  const SettingsPath: Path := ["settings"]

  /** The eleven `<Route>` entries, in the order they are declared. */
  const Table: seq<Route> := [
    Route([Lit("login")], GuestOnly, LoginPage),
    Route([Lit("preferences")], SignedInOnly, PreferencesPage),
    Route([], SignedInOnly, HomePage),
    Route([Lit("settings")], SignedInOnly, SettingsPage),
    Route([Lit("forum_threads"), Param], SignedInOnly, ThreadPage),
    Route([Lit("categories"), Param], SignedInOnly, CategoriesPage),
    Route([Lit("categories")], SignedInOnly, CategoriesPage),
    Route([Lit("category"), Param], SignedInOnly, CategoryDetailsPage),
    Route([Lit("profile")], SignedInOnly, ProfilePage),
    Route([Lit("users"), Param], SignedInOnly, ProfilePage),
    Route([Lit("explore")], SignedInOnly, ExplorePage)
  ]

  /** JavaScript truthiness of `token: string | null`: both `null` and "" are falsy. */
  predicate HasToken(token: Option<string>) {
    token.Some? && token.value != ""
  }

  /** Route matching is case-insensitive, as react-router's is by default. */
  predicate SegmentMatches(s: Segment, x: string) {
    match s
    case Param => true
    case Lit(t) => Text.Lower(x) == t
  }

  predicate Matches(pattern: seq<Segment>, path: Path) {
    |pattern| == |path| && forall k :: 0 <= k < |path| ==> SegmentMatches(pattern[k], path[k])
  }

  /** The element of one route: `!token ? <Login/> : <Navigate to="/"/>` for the guest-only
      route, `token ? <Page/> : <Navigate to="/login"/>` for the others. */
  function Decide(route: Route, token: Option<string>): (e: Element)
    ensures e.Render? <==> (route.access == GuestOnly <==> !HasToken(token))
    ensures e.Render? ==> e.page == route.page
    ensures e.Redirect? ==> e.target == if route.access == GuestOnly then HomePath else LoginPath
  {
    match route.access
    case GuestOnly => if !HasToken(token) then Render(route.page) else Redirect(HomePath)
    case SignedInOnly => if HasToken(token) then Render(route.page) else Redirect(LoginPath)
  }

  function FirstMatch(routes: seq<Route>, path: Path): (r: Option<nat>)
    ensures r.Some? ==> r.value < |routes| && Matches(routes[r.value].pattern, path)
    ensures r.None? ==> forall i :: 0 <= i < |routes| ==> !Matches(routes[i].pattern, path)
  {
    if routes == [] then None
    else if Matches(routes[0].pattern, path) then Some(0)
    else
      match FirstMatch(routes[1..], path)
      case None => None
      case Some(i) => Some(i + 1)
  }

  /** The element the router shows for `path`, or `None` when no route matches. */
  function Resolve(token: Option<string>, path: Path): (r: Option<Element>)
    ensures r.Some? ==> exists i :: 0 <= i < |Table| && Matches(Table[i].pattern, path)
    ensures r.None? ==> forall i :: 0 <= i < |Table| ==> !Matches(Table[i].pattern, path)
  {
    match FirstMatch(Table, path)
    case None => None
    case Some(i) => Some(Decide(Table[i], token))
  }

  /** Where a navigation to `path` ends up once the router has followed its redirect. */
  function Settle(token: Option<string>, path: Path): (r: Option<Page>)
    ensures Resolve(token, path).None? ==> r.None?
    ensures Resolve(token, path).Some? && Resolve(token, path).value.Render? ==>
      r == Some(Resolve(token, path).value.page)
    ensures Resolve(token, path).Some? && Resolve(token, path).value.Redirect? ==>
      r.Some? == (Resolve(token, Resolve(token, path).value.target).Some?
        && Resolve(token, Resolve(token, path).value.target).value.Render?)
    ensures (Resolve(token, path).Some? && Resolve(token, path).value.Redirect? &&
      Resolve(token, Resolve(token, path).value.target).Some? &&
      Resolve(token, Resolve(token, path).value.target).value.Render?) ==>
      r == Some(Resolve(token, Resolve(token, path).value.target).value.page)
  {
    match Resolve(token, path)
    case None => None
    case Some(Render(p)) => Some(p)
    case Some(Redirect(t)) =>
      match Resolve(token, t)
      case Some(Render(p)) => Some(p)
      case _ => None
  }

  /** No path matches two routes, so react-router's ranking and the declaration order give
      the same answer. */
  lemma PatternsDisjoint(i: nat, j: nat, path: Path)
    requires i < j < |Table|
    ensures !(Matches(Table[i].pattern, path) && Matches(Table[j].pattern, path))
  {
    var a, b := Table[i].pattern, Table[j].pattern;
    if |a| == |b| && |a| > 0 {
      assert a[0].Lit? && b[0].Lit? && a[0].text != b[0].text;
    }
  }

  /** Every path that matches route `i` gets exactly route `i`'s element. */
  lemma ResolveRoute(token: Option<string>, i: nat, path: Path)
    requires i < |Table| && Matches(Table[i].pattern, path)
    ensures Resolve(token, path) == Some(Decide(Table[i], token))
  {
    var j := FirstMatch(Table, path).value;
    if j < i {
      PatternsDisjoint(j, i, path);
    } else if i < j {
      PatternsDisjoint(i, j, path);
    }
  }

  /** On `/login`, no token renders the login page and a token redirects to `/`. */
  lemma LoginRoute(token: Option<string>)
    ensures Resolve(token, LoginPath) ==
      Some(if HasToken(token) then Redirect(HomePath) else Render(LoginPage))
  {
    Text.LowerOfLowercase("login");
    ResolveRoute(token, 0, LoginPath);
  }

  /** Every other route renders its page with a token and redirects to `/login` without. */
  lemma ProtectedRoute(token: Option<string>, i: nat, path: Path)
    requires 1 <= i < |Table| && Matches(Table[i].pattern, path)
    ensures Resolve(token, path) ==
      Some(if HasToken(token) then Render(Table[i].page) else Redirect(LoginPath))
  {
    ResolveRoute(token, i, path);
  }

  /** The guard invariant: without a token the only page ever rendered is the login page,
      and with a token the login page is never rendered. */
  lemma GuardInvariant(token: Option<string>, path: Path)
    ensures forall p :: Resolve(token, path) == Some(Render(p)) ==>
      (p == LoginPage <==> !HasToken(token))
  {
    match FirstMatch(Table, path)
    case None =>
    case Some(i) =>
      assert (Table[i].page == LoginPage) <==> (i == 0);
  }

  /** Following a redirect reaches a rendered page in one step: there is no redirect loop. */
  lemma NoRedirectLoop(token: Option<string>, path: Path)
    ensures forall t :: Resolve(token, path) == Some(Redirect(t)) ==>
      Resolve(token, t).Some? && Resolve(token, t).value.Render?
  {
    LoginRoute(token);
    ResolveRoute(token, 2, HomePath);
    match FirstMatch(Table, path)
    case None =>
    case Some(i) =>
  }

  /** Every matched path settles on a page, which is the login page exactly when there is no
      token. */
  lemma SettleTotal(token: Option<string>, path: Path)
    requires Resolve(token, path).Some?
    ensures Settle(token, path).Some?
    ensures Settle(token, path) == Some(LoginPage) <==> !HasToken(token)
  {
    NoRedirectLoop(token, path);
    GuardInvariant(token, path);
    match Resolve(token, path).value
    case Render(p) =>
    case Redirect(t) => GuardInvariant(token, t);
  }

  /** `/categories` and `/categories/:id` both show the categories page. */
  lemma CategoriesPages(token: Option<string>, id: string)
    ensures Resolve(token, ["categories", id]) == Resolve(token, ["categories"])
    ensures Resolve(token, ["categories"]).Some?
    ensures Resolve(token, ["categories"]).value == Decide(Table[6], token)
  {
    var name := "categories";
    Text.LowerOfLowercase(name);
    assert Matches(Table[5].pattern, [name, id]);
    assert Matches(Table[6].pattern, [name]);
    ResolveRoute(token, 5, [name, id]);
    ResolveRoute(token, 6, [name]);
  }

  /** `/profile` and `/users/:userId` both show the profile page. */
  lemma ProfilePages(token: Option<string>, id: string)
    ensures Resolve(token, ["users", id]) == Resolve(token, ["profile"])
    ensures Resolve(token, ["profile"]).Some?
    ensures Resolve(token, ["profile"]).value == Decide(Table[8], token)
  {
    var profile, users := "profile", "users";
    Text.LowerOfLowercase(profile);
    Text.LowerOfLowercase(users);
    assert Matches(Table[8].pattern, [profile]);
    assert Matches(Table[9].pattern, [users, id]);
    ResolveRoute(token, 8, [profile]);
    ResolveRoute(token, 9, [users, id]);
  }
}
