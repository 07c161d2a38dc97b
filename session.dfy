/** The browser environment the pages share (`localStorage` and the navigation history) and
    the `App` component that holds the in-memory token and renders the route table. */
module Session {
  import opened Wrappers
  import Routes

  /** The `localStorage` key that holds the bearer token. */
  const TokenKey := "token"

  /** `localStorage` and the sequence of navigation targets requested so far. */
  class Browser {
    var storage: map<string, string>
    var history: seq<Routes.Path>

    constructor (stored: map<string, string>)
      ensures storage == stored && history == []
    {
      storage := stored;
      history := [];
    }

    /** `localStorage.getItem("token")`. */
    function StoredToken(): (t: Option<string>)
      reads this
      ensures t.Some? <==> TokenKey in storage
      ensures t.Some? ==> t.value == storage[TokenKey]
    {
      Get(storage, TokenKey)
    }

    method SetItem(key: string, value: string)
      modifies this
      ensures storage == old(storage)[key := value]
      ensures history == old(history)
    {
      storage := storage[key := value];
    }

    method RemoveItem(key: string)
      modifies this
      ensures storage == old(storage) - {key}
      ensures history == old(history)
    {
      storage := storage - {key};
    }

    /** `navigate(to)` (and the full reload of `window.location.href = to`). */
    method Navigate(to: Routes.Path)
      modifies this
      ensures history == old(history) + [to]
      ensures storage == old(storage)
    {
      history := history + [to];
    }
  }

  /** The token as held in both places: the stored copy and the in-memory `useState` copy. */
  datatype SessionState = SessionState(storage: map<string, string>, token: Option<string>)

  /** The in-memory token mirrors the stored one. */
  predicate InSync(s: SessionState) {
    s.token == Get(s.storage, TokenKey)
  }

  /** `handleLogout`: the stored token is removed and the in-memory token becomes `null`;
      every other stored key is untouched. */
  function Logout(s: SessionState): (r: SessionState)
    ensures TokenKey !in r.storage && r.token == None
    ensures forall k :: k != TokenKey ==> Get(r.storage, k) == Get(s.storage, k)
    ensures InSync(r)
  {
    SessionState(s.storage - {TokenKey}, None)
  }

  /** A second logout leaves the state the first one produced. */
  lemma LogoutIdempotent(s: SessionState)
    ensures Logout(Logout(s)) == Logout(s)
  {
  }

  /** After logout the guard sends every protected path to `/login`. */
  lemma LogoutLocksProtectedPaths(s: SessionState, i: nat, path: Routes.Path)
    requires 1 <= i < |Routes.Table| && Routes.Matches(Routes.Table[i].pattern, path)
    ensures Routes.Resolve(Logout(s).token, path) == Some(Routes.Redirect(Routes.LoginPath))
  {
    Routes.ProtectedRoute(Logout(s).token, i, path);
  }

  /** After logout every navigation to a known path ends on the login page. */
  lemma LogoutLandsOnLogin(s: SessionState, path: Routes.Path)
    requires Routes.Resolve(Logout(s).token, path).Some?
    ensures Routes.Settle(Logout(s).token, path) == Some(Routes.LoginPage)
  {
    Routes.SettleTotal(Logout(s).token, path);
  }

  /** The `App` component: its `token` state is seeded from storage when it mounts. */
  class App {
    const browser: Browser
    var token: Option<string>

    constructor (browser: Browser)
      ensures this.browser == browser
      ensures token == browser.StoredToken()
      ensures InSync(State())
    {
      this.browser := browser;
      token := browser.StoredToken();
    }

    function State(): SessionState
      reads this, browser
    {
      SessionState(browser.storage, token)
    }

    /** The page on screen: the last navigation target, after the router's redirect. */
    function Screen(): Option<Routes.Page>
      reads this, browser
    {
      if browser.history == [] then None
      else Routes.Settle(token, browser.history[|browser.history| - 1])
    }

    /** The `setToken` callback handed to the login page. */
    method SetToken(t: string)
      modifies this
      ensures token == Some(t)
    {
      token := Some(t);
    }

    /** `handleLogout`: remove the stored token, then clear the in-memory one. */
    method HandleLogout()
      modifies this, browser
      ensures State() == Logout(old(State()))
      ensures browser.history == old(browser.history)
    {
      browser.RemoveItem(TokenKey);
      token := None;
    }
  }
}
