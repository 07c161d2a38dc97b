/** The settings page: the editable profile record, its normalisation when fetched, the save
    message, and the end of the session on a 401 or after the account is deleted. */
module Settings {
  import opened Wrappers
  import Text
  import Routes
  import Session

  /** `UserData`: `email` may be `null`. */
  datatype UserData = UserData(name: string, email: Option<string>, bio: string)

  /** The profile as the server sends it; `None` stands for a missing or `null` field. */
  datatype RawUser = RawUser(name: Option<string>, email: Option<string>, bio: Option<string>)

  /** The `name` attribute of the three text fields. */
  datatype Field = Name | Email | Bio

  const Initial := UserData("", None, "")

  /** The value a text field reads from the record. */
  function FieldValue(u: UserData, f: Field): Option<string> {
    match f
    case Name => Some(u.name)
    case Email => u.email
    case Bio => Some(u.bio)
  }

  /** `setUserData(prev => ({ ...prev, [name]: value }))`: the named field takes the value
      and the other two are untouched. */
  function WithField(u: UserData, f: Field, value: string): (r: UserData)
    ensures FieldValue(r, f) == Some(value)
    ensures forall g :: g != f ==> FieldValue(r, g) == FieldValue(u, g)
  {
    match f
    case Name => u.(name := value)
    case Email => u.(email := Some(value))
    case Bio => u.(bio := value)
  }

  /** Editing one field twice keeps only the second value. */
  lemma WithFieldOverwrites(u: UserData, f: Field, v1: string, v2: string)
    ensures WithField(WithField(u, f, v1), f, v2) == WithField(u, f, v2)
  {
  }

  /** Edits of two different fields commute. */
  lemma WithFieldCommutes(u: UserData, f: Field, g: Field, v: string, w: string)
    requires f != g
    ensures WithField(WithField(u, f, v), g, w) == WithField(WithField(u, g, w), f, v)
  {
  }

  /** A record as `fetchUserData` leaves it: no empty e-mail, `null` instead. */
  predicate IsNormal(u: UserData) {
    u.email != Some("")
  }

  /** `{ name: data.name || "", email: data.email || null, bio: data.bio || "" }`. */
  function Normalise(raw: RawUser): (u: UserData)
    ensures IsNormal(u)
    ensures u.name == raw.name.GetOr("") && u.bio == raw.bio.GetOr("")
    ensures raw.email.Some? && raw.email.value != "" ==> u.email == raw.email
    ensures raw.email.None? || raw.email.value == "" ==> u.email == None
  {
    UserData(
      if raw.name.Some? && raw.name.value != "" then raw.name.value else "",
      if raw.email.Some? && raw.email.value != "" then raw.email else None,
      if raw.bio.Some? && raw.bio.value != "" then raw.bio.value else "")
  }

  /** The record as the server would send it back. */
  function ToRaw(u: UserData): RawUser {
    RawUser(Some(u.name), u.email, Some(u.bio))
  }

  /** Normalising what a normal record becomes on the wire gives the record back. */
  lemma NormaliseRoundTrip(u: UserData)
    requires IsNormal(u)
    ensures Normalise(ToRaw(u)) == u
  {
  }

  /** Normalising is idempotent. */
  lemma NormaliseIdempotent(raw: RawUser)
    ensures Normalise(ToRaw(Normalise(raw))) == Normalise(raw)
  {
    NormaliseRoundTrip(Normalise(raw));
  }

  /** The answer to `GET /api/v1/user`: a status and a body, or no answer at all. */
  datatype UserFetch = Responded(status: int, body: RawUser) | Unreachable

  /** `response.ok`. */
  predicate IsOk(status: int) {
    200 <= status <= 299
  }

  /** The outcome of `PATCH /api/v1/user`: saved; rejected with the body's `errors`; or an
      exception, with its `message` when it is an `Error`. */
  datatype SaveResponse = Saved | Rejected(errors: Option<seq<string>>) | Thrown(message: Option<string>)

  const SavedMessage := "Settings saved successfully!"
  const SaveFallback := "Failed to save settings"

  /** The alert `handleSave` shows. */
  function SaveMessage(response: SaveResponse): (m: string)
    ensures response.Saved? ==> m == SavedMessage
    // a rejection shows the errors joined with ", "; nothing to join falls back
    ensures response.Rejected? && (response.errors.None? || response.errors.value == [] || response.errors.value == [""])
      ==> m == SaveFallback
    ensures response.Rejected? && response.errors.Some? && |response.errors.value| == 1 && response.errors.value[0] != ""
      ==> m == response.errors.value[0]
    ensures response.Rejected? && response.errors.Some? && |response.errors.value| >= 2
      ==> m == Text.Join(response.errors.value, ", ")
    ensures response.Thrown? ==> m == response.message.GetOr(SaveFallback)
  {
    match response
    case Saved => SavedMessage
    case Rejected(errors) =>
      var joined := if errors.Some? then Text.Join(errors.value, ", ") else "";
      Text.JoinEmptyIff(errors.GetOr([]), ", ");
      if joined != "" then joined else SaveFallback
    case Thrown(message) => message.GetOr(SaveFallback)
  }

  /** The request `handleSave` sends: the stored token as bearer, and the whole record. */
  datatype SaveRequest = SaveRequest(bearer: Option<string>, body: UserData)

  /** A token that is still in memory sends `/login` on to `/`, which renders the home page. */
  lemma StaleTokenPassesLogin(token: Option<string>)
    requires Routes.HasToken(token)
    ensures Routes.Settle(token, Routes.LoginPath) == Some(Routes.HomePage)
  {
    Routes.LoginRoute(token);
    Routes.ResolveRoute(token, 2, Routes.HomePath);
  }

  /** The concrete case: storage no longer has the token, the app still holds "abc". */
  lemma SettingsSignOutCounterexample()
    ensures var s := Session.SessionState(map[], Some("abc"));
      !Session.InSync(s) && Routes.Settle(s.token, Routes.LoginPath) == Some(Routes.HomePage)
  {
    StaleTokenPassesLogin(Some("abc"));
  }

  class SettingsPage {
    const app: Session.App
    var userData: UserData

    constructor (app: Session.App)
      ensures this.app == app && userData == Initial
    {
      this.app := app;
      userData := Initial;
    }

    /** The sign-out the page performs on a 401 and after deleting the account, as written:
        `localStorage.removeItem("token")` then `navigate("/login")`. The app's in-memory token
        survives, so the router turns `/login` into `/` and the home page is shown. */
    method EndSessionAsWritten()
      modifies app.browser
      ensures app.browser.storage == old(app.browser.storage) - {Session.TokenKey}
      ensures app.browser.history == old(app.browser.history) + [Routes.LoginPath]
      ensures app.token == old(app.token)
      ensures Routes.HasToken(app.token) ==> app.Screen() == Some(Routes.HomePage)
      ensures !Routes.HasToken(app.token) ==> app.Screen() == Some(Routes.LoginPage)
    {
      app.browser.RemoveItem(Session.TokenKey);
      app.browser.Navigate(Routes.LoginPath);
      if Routes.HasToken(app.token) {
        StaleTokenPassesLogin(app.token);
      } else {
        Routes.LoginRoute(app.token);
      }
    }

    /** The sign-out as intended: both copies of the token are cleared (as the app's own
        logout does) before navigating, so the login page is shown. */
    method EndSession()
      modifies app, app.browser
      ensures app.State() == Session.Logout(old(app.State()))
      ensures app.browser.history == old(app.browser.history) + [Routes.LoginPath]
      ensures app.Screen() == Some(Routes.LoginPage)
    {
      app.HandleLogout();
      app.browser.Navigate(Routes.LoginPath);
      Routes.LoginRoute(app.token);
    }

    /** `fetchUserData`: a successful answer replaces the record with its normalised form; a
        401 removes the stored token and navigates to `/login` (the in-memory token stays, so
        with a token the home page is shown); any other failure changes nothing. */
    method FetchUserData(response: UserFetch) returns (bearer: Option<string>)
      modifies this, app.browser
      ensures bearer == old(app.browser.StoredToken())
      ensures app.token == old(app.token)
      ensures response.Responded? && IsOk(response.status) ==>
        (userData == Normalise(response.body) && app.browser.storage == old(app.browser.storage)
         && app.browser.history == old(app.browser.history))
      ensures response.Responded? && response.status == 401 ==>
        (userData == old(userData) && app.browser.storage == old(app.browser.storage) - {Session.TokenKey}
         && app.browser.history == old(app.browser.history) + [Routes.LoginPath])
      ensures response.Responded? && response.status == 401 && Routes.HasToken(app.token) ==>
        app.Screen() == Some(Routes.HomePage)
      ensures (response.Unreachable? || (!IsOk(response.status) && response.status != 401)) ==>
        (userData == old(userData) && app.browser.storage == old(app.browser.storage)
         && app.browser.history == old(app.browser.history))
    {
      bearer := app.browser.StoredToken();
      if response.Responded? {
        if IsOk(response.status) {
          userData := Normalise(response.body);
        } else if response.status == 401 {
          EndSessionAsWritten();
        }
      }
    }

    /** `fetchUserData` with the corrected sign-out on a 401: the login page follows. */
    method FetchUserDataCorrected(response: UserFetch) returns (bearer: Option<string>)
      modifies this, app, app.browser
      ensures bearer == old(app.browser.StoredToken())
      ensures response.Responded? && IsOk(response.status) ==>
        (userData == Normalise(response.body) && app.State() == old(app.State())
         && app.browser.history == old(app.browser.history))
      ensures response.Responded? && response.status == 401 ==>
        (userData == old(userData) && app.State() == Session.Logout(old(app.State()))
         && app.browser.history == old(app.browser.history) + [Routes.LoginPath]
         && app.Screen() == Some(Routes.LoginPage))
      ensures (response.Unreachable? || (!IsOk(response.status) && response.status != 401)) ==>
        (userData == old(userData) && app.State() == old(app.State())
         && app.browser.history == old(app.browser.history))
    {
      bearer := app.browser.StoredToken();
      if response.Responded? {
        if IsOk(response.status) {
          userData := Normalise(response.body);
        } else if response.status == 401 {
          EndSession();
        }
      }
    }

    /** `handleInputChange` for the field named `f`. */
    method HandleInputChange(f: Field, value: string)
      modifies this
      ensures userData == WithField(old(userData), f, value)
    {
      userData := WithField(userData, f, value);
    }

    /** `handleSave`: sends the record and returns the alert text; nothing on the page changes. */
    method HandleSave(response: SaveResponse) returns (request: SaveRequest, message: string)
      ensures request == SaveRequest(app.browser.StoredToken(), userData)
      ensures message == SaveMessage(response)
    {
      request := SaveRequest(app.browser.StoredToken(), userData);
      message := SaveMessage(response);
    }

    /** `handleDeleteAccount`: after a deletion the stored token is removed and `/login` is
        requested (the in-memory token stays, so with a token the home page is shown); after a
        failure nothing changes. */
    method HandleDeleteAccount(deleted: bool) returns (bearer: Option<string>)
      modifies app.browser
      ensures bearer == old(app.browser.StoredToken())
      ensures app.token == old(app.token)
      ensures deleted ==> app.browser.storage == old(app.browser.storage) - {Session.TokenKey}
      ensures deleted ==> app.browser.history == old(app.browser.history) + [Routes.LoginPath]
      ensures deleted && Routes.HasToken(app.token) ==> app.Screen() == Some(Routes.HomePage)
      ensures !deleted ==> app.browser.storage == old(app.browser.storage)
      ensures !deleted ==> app.browser.history == old(app.browser.history)
    {
      bearer := app.browser.StoredToken();
      if deleted {
        EndSessionAsWritten();
      }
    }

    /** `handleDeleteAccount` with the corrected sign-out: the login page follows a deletion. */
    method HandleDeleteAccountCorrected(deleted: bool) returns (bearer: Option<string>)
      modifies app, app.browser
      ensures bearer == old(app.browser.StoredToken())
      ensures deleted ==> app.State() == Session.Logout(old(app.State()))
      ensures deleted ==> app.browser.history == old(app.browser.history) + [Routes.LoginPath]
      ensures deleted ==> app.Screen() == Some(Routes.LoginPage)
      ensures !deleted ==> app.State() == old(app.State())
      ensures !deleted ==> app.browser.history == old(app.browser.history)
    {
      bearer := app.browser.StoredToken();
      if deleted {
        EndSession();
      }
    }
  }
}
