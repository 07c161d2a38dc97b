/** The login page: `handleLogin` validates the username, exchanges it for a token, stores
    the token, fetches the user's preferences and chooses where to go next. Its effects are
    modelled as a sequence of steps; the two server responses are inputs. */
module Login {
  import opened Wrappers
  import Text
  import Routes
  import Session

  /** What a failed axios call exposes: `err.response?.data?.error` (absent on network errors). */
  datatype ApiError = ApiError(error: Option<string>)

  /** The answer to `POST /api/v1/auth/login`. */
  datatype LoginResponse = LoginOk(token: string, message: string) | LoginFailed(failure: ApiError)

  /** `data.preferences` of `GET /api/v1/user`; `categories` may be absent or `null`. */
  datatype Preferences = Preferences(categories: Option<seq<int>>)

  /** The answer to `GET /api/v1/user`; a body without `preferences` makes reading
      `.categories` throw. */
  datatype UserResponse = UserOk(preferences: Option<Preferences>) | UserFailed(failure: ApiError)

  const EmptyUsernameError := "Username cannot be empty."
  const GenericError := "An error occurred. Please try again."

  /** One observable effect of `handleLogin`, in the order it happens. */
  datatype Step =
    | ShowError(message: string)
    | PostLogin(username: string)
    | StoreToken(token: string)
    | SetAppToken(token: string)
    | GetUser(bearer: string)
    | NavigateTo(target: Routes.Path)
  {
    predicate IsRequest() {
      PostLogin? || GetUser?
    }
  }

  /** `err.response?.data?.error || "An error occurred. Please try again."`. */
  function ErrorMessage(e: ApiError): (m: string)
    ensures m != ""
    ensures e.error.Some? && e.error.value != "" ==> m == e.error.value
    ensures e.error.None? || e.error.value == "" ==> m == GenericError
  {
    if e.error.Some? && e.error.value != "" then e.error.value else GenericError
  }

  /** Onboarding when the category selection is absent or empty, home otherwise. */
  function Destination(p: Preferences): (target: Routes.Path)
    ensures target == Routes.PreferencesPath || target == Routes.HomePath
    ensures target == Routes.PreferencesPath <==> p.categories.None? || |p.categories.value| == 0
  {
    if p.categories.None? || |p.categories.value| == 0 then Routes.PreferencesPath else Routes.HomePath
  }

  /** The steps `handleLogin` takes for a username and the two server responses. */
  function LoginSteps(username: string, login: LoginResponse, user: UserResponse): (steps: seq<Step>)
    ensures |steps| >= 1
    // a blank username only shows the validation error: no request is made
    ensures Text.IsBlank(username) ==> steps == [ShowError(EmptyUsernameError)]
    // otherwise the first step posts the username as typed, untrimmed
    ensures !Text.IsBlank(username) ==> steps[0] == PostLogin(username)
    // the run ends with an error or a navigation
    ensures steps[|steps| - 1].ShowError? || steps[|steps| - 1].NavigateTo?
    // it navigates exactly when both calls succeed and the preferences could be read
    ensures steps[|steps| - 1].NavigateTo? <==>
      !Text.IsBlank(username) && login.LoginOk? && user.UserOk? && user.preferences.Some?
    ensures steps[|steps| - 1].NavigateTo? ==>
      steps[|steps| - 1].target == Destination(user.preferences.value)
    // a rejected login shows the server's message (or the generic one) and stores nothing
    ensures !Text.IsBlank(username) && login.LoginFailed? ==>
      steps == [PostLogin(username), ShowError(ErrorMessage(login.failure))]
  {
    if Text.IsBlank(username) then
      [ShowError(EmptyUsernameError)]
    else
      match login
      case LoginFailed(e) => [PostLogin(username), ShowError(ErrorMessage(e))]
      case LoginOk(t, _) => [PostLogin(username), StoreToken(t), SetAppToken(t), GetUser(t), Outcome(user)]
  }

  /** The order of the steps: a blank username makes no request; the token is stored and
      handed to the app right before it is used as the bearer; and no error or navigation
      comes before the last step. */
  lemma LoginStepsOrder(username: string, login: LoginResponse, user: UserResponse)
    ensures var steps := LoginSteps(username, login, user);
      Text.IsBlank(username) ==> forall j :: 0 <= j < |steps| ==> !steps[j].IsRequest()
    ensures var steps := LoginSteps(username, login, user);
      forall j :: 0 <= j < |steps| && steps[j].GetUser? ==>
        2 <= j && steps[j - 2] == StoreToken(steps[j].bearer) && steps[j - 1] == SetAppToken(steps[j].bearer)
    ensures var steps := LoginSteps(username, login, user);
      forall j :: 0 <= j < |steps| - 1 ==> !steps[j].ShowError? && !steps[j].NavigateTo?
  {
    var steps := LoginSteps(username, login, user);
    if !Text.IsBlank(username) && login.LoginOk? {
      var t := login.token;
      assert steps == [PostLogin(username), StoreToken(t), SetAppToken(t), GetUser(t), Outcome(user)];
    }
  }

  /** The last step once the token is stored: the preferences decide where to go, and a failed
      or unreadable answer sets its error. */
  function Outcome(user: UserResponse): (step: Step)
    ensures step.ShowError? || step.NavigateTo?
    ensures step.NavigateTo? <==> user.UserOk? && user.preferences.Some?
    ensures step.NavigateTo? ==> step.target == Destination(user.preferences.value)
  {
    match user
    case UserFailed(e) => ShowError(ErrorMessage(e))
    case UserOk(None) => ShowError(GenericError)
    case UserOk(Some(p)) => NavigateTo(Destination(p))
  }

  /** The state `handleLogin` touches: the page's error, storage, the app's token and the
      navigation history. */
  datatype LoginState = LoginState(
    error: Option<string>,
    storage: map<string, string>,
    token: Option<string>,
    history: seq<Routes.Path>)

  /** The effect of one step on that state; requests change nothing locally. */
  function Perform(s: LoginState, step: Step): LoginState {
    match step
    case ShowError(m) => s.(error := Some(m))
    case PostLogin(_) => s
    case StoreToken(t) => s.(storage := s.storage[Session.TokenKey := t])
    case SetAppToken(t) => s.(token := Some(t))
    case GetUser(_) => s
    case NavigateTo(p) => s.(history := s.history + [p])
  }

  function Run(s: LoginState, steps: seq<Step>): LoginState
    decreases |steps|
  {
    if steps == [] then s else Run(Perform(s, steps[0]), steps[1..])
  }

  lemma {:induction false} RunAppend(s: LoginState, steps: seq<Step>, step: Step)
    ensures Run(s, steps + [step]) == Perform(Run(s, steps), step)
    decreases |steps|
  {
    if steps != [] {
      assert (steps + [step])[1..] == steps[1..] + [step];
      RunAppend(Perform(s, steps[0]), steps[1..], step);
    }
  }

  /** Steps that neither store nor hand over a token leave both copies of it alone. */
  lemma {:induction false} RunKeepsToken(s: LoginState, steps: seq<Step>)
    requires forall j :: 0 <= j < |steps| ==> !steps[j].StoreToken? && !steps[j].SetAppToken?
    ensures Run(s, steps).storage == s.storage && Run(s, steps).token == s.token
    decreases |steps|
  {
    if steps != [] {
      RunKeepsToken(Perform(s, steps[0]), steps[1..]);
    }
  }

  /** Steps without a navigation leave the history alone. */
  lemma {:induction false} RunKeepsHistory(s: LoginState, steps: seq<Step>)
    requires forall j :: 0 <= j < |steps| ==> !steps[j].NavigateTo?
    ensures Run(s, steps).history == s.history
    decreases |steps|
  {
    if steps != [] {
      RunKeepsHistory(Perform(s, steps[0]), steps[1..]);
    }
  }

  /** A blank username: the validation error is shown and nothing else changes. */
  lemma BlankUsername(s: LoginState, username: string, login: LoginResponse, user: UserResponse)
    requires Text.IsBlank(username)
    ensures Run(s, LoginSteps(username, login, user)) == s.(error := Some(EmptyUsernameError))
  {
  }

  /** A rejected login: the error is shown; the token and the history are unchanged. */
  lemma LoginRejected(s: LoginState, username: string, e: ApiError, user: UserResponse)
    requires !Text.IsBlank(username)
    ensures Run(s, LoginSteps(username, LoginFailed(e), user)) == s.(error := Some(ErrorMessage(e)))
  {
    var steps := LoginSteps(username, LoginFailed(e), user);
    RunAppend(s, [steps[0]], steps[1]);
    assert [steps[0]] + [steps[1]] == steps;
  }

  /** The preferences fetch fails after the token was stored: the token stays in both places,
      the server's message (or the generic one) is set as the error and there is no navigation. */
  lemma PreferencesFetchFailed(s: LoginState, username: string, t: string, m: string, e: ApiError)
    requires !Text.IsBlank(username)
    ensures var r := Run(s, LoginSteps(username, LoginOk(t, m), UserFailed(e)));
      r == s.(storage := s.storage[Session.TokenKey := t], token := Some(t), error := Some(ErrorMessage(e)))
  {
    var steps := LoginSteps(username, LoginOk(t, m), UserFailed(e));
    assert steps == [PostLogin(username), StoreToken(t), SetAppToken(t), GetUser(t), ShowError(ErrorMessage(e))];
    RunFiveSteps(s, steps);
  }

  /** A user body without `preferences`: reading `.categories` throws and the generic message is
      set; the stored token stays and there is no navigation. */
  lemma PreferencesMissing(s: LoginState, username: string, t: string, m: string)
    requires !Text.IsBlank(username)
    ensures var r := Run(s, LoginSteps(username, LoginOk(t, m), UserOk(None)));
      r == s.(storage := s.storage[Session.TokenKey := t], token := Some(t), error := Some(GenericError))
  {
    var steps := LoginSteps(username, LoginOk(t, m), UserOk(None));
    assert steps == [PostLogin(username), StoreToken(t), SetAppToken(t), GetUser(t), ShowError(GenericError)];
    RunFiveSteps(s, steps);
  }

  lemma RunFiveSteps(s: LoginState, steps: seq<Step>)
    requires |steps| == 5
    ensures Run(s, steps) ==
      Perform(Perform(Perform(Perform(Perform(s, steps[0]), steps[1]), steps[2]), steps[3]), steps[4])
  {
    assert steps == [steps[0]] + [steps[1]] + [steps[2]] + [steps[3]] + [steps[4]];
    RunAppend(s, [], steps[0]);
    RunAppend(s, [steps[0]], steps[1]);
    RunAppend(s, [steps[0]] + [steps[1]], steps[2]);
    RunAppend(s, [steps[0]] + [steps[1]] + [steps[2]], steps[3]);
    RunAppend(s, [steps[0]] + [steps[1]] + [steps[2]] + [steps[3]], steps[4]);
  }

  /** A successful login stores the token in both places, keeps the previous error and
      navigates once, to onboarding or home. */
  lemma LoginSucceeded(s: LoginState, username: string, t: string, m: string, p: Preferences)
    requires !Text.IsBlank(username)
    ensures var r := Run(s, LoginSteps(username, LoginOk(t, m), UserOk(Some(p))));
      r.storage == s.storage[Session.TokenKey := t] && r.token == Some(t)
      && r.error == s.error && r.history == s.history + [Destination(p)]
      && Session.InSync(Session.SessionState(r.storage, r.token))
  {
    var steps := LoginSteps(username, LoginOk(t, m), UserOk(Some(p)));
    assert steps == [PostLogin(username), StoreToken(t), SetAppToken(t), GetUser(t), NavigateTo(Destination(p))];
    RunFiveSteps(s, steps);
  }

  /** With a non-empty token the router then shows the onboarding page or the home page. */
  lemma LoginLandsOnPage(t: string, p: Preferences)
    requires t != ""
    ensures Routes.Settle(Some(t), Destination(p)) ==
      Some(if p.categories.None? || |p.categories.value| == 0 then Routes.PreferencesPage else Routes.HomePage)
  {
    if Destination(p) == Routes.PreferencesPath {
      Text.LowerOfLowercase("preferences");
      assert Routes.Matches(Routes.Table[1].pattern, Routes.PreferencesPath);
      Routes.ResolveRoute(Some(t), 1, Routes.PreferencesPath);
    } else {
      Routes.ResolveRoute(Some(t), 2, Routes.HomePath);
    }
  }

  /** When the user fetch fails or carries no `preferences`, the token has already been handed
      to the app, so the router has put `<Navigate to="/">` in place of the login page: the
      error is set on a page that is no longer shown, and the screen is the home page. */
  lemma LoginErrorUnseen(s: LoginState, username: string, t: string, m: string, u: UserResponse)
    requires !Text.IsBlank(username) && t != ""
    requires u.UserFailed? || u.preferences.None?
    ensures var r := Run(s, LoginSteps(username, LoginOk(t, m), u));
      r.history == s.history && r.error.Some? &&
      Routes.Settle(r.token, Routes.LoginPath) == Some(Routes.HomePage)
  {
    if u.UserFailed? {
      PreferencesFetchFailed(s, username, t, m, u.failure);
    } else {
      PreferencesMissing(s, username, t, m);
    }
    Routes.LoginRoute(Some(t));
    Routes.ResolveRoute(Some(t), 2, Routes.HomePath);
  }

  /** The login page: the typed username and the error shown under the field. */
  class LoginPage {
    const app: Session.App
    var username: string
    var error: Option<string>

    constructor (app: Session.App)
      ensures this.app == app && username == "" && error == None
    {
      this.app := app;
      username := "";
      error := None;
    }

    function State(): LoginState
      reads this, app, app.browser
    {
      LoginState(error, app.browser.storage, app.token, app.browser.history)
    }

    /** The text field's `onChange`. */
    method SetUsername(value: string)
      modifies this
      ensures username == value && error == old(error)
    {
      username := value;
    }

    /** Carries out one step on the page, the app and the browser. */
    method Do(step: Step)
      modifies this, app, app.browser
      ensures State() == Perform(old(State()), step)
      ensures username == old(username)
    {
      match step {
        case ShowError(m) => error := Some(m);
        case PostLogin(_) =>
        case StoreToken(t) => app.browser.SetItem(Session.TokenKey, t);
        case SetAppToken(t) => app.SetToken(t);
        case GetUser(_) =>
        case NavigateTo(p) => app.browser.Navigate(p);
      }
    }

    /** Carries out `step` and records it after `steps`. */
    method Then(ghost s0: LoginState, steps: seq<Step>, step: Step) returns (steps': seq<Step>)
      requires State() == Run(s0, steps)
      modifies this, app, app.browser
      ensures steps' == steps + [step]
      ensures State() == Run(s0, steps')
      ensures username == old(username)
    {
      Do(step);
      RunAppend(s0, steps, step);
      steps' := steps + [step];
    }

    /** The part of `handleLogin` after the token arrives: store it, hand it to the app, fetch
        the user with it, then navigate or show the error. */
    method SignIn(ghost s0: LoginState, steps: seq<Step>, t: string, user: UserResponse) returns (steps': seq<Step>)
      requires State() == Run(s0, steps)
      modifies this, app, app.browser
      ensures steps' == steps + [StoreToken(t), SetAppToken(t), GetUser(t), Outcome(user)]
      ensures State() == Run(s0, steps')
      ensures username == old(username)
    {
      steps' := Then(s0, steps, StoreToken(t));
      steps' := Then(s0, steps', SetAppToken(t));
      steps' := Then(s0, steps', GetUser(t));
      steps' := Then(s0, steps', Outcome(user));
    }

    /** `handleLogin`, with the login and preferences responses as inputs; `steps` records
        what it did, in order. */
    method HandleLogin(login: LoginResponse, user: UserResponse) returns (steps: seq<Step>)
      modifies this, app, app.browser
      ensures steps == LoginSteps(old(username), login, user)
      ensures State() == Run(old(State()), steps)
      ensures username == old(username)
    {
      ghost var s0 := State();
      ghost var expected := LoginSteps(username, login, user);
      steps := [];
      Text.TrimEmptyIffBlank(username);
      if Text.Trim(username) == "" {
        steps := Then(s0, steps, ShowError(EmptyUsernameError));
        assert steps == [ShowError(EmptyUsernameError)] == expected;
        return;
      }
      steps := Then(s0, steps, PostLogin(username));
      match login {
        case LoginFailed(e) =>
          steps := Then(s0, steps, ShowError(ErrorMessage(e)));
          assert steps == [PostLogin(username), ShowError(ErrorMessage(e))] == expected;
        case LoginOk(t, _) =>
          steps := SignIn(s0, steps, t, user);
          assert steps == [PostLogin(username), StoreToken(t), SetAppToken(t), GetUser(t), Outcome(user)] == expected;
      }
    }
  }
}
