/**
 * The application's top-level screen: a three-state machine (home, login,
 * dashboard) and the dispatch that picks the page shown for the signed-in
 * user and the current state.
 *
 * The signed-in user comes from the authentication context, which is not
 * part of this model; it is a parameter here.
 */
module AppScreen {
  import opened Wrappers

  /** `AppState`. */
  datatype AppState = Home | Login | Dashboard

  /** The account roles. */
  datatype Role = Operator | Doctor | Admin

  /** The signed-in user, as far as the screen dispatch looks at it. */
  datatype User = User(id: string, name: string, role: Role)

  /** The pages `renderContent` can return. */
  datatype Page = HomePage | LoginPage | PatientDashboardPage | DoctorDashboardPage

  /** `renderContent`: a signed-in user in the dashboard state gets the
      doctor's dashboard when a doctor and the intake dashboard otherwise;
      everything else falls to the switch on the state, where 'login' shows
      the login page and every other state the home page. */
  function RenderContent(user: Option<User>, state: AppState): (p: Page)
    ensures p == DoctorDashboardPage <==> user.Some? && state == Dashboard && user.value.role == Doctor
    ensures p == PatientDashboardPage <==> user.Some? && state == Dashboard && user.value.role != Doctor
    ensures p == LoginPage <==> state == Login
    ensures p == HomePage <==> state == Home || (state == Dashboard && user.None?)
  {
    if user.Some? && state == Dashboard then
      if user.value.role == Doctor then DoctorDashboardPage else PatientDashboardPage
    else
      match state
      case Home => HomePage
      case Login => LoginPage
      case _ => HomePage
  }

  /** The callbacks the pages are given. */
  datatype Event =
    | LoginClick    // home page's `onLoginClick`
    | LoginSuccess  // login page's `onLoginSuccess`
    | BackToHome    // login page's `onBack`
    | Logout        // either dashboard's `onLogout`

  /** The state each callback sets. */
  function Target(e: Event): AppState
  {
    match e
    case LoginClick => Login
    case LoginSuccess => Dashboard
    case BackToHome => Home
    case Logout => Home
  }

  /** Whether the page on screen was handed the callback. */
  predicate Offers(p: Page, e: Event)
  {
    match e
    case LoginClick => p == HomePage
    case LoginSuccess | BackToHome => p == LoginPage
    case Logout => p == PatientDashboardPage || p == DoctorDashboardPage
  }

  /** One callback fired by whichever page is on screen; one the page does
      not have cannot fire. */
  function Fire(user: Option<User>, state: AppState, e: Event): (r: AppState)
    ensures Offers(RenderContent(user, state), e) ==> r == Target(e)
    ensures !Offers(RenderContent(user, state), e) ==> r == state
  {
    if Offers(RenderContent(user, state), e) then Target(e) else state
  }

  /** A run of callbacks from `state`, with the same user throughout. */
  function Run(user: Option<User>, state: AppState, events: seq<Event>): AppState
    decreases |events|
  {
    if events == [] then state
    else Run(user, Fire(user, state, events[0]), events[1..])
  }

  /** The dashboard state is entered only through the login page's success
      callback: a run from any other state that ends there contains it. */
  lemma {:induction false} DashboardOnlyAfterLogin(user: Option<User>, state: AppState, events: seq<Event>)
    requires state != Dashboard
    requires Run(user, state, events) == Dashboard
    ensures LoginSuccess in events
    decreases |events|
  {
    if events == [] {
    } else if events[0] == LoginSuccess {
    } else {
      var next := Fire(user, state, events[0]);
      assert next != Dashboard;
      DashboardOnlyAfterLogin(user, next, events[1..]);
      assert events == [events[0]] + events[1..];
    }
  }

  /** Without a signed-in user no dashboard is ever shown, whatever the
      state. */
  lemma NoDashboardWithoutUser(state: AppState)
    ensures RenderContent(None, state) == HomePage || RenderContent(None, state) == LoginPage
  {
  }

  /** Without a user, a success callback leaves the state at 'dashboard'
      with the home page on screen, and that home page's login button
      returns to the login page. */
  lemma SignedOutDashboardShowsHome()
    ensures Fire(None, Login, LoginSuccess) == Dashboard
    ensures RenderContent(None, Dashboard) == HomePage
    ensures Fire(None, Dashboard, LoginClick) == Login
  {
  }

  /** Logging out from either dashboard always returns to the home page. */
  lemma LogoutGoesHome(u: User)
    ensures Fire(Some(u), Dashboard, Logout) == Home
    ensures RenderContent(Some(u), Fire(Some(u), Dashboard, Logout)) == HomePage
  {
  }

  /** The `Index` component's state. */
  class IndexPage {
    var appState: AppState

    /** The page shown to `user`. */
    function Content(user: Option<User>): Page
      reads this
    {
      RenderContent(user, appState)
    }

    constructor ()
      ensures appState == Home
      ensures forall user :: Content(user) == HomePage
    {
      appState := Home;
    }

    /** `handleLoginClick`. */
    method HandleLoginClick()
      modifies this
      ensures appState == Login
    {
      appState := Login;
    }

    /** `handleLoginSuccess`. */
    method HandleLoginSuccess()
      modifies this
      ensures appState == Dashboard
    {
      appState := Dashboard;
    }

    /** `handleBackToHome`. */
    method HandleBackToHome()
      modifies this
      ensures appState == Home
    {
      appState := Home;
    }

    /** `handleLogout`. */
    method HandleLogout()
      modifies this
      ensures appState == Home
    {
      appState := Home;
    }
  }
}
