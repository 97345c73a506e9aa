/**
 * The screen machine of src/App.tsx. The signed-in user, the business
 * configuration and the credentials are persisted values; an effect derives the
 * screen from them whenever one changes, and the handlers move between the
 * landing page, the sign-in form, onboarding and the dashboard. The wall clock
 * and the id derived from it are parameters; the toasts shown are recorded.
 */
module AppShell {
  import opened Wrappers
  import opened FrontendTypes

  datatype Screen = Landing | Auth | Onboarding | Dashboard

  /** What is drawn: each screen's component, or nothing when a user-only screen has no user. */
  datatype Rendered = LandingPage | AuthPage | OnboardingPage | DashboardPage(user: AppUser) | Blank

  /** The effect's choice: no user, the landing page; a user with both settings, the dashboard; otherwise onboarding. */
  function Derived(user: Option<AppUser>, config: Option<BusinessConfig>, credentials: Option<APICredentials>): Screen {
    if user.None? then Landing
    else if config.Some? && credentials.Some? then Dashboard
    else Onboarding
  }

  function Render(screen: Screen, user: Option<AppUser>): Rendered {
    match screen
    case Landing => LandingPage
    case Auth => AuthPage
    case Onboarding => if user.Some? then OnboardingPage else Blank
    case Dashboard => if user.Some? then DashboardPage(user.value) else Blank
  }

  /** The name every account signed in (rather than signed up) gets. */
  const SignedInBusinessName: string := "Mi Negocio"

  const WelcomeBack: string := "¡Bienvenido de vuelta!"
  const AccountCreated: string := "¡Cuenta creada exitosamente!"
  const SetupComplete: string := "¡Configuración completada! Bienvenido a AutomateAI"
  const SignedOut: string := "Sesión cerrada"

  /**
   * A derived screen is never blank: the onboarding and dashboard screens, which
   * draw only with a user, are chosen exactly when there is one, and the
   * dashboard exactly when both settings are stored as well.
   */
  lemma DerivedScreenIsDrawn(user: Option<AppUser>, config: Option<BusinessConfig>, credentials: Option<APICredentials>)
    ensures var s := Derived(user, config, credentials);
      && Render(s, user) != Blank
      && (s == Onboarding || s == Dashboard <==> user.Some?)
      && (s == Dashboard <==> user.Some? && config.Some? && credentials.Some?)
      && s != Auth
  {
  }

  class App {
    var appState: Screen
    var currentUser: Option<AppUser>
    var businessConfig: Option<BusinessConfig>
    var apiCredentials: Option<APICredentials>
    var toasts: seq<string>

    /**
     * The sign-in form is shown only to a visitor with no user; every other
     * screen is the one derived from the stored values.
     */
    predicate Valid()
      reads this
    {
      if appState == Auth then currentUser.None? else appState == Derived(currentUser, businessConfig, apiCredentials)
    }

    /** The app starts on the landing page and the effect runs on the stored values. */
    constructor (user: Option<AppUser>, config: Option<BusinessConfig>, credentials: Option<APICredentials>)
      ensures Valid()
      ensures currentUser == user && businessConfig == config && apiCredentials == credentials && toasts == []
      ensures appState == Derived(user, config, credentials)
    {
      currentUser, businessConfig, apiCredentials := user, config, credentials;
      toasts := [];
      appState := Derived(user, config, credentials);
    }

    /** The effect that follows a change of a stored value. */
    method Rederive()
      modifies this
      ensures appState == Derived(currentUser, businessConfig, apiCredentials)
      ensures currentUser == old(currentUser) && businessConfig == old(businessConfig)
      ensures apiCredentials == old(apiCredentials) && toasts == old(toasts)
    {
      appState := Derived(currentUser, businessConfig, apiCredentials);
    }

    /** "Get started" and "sign in" on the landing page both open the form. */
    method OpenAuth()
      requires Valid() && appState == Landing
      modifies this
      ensures Valid() && appState == Auth
      ensures currentUser == old(currentUser) && businessConfig == old(businessConfig)
      ensures apiCredentials == old(apiCredentials) && toasts == old(toasts)
    {
      appState := Auth;
    }

    /** The form's back link. */
    method BackToLanding()
      requires Valid() && appState == Auth
      modifies this
      ensures Valid() && appState == Landing
      ensures currentUser == old(currentUser) && businessConfig == old(businessConfig)
      ensures apiCredentials == old(apiCredentials) && toasts == old(toasts)
    {
      appState := Landing;
    }

    /**
     * `handleSignIn`: any email and password sign in, as a user named "Mi
     * Negocio" with the given clock's id and time; the effect then leaves the form.
     */
    method SignIn(email: string, password: string, id: string, now: string)
      requires Valid() && appState == Auth
      modifies this
      ensures Valid()
      ensures currentUser == Some(AppUser(id, email, SignedInBusinessName, now))
      ensures businessConfig == old(businessConfig) && apiCredentials == old(apiCredentials)
      ensures appState == (if businessConfig.Some? && apiCredentials.Some? then Dashboard else Onboarding)
      ensures toasts == old(toasts) + [WelcomeBack]
    {
      currentUser := Some(AppUser(id, email, SignedInBusinessName, now));
      toasts := toasts + [WelcomeBack];
      Rederive();
    }

    /** `handleSignUp`: as signing in, with the business name entered. */
    method SignUp(email: string, password: string, businessName: string, id: string, now: string)
      requires Valid() && appState == Auth
      modifies this
      ensures Valid()
      ensures currentUser == Some(AppUser(id, email, businessName, now))
      ensures businessConfig == old(businessConfig) && apiCredentials == old(apiCredentials)
      ensures appState == (if businessConfig.Some? && apiCredentials.Some? then Dashboard else Onboarding)
      ensures toasts == old(toasts) + [AccountCreated]
    {
      currentUser := Some(AppUser(id, email, businessName, now));
      toasts := toasts + [AccountCreated];
      Rederive();
    }

    /** `handleOnboardingComplete`: both settings are stored and the dashboard opens. */
    method CompleteOnboarding(config: BusinessConfig, credentials: APICredentials)
      requires Valid() && appState == Onboarding
      modifies this
      ensures Valid() && appState == Dashboard
      ensures currentUser == old(currentUser)
      ensures businessConfig == Some(config) && apiCredentials == Some(credentials)
      ensures toasts == old(toasts) + [SetupComplete]
    {
      businessConfig, apiCredentials := Some(config), Some(credentials);
      toasts := toasts + [SetupComplete];
      Rederive();
    }

    /** `handleSignOut`: everything stored is cleared and the landing page shows. */
    method SignOut()
      requires Valid() && appState == Dashboard
      modifies this
      ensures Valid() && appState == Landing
      ensures currentUser.None? && businessConfig.None? && apiCredentials.None?
      ensures toasts == old(toasts) + [SignedOut]
    {
      currentUser, businessConfig, apiCredentials := None, None, None;
      appState := Landing;
      toasts := toasts + [SignedOut];
      Rederive();
    }

    /** What the app draws now. */
    function Drawn(): Rendered
      reads this
    {
      Render(appState, currentUser)
    }

    /** In a valid state the app always draws a screen, and the dashboard always draws the signed-in user. */
    lemma AlwaysDrawn()
      requires Valid()
      ensures Drawn() != Blank
      ensures Drawn().DashboardPage? ==> currentUser == Some(Drawn().user)
    {
      if appState != Auth {
        DerivedScreenIsDrawn(currentUser, businessConfig, apiCredentials);
      }
    }
  }
}
