/**
 * The activity's root controller: the theme option and the session flag it
 * owns, and the state of whichever screen it currently shows. A screen's
 * state object exists only while that screen is shown.
 */
module Root {
  import opened Colors
  import opened Theme
  import opened Navigation
  import opened Login
  import opened Session

  class App {
    var currentTheme: ThemeOption
    var isLoggedIn: bool
    /** The login screen's state; present exactly while logged out. */
    var login: LoginForm?
    /** The scaffold's state; present exactly while logged in. */
    var scaffold: Scaffold?

    /** The flag decides which screen is shown, and only that screen has state. */
    ghost predicate Valid()
      reads this
    {
      (isLoggedIn <==> scaffold != null) && (isLoggedIn <==> login == null)
    }

    /** The state as a value of the state machine. */
    ghost function State(): AppState
      reads this, login, scaffold
      requires Valid()
    {
      AppState(currentTheme,
        if isLoggedIn then MainScaffold(scaffold.currentDestination) else LoginScreen(login.Value()))
    }

    /** Start-up: logged out, light theme, an empty login form. */
    constructor ()
      ensures Valid() && fresh(login)
      ensures !isLoggedIn && currentTheme == LIGHT
      ensures State() == Init()
    {
      currentTheme := LIGHT;
      isLoggedIn := false;
      login := new LoginForm();
      scaffold := null;
    }

    /** What the root shows, given the primary colour of the active scheme. */
    method Show(primary: Argb) returns (v: View)
      requires Valid()
      ensures v.LoginView? <==> !isLoggedIn
      ensures v == Render(State(), primary)
    {
      if !isLoggedIn {
        v := LoginView(login.username, login.password, login.errorMessage);
      } else {
        var d := scaffold.currentDestination;
        v := ScaffoldView(BarColor(currentTheme), BottomBar(d, primary), ContentFor(d, currentTheme));
      }
    }

    /** Typing into the username field of the login screen. */
    method EditUsername(text: string)
      requires Valid()
      modifies login
      ensures Valid()
      ensures State() == Step(old(State()), Event.EditUsername(text))
    {
      if !isLoggedIn {
        login.EditUsername(text);
      }
    }

    /** Typing into the password field of the login screen. */
    method EditPassword(text: string)
      requires Valid()
      modifies login
      ensures Valid()
      ensures State() == Step(old(State()), Event.EditPassword(text))
    {
      if !isLoggedIn {
        login.EditPassword(text);
      }
    }

    /** A tap on Login: on success the session flag is set and the scaffold is entered on HOME. */
    method SubmitLogin()
      requires Valid()
      modifies this, login
      ensures Valid()
      ensures State() == Step(old(State()), Event.SubmitLogin)
      ensures currentTheme == old(currentTheme)
      ensures isLoggedIn <==> old(isLoggedIn || Accepts(login.username, login.password))
      ensures login != null ==> login == old(login) || fresh(login)
      ensures scaffold != null ==> scaffold == old(scaffold) || fresh(scaffold)
    {
      if !isLoggedIn {
        var success := login.Submit();
        if success {
          isLoggedIn := true;
          login := null;
          scaffold := new Scaffold();
        }
      }
    }

    /** The logout callback, reachable from the settings screen only. */
    method Logout()
      requires Valid()
      modifies this
      ensures Valid()
      ensures State() == Step(old(State()), Event.Logout)
      ensures currentTheme == old(currentTheme)
      ensures isLoggedIn <==> old(isLoggedIn && scaffold.currentDestination != SETTINGS)
      ensures login != null ==> login == old(login) || fresh(login)
      ensures scaffold != null ==> scaffold == old(scaffold) || fresh(scaffold)
    {
      if isLoggedIn && scaffold.currentDestination == SETTINGS {
        isLoggedIn := false;
        scaffold := null;
        login := new LoginForm();
      }
    }

    /** The theme-change callback, reachable from the settings screen only. */
    method ChangeTheme(t: ThemeOption)
      requires Valid()
      modifies this
      ensures Valid()
      ensures State() == Step(old(State()), Event.ChangeTheme(t))
      ensures isLoggedIn == old(isLoggedIn)
      ensures login == old(login) && scaffold == old(scaffold)
      ensures currentTheme == if old(isLoggedIn && scaffold.currentDestination == SETTINGS) then t else old(currentTheme)
    {
      if isLoggedIn && scaffold.currentDestination == SETTINGS {
        currentTheme := t;
      }
    }

    /** A tap on a bottom-bar item. */
    method SelectTab(d: Destination)
      requires Valid()
      modifies scaffold
      ensures Valid()
      ensures State() == Step(old(State()), Event.SelectTab(d))
    {
      if isLoggedIn {
        scaffold.SelectTab(d);
      }
    }

    /** A tap on the centre "+" button. */
    method PressFab()
      requires Valid()
      ensures Valid()
      ensures State() == old(State())
      ensures State() == Step(old(State()), Event.PressFab)
    {
      if isLoggedIn {
        scaffold.PressFab();
      }
    }
  }

  /** A user session driven through the controller's contracts alone: a wrong password, a retry, a theme change and a logout. */
  method UserSession()
  {
    var app := new App();
    app.EditUsername("root");
    app.EditPassword("wrong");
    app.SubmitLogin();
    assert !app.isLoggedIn && app.State().screen.form.errorMessage.Some?;
    app.EditPassword("root");
    app.SubmitLogin();
    assert app.isLoggedIn && app.State().screen == MainScaffold(HOME);
    app.SelectTab(SETTINGS);
    app.ChangeTheme(JADE_GREEN);
    assert app.currentTheme == JADE_GREEN;
    app.Logout();
    assert !app.isLoggedIn && app.currentTheme == JADE_GREEN;
    assert app.State().screen == LoginScreen(EmptyForm);
    app.EditUsername("root");
  }
}
