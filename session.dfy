/**
 * The root controller as a state machine on values: which screen is shown,
 * which events its controls can raise, and what each event does.
 *
 * State declared inside a screen lives only while that screen is shown:
 * the login form is empty each time the login screen is entered, and the
 * scaffold starts on HOME each time it is entered.
 */
module Session {
  import opened Wrappers
  import opened Colors
  import opened Theme
  import opened Navigation
  import opened Login

  /** The screen below the theme, with that screen's own state. */
  datatype Screen = LoginScreen(form: Form) | MainScaffold(dest: Destination)

  /** The whole application state: the active theme and the screen shown. */
  datatype AppState = AppState(theme: ThemeOption, screen: Screen)

  /** The session flag: the user is logged in exactly while the scaffold is shown. */
  predicate IsLoggedIn(s: AppState) {
    s.screen.MainScaffold?
  }

  /** The state at start-up: logged out, light theme, empty form. */
  function Init(): (s: AppState)
    ensures !IsLoggedIn(s) && s.theme == LIGHT
    ensures s.screen.form.username == "" && s.screen.form.password == "" && s.screen.form.errorMessage == None
  {
    AppState(LIGHT, LoginScreen(EmptyForm))
  }

  /** The user interactions the screens offer. */
  datatype Event =
    | EditUsername(text: string)
    | EditPassword(text: string)
    | SubmitLogin
    | Logout
    | ChangeTheme(option: ThemeOption)
    | SelectTab(tab: Destination)
    | PressFab

  /** What is on screen, given the primary colour of the active scheme. */
  datatype View =
    | LoginView(username: string, password: string, errorText: Option<string>)
    | ScaffoldView(barColor: Argb, bar: seq<BarSlot>, content: Content)

  /** The root's rendering: the login screen while logged out, the scaffold otherwise. */
  function Render(s: AppState, primary: Argb): (v: View)
    ensures v.LoginView? <==> !IsLoggedIn(s)
    ensures v.LoginView? ==> v.username == s.screen.form.username && v.password == s.screen.form.password
    ensures v.LoginView? ==> v.errorText == s.screen.form.errorMessage
    ensures v.ScaffoldView? ==> v.barColor == BarColor(s.theme)
    ensures v.ScaffoldView? ==> v.bar == BottomBar(s.screen.dest, primary)
    ensures v.ScaffoldView? ==> v.content == ContentFor(s.screen.dest, s.theme)
  {
    match s.screen
    case LoginScreen(f) => LoginView(f.username, f.password, f.errorMessage)
    case MainScaffold(d) => ScaffoldView(BarColor(s.theme), BottomBar(d, primary), ContentFor(d, s.theme))
  }

  /** On the login screen the error line is present exactly when a message is set, and it shows that message. */
  lemma ErrorLineShown(s: AppState, primary: Argb)
    requires !IsLoggedIn(s)
    ensures Render(s, primary).errorText.Some? <==> s.screen.form.errorMessage.Some?
    ensures s.screen.form.errorMessage.Some? ==> Render(s, primary).errorText.value == s.screen.form.errorMessage.value
  {
  }

  /** An event can only come from a control that is on screen. */
  predicate Enabled(s: AppState, e: Event)
    ensures Enabled(s, e) ==> (IsLoggedIn(s) <==> !(e.EditUsername? || e.EditPassword? || e.SubmitLogin?))
    ensures (e.ChangeTheme? || e.Logout?) && Enabled(s, e) ==> s.screen == MainScaffold(SETTINGS)
  {
    match e
    case EditUsername(_) => s.screen.LoginScreen?
    case EditPassword(_) => s.screen.LoginScreen?
    case SubmitLogin => s.screen.LoginScreen?
    case SelectTab(_) => s.screen.MainScaffold?
    case PressFab => s.screen.MainScaffold?
    case ChangeTheme(_) => s.screen == MainScaffold(SETTINGS)
    case Logout => s.screen == MainScaffold(SETTINGS)
  }

  /** The effect of one event; an event whose control is not on screen changes nothing. */
  function Step(s: AppState, e: Event): (r: AppState)
    ensures !Enabled(s, e) ==> r == s
    ensures r.theme != s.theme ==> e.ChangeTheme? && s.screen == MainScaffold(SETTINGS) && r.theme == e.option
    ensures !IsLoggedIn(s) && IsLoggedIn(r) ==>
              e == SubmitLogin && Accepts(s.screen.form.username, s.screen.form.password) && r.screen == MainScaffold(HOME)
    ensures IsLoggedIn(s) && !IsLoggedIn(r) ==>
              e == Logout && s.screen == MainScaffold(SETTINGS) && r.screen == LoginScreen(EmptyForm)
  {
    if !Enabled(s, e) then s
    else match e
      case EditUsername(t) => s.(screen := LoginScreen(s.screen.form.(username := t)))
      case EditPassword(t) => s.(screen := LoginScreen(s.screen.form.(password := t)))
      case SubmitLogin =>
        var r := SubmitForm(s.screen.form);
        if r.success then s.(screen := MainScaffold(HOME)) else s.(screen := LoginScreen(r.form))
      case Logout => s.(screen := LoginScreen(EmptyForm))
      case ChangeTheme(t) => s.(theme := t)
      case SelectTab(d) => s.(screen := MainScaffold(d))
      case PressFab => s
  }

  /** The state after a sequence of events. */
  function Run(s: AppState, evs: seq<Event>): AppState
    decreases |evs|
  {
    if evs == [] then s else Run(Step(s, evs[0]), evs[1..])
  }

  /** Only the settings screen receives the theme-change and logout callbacks. */
  lemma SessionCallbacksOnlyInSettings(s: AppState, e: Event, primary: Argb)
    requires e.ChangeTheme? || e.Logout?
    ensures Enabled(s, e) <==> Render(s, primary).ScaffoldView? && Render(s, primary).content.SettingsScreen?
  {
  }

  /** A Login tap: logs in exactly for root/root, landing on HOME; otherwise shows the error and keeps the fields. */
  lemma SubmitLoginStep(s: AppState)
    requires s.screen.LoginScreen?
    ensures Step(s, SubmitLogin).theme == s.theme
    ensures IsLoggedIn(Step(s, SubmitLogin)) <==> Accepts(s.screen.form.username, s.screen.form.password)
    ensures IsLoggedIn(Step(s, SubmitLogin)) ==> Step(s, SubmitLogin).screen == MainScaffold(HOME)
    ensures !IsLoggedIn(Step(s, SubmitLogin)) ==>
      Step(s, SubmitLogin).screen.form == s.screen.form.(errorMessage := Some(WrongCredentials))
  {
  }

  /** Logout from settings returns to an empty login form and keeps the theme. */
  lemma LogoutStep(s: AppState)
    ensures Step(s, Logout).theme == s.theme
    ensures Enabled(s, Logout) ==> Step(s, Logout).screen == LoginScreen(EmptyForm)
    ensures !Enabled(s, Logout) ==> Step(s, Logout) == s
  {
  }

  /** A theme change sets exactly the given option and keeps the session and the screen. */
  lemma ChangeThemeStep(s: AppState, t: ThemeOption)
    ensures Step(s, ChangeTheme(t)).screen == s.screen
    ensures Enabled(s, ChangeTheme(t)) ==> Step(s, ChangeTheme(t)).theme == t
    ensures !Enabled(s, ChangeTheme(t)) ==> Step(s, ChangeTheme(t)).theme == s.theme
  {
  }

  /** A tap on a bar item shows that destination, and a second tap on it changes nothing. */
  lemma SelectTabStep(s: AppState, d: Destination)
    ensures IsLoggedIn(s) ==> Step(s, SelectTab(d)) == s.(screen := MainScaffold(d))
    ensures !IsLoggedIn(s) ==> Step(s, SelectTab(d)) == s
    ensures Step(Step(s, SelectTab(d)), SelectTab(d)) == Step(s, SelectTab(d))
  {
  }

  /** The centre "+" button changes nothing. */
  lemma PressFabIsNoOp(s: AppState)
    ensures Step(s, PressFab) == s
  {
  }

  /** Typing into one field replaces that field only. */
  lemma EditStep(s: AppState, t: string)
    requires s.screen.LoginScreen?
    ensures Step(s, EditUsername(t)) == s.(screen := LoginScreen(s.screen.form.(username := t)))
    ensures Step(s, EditPassword(t)) == s.(screen := LoginScreen(s.screen.form.(password := t)))
  {
  }

  /**
   * Whenever an observation `p` of the state differs after a run, some event
   * of the run flipped it: `p` still had its first value before that event.
   */
  lemma {:induction false} ChangeHasACause(s: AppState, evs: seq<Event>, p: AppState -> bool)
    requires p(Run(s, evs)) != p(s)
    ensures exists i :: 0 <= i < |evs| && p(Run(s, evs[..i])) == p(s) && p(Step(Run(s, evs[..i]), evs[i])) != p(s)
    decreases |evs|
  {
    var next := Step(s, evs[0]);
    if p(next) != p(s) {
      assert evs[..0] == [];
      assert p(Run(s, evs[..0])) == p(s);
    } else {
      ChangeHasACause(next, evs[1..], p);
      var j :| 0 <= j < |evs[1..]| && p(Run(next, evs[1..][..j])) == p(next)
        && p(Step(Run(next, evs[1..][..j]), evs[1..][j])) != p(next);
      assert evs[..j + 1][1..] == evs[1..][..j];
      assert Run(s, evs[..j + 1]) == Run(next, evs[1..][..j]);
    }
  }

  /** Whoever ends a run logged in after starting logged out tapped Login with root/root. */
  lemma LoginNeedsRootCredentials(s: AppState, evs: seq<Event>)
    requires !IsLoggedIn(s) && IsLoggedIn(Run(s, evs))
    ensures exists i :: (0 <= i < |evs| && evs[i] == SubmitLogin &&
                         Run(s, evs[..i]).screen.LoginScreen? &&
                         Accepts(Run(s, evs[..i]).screen.form.username, Run(s, evs[..i]).screen.form.password))
  {
    ChangeHasACause(s, evs, IsLoggedIn);
    var i :| 0 <= i < |evs| && IsLoggedIn(Run(s, evs[..i])) == IsLoggedIn(s)
      && IsLoggedIn(Step(Run(s, evs[..i]), evs[i])) != IsLoggedIn(s);
    assert evs[i] == SubmitLogin;
  }

  /** A logged-in user can only become logged out through Logout on the settings screen. */
  lemma LogoutOnlyFromSettings(s: AppState, evs: seq<Event>)
    requires IsLoggedIn(s) && !IsLoggedIn(Run(s, evs))
    ensures exists i :: 0 <= i < |evs| && evs[i] == Logout && Run(s, evs[..i]).screen == MainScaffold(SETTINGS)
  {
    ChangeHasACause(s, evs, IsLoggedIn);
    var i :| 0 <= i < |evs| && IsLoggedIn(Run(s, evs[..i])) == IsLoggedIn(s)
      && IsLoggedIn(Step(Run(s, evs[..i]), evs[i])) != IsLoggedIn(s);
    assert evs[i] == Logout;
  }

  /** The theme only changes through a theme change raised on the settings screen. */
  lemma ThemeChangesOnlyInSettings(s: AppState, evs: seq<Event>)
    requires Run(s, evs).theme != s.theme
    ensures exists i :: 0 <= i < |evs| && evs[i].ChangeTheme? && Run(s, evs[..i]).screen == MainScaffold(SETTINGS)
  {
    var keeps := (u: AppState) => u.theme == s.theme;
    ChangeHasACause(s, evs, keeps);
    var i :| 0 <= i < |evs| && keeps(Run(s, evs[..i])) == keeps(s)
      && keeps(Step(Run(s, evs[..i]), evs[i])) != keeps(s);
    assert evs[i].ChangeTheme?;
  }

  /** Log in with root/root, open settings and log out: back at an empty login form, theme untouched. */
  lemma LoginLogoutScenario()
    ensures IsLoggedIn(Run(Init(), [EditUsername("root"), EditPassword("root"), SubmitLogin]))
    ensures Run(Init(), [EditUsername("root"), EditPassword("root"), SubmitLogin]).screen == MainScaffold(HOME)
    ensures Run(Init(), [EditUsername("root"), EditPassword("root"), SubmitLogin, SelectTab(SETTINGS), Logout]) == Init()
  {
  }

  /** A wrong password keeps the user logged out and shows the error. */
  lemma WrongPasswordScenario()
    ensures Run(Init(), [EditUsername("root"), EditPassword("wrong"), SubmitLogin])
      == AppState(LIGHT, LoginScreen(Form("root", "wrong", Some(WrongCredentials))))
  {
  }
}
