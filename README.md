# Login gate, navigation scaffold and theme selection

This project models the small event-driven core of an Android app skeleton (package `com.example.app`):

- the **root controller** of `MainActivity`, which owns the session flag `isLoggedIn` and the theme option `currentTheme`;
- the **login form**, with its `username`, `password` and nullable `errorMessage` state and its hard-coded `root`/`root` check;
- the **navigation scaffold**, which holds `currentDestination` (one of HOME, LIBRARY, STATS, SETTINGS), draws a bottom bar with a centre "+" button, picks the bar colour from the theme option and binds each destination to its screen;
- the **theme**: the two brand colour schemes and the choice between them.

Files and modules:

| file | module | what it holds |
|---|---|---|
| `wrappers.dfy` | `Wrappers` | `Option`, for the nullable error message |
| `colors.dfy` | `Colors` | the brand palette as packed 32-bit ARGB integers (`Color(0xAARRGGBB)`) |
| `theme.dfy` | `Theme` | `ThemeOption`, `ColorScheme`, the dark and light schemes, scheme selection |
| `navigation.dfy` | `Navigation` | `Destination`, bar colour, bar items and tints, content binding, class `Scaffold` |
| `login.dfy` | `Login` | the form as a value, the submit rule, class `LoginForm` |
| `session.dfy` | `Session` | the whole app as a state machine on values: `AppState`, `Event`, `Render`, `Step`, `Run`, and lemmas over runs |
| `app.dfy` | `Root` | class `App`, the root controller; each event method is proved to move its state exactly as `Session.Step` does |

Modelling choices:

- State that a screen declares for itself lives only while that screen is shown. `App` holds a `LoginForm` object only while logged out and a `Scaffold` object only while logged in, and makes a fresh one each time a screen is entered. So the form is empty after every logout, and the scaffold starts on HOME after every login. In the value model the screen's state sits inside `Screen`, and `IsLoggedIn` holds exactly while the scaffold is shown.
- An event can only come from a control that is on screen (`Session.Enabled`). Edits and Login come from the login screen. Bar taps and the "+" button come from the scaffold. Theme changes and logout come from the settings screen only, because only that screen is handed those callbacks. An event whose control is not shown changes nothing.
- `MainActivity.onCreate` (MainActivity.kt:48), and the preview at MainActivity.kt:237, call a theme overload that takes a theme option. That overload is not in Theme.kt, and it is not part of this model. So the active scheme's primary colour, used for the selected tint, is a parameter (`primary`) of `Render` and `App.Show`.
- For the same reason the model defines no colour scheme per theme option. Only the two brand schemes of Theme.kt, selected by `darkTheme`, are modelled.
- The bar colour is a four-way choice on the theme option (MainActivity.kt:79-84).
- Login is the strict `root`/`root` check of LoginScreen.kt:96, with a fixed error message on failure.

## Model

| member | source | states |
|---|---|---|
| `Theme.SelectScheme` | app/src/main/java/com/example/app/ui/theme/Theme.kt:66-74 | with dynamic colour off, the dark scheme is chosen exactly when `darkTheme` holds and the light one exactly when it does not; the backgrounds are DarkerGray and LightGray |
| `Theme.ChooseScheme` | app/src/main/java/com/example/app/ui/theme/Theme.kt:58-74 | the platform's dynamic scheme is used exactly when dynamic colour is on and the release is at least API 31, in the requested mode; otherwise it is the brand scheme for `darkTheme` |
| `Theme.SchemesDifferOnlyInNeutrals` | app/src/main/java/com/example/app/ui/theme/Theme.kt:12-56 | `DarkColorScheme` and `LightColorScheme` are different; of the roles the two schemes set, they differ only in background, surface, surfaceVariant and their on-colours |
| `Theme.SchemesShareBrandRoles` | app/src/main/java/com/example/app/ui/theme/Theme.kt:12-56 | both schemes have primary BluePrimary, secondary TealAccent, outline OutlineGray, error ErrorRed, and white onPrimary and onError |
| `Theme.SchemeOnColors` | app/src/main/java/com/example/app/ui/theme/Theme.kt:12-56 | every on-colour the dark scheme sets is white; in the light scheme onBackground, onSurface and onSurfaceVariant are NeutralDark |
| `Theme.SurfaceMatchesVariant` | app/src/main/java/com/example/app/ui/theme/Theme.kt:24-50 | in each scheme surface equals surfaceVariant and differs from the background |
| `Navigation.LabelsDistinct` | app/src/main/java/com/example/app/MainActivity.kt:223-231 | the four destinations have four different labels |
| `Navigation.Label` | app/src/main/java/com/example/app/MainActivity.kt:223-231 | every destination has a non-empty, capitalised label |
| `Navigation.BarColor` | app/src/main/java/com/example/app/MainActivity.kt:79-84 | every theme option has a bar colour, and it is fully opaque |
| `Navigation.BarColorDistinct` | app/src/main/java/com/example/app/MainActivity.kt:79-84 | two options share a bar colour only if they are the same option |
| `Navigation.ItemTint` | app/src/main/java/com/example/app/MainActivity.kt:213-217 | the tint is the primary colour or white, and it is the primary colour exactly when the item is selected (or the primary colour is white) |
| `Navigation.BarItem` | app/src/main/java/com/example/app/MainActivity.kt:120-162 | the item for `d` leads to `d`, is selected exactly when `d` is current, and is tinted primary if selected and white if not |
| `Navigation.BottomBar` | app/src/main/java/com/example/app/MainActivity.kt:120-162 | five slots in the order HOME, LIBRARY, "+", STATS, SETTINGS; an item is selected exactly when its destination is the current one; its tint is the primary colour if selected and white if not |
| `Navigation.ExactlyOneSelected` | app/src/main/java/com/example/app/MainActivity.kt:120-162 | exactly one item of the bar is selected, and each destination has exactly one item |
| `Navigation.TintMarksSelection` | app/src/main/java/com/example/app/MainActivity.kt:198-217 | when the primary colour is not white, an item is drawn in the primary colour exactly when it is the current destination |
| `Navigation.ContentFor` | app/src/main/java/com/example/app/MainActivity.kt:175-184 | each destination has its own screen (home, library, stats or settings), with no fallback; only SETTINGS gets the settings screen, with the current theme |
| `Navigation.ContentDistinct` | app/src/main/java/com/example/app/MainActivity.kt:175-184 | different destinations show different screens |
| `Navigation.Scaffold.constructor` | app/src/main/java/com/example/app/MainActivity.kt:74 | the scaffold starts on HOME |
| `Navigation.Scaffold.SelectTab` | app/src/main/java/com/example/app/MainActivity.kt:120-161 | a tap on the item for `d` makes `d` current |
| `Navigation.Scaffold.PressFab` | app/src/main/java/com/example/app/MainActivity.kt:139-140 | the "+" button changes nothing |
| `Login.SingleCredentialPair` | app/src/main/java/com/example/app/LoginScreen.kt:96 | root/root is accepted, and it is the only accepted pair: any two accepted pairs are equal |
| `Login.SubmitForm` | app/src/main/java/com/example/app/LoginScreen.kt:95-102 | success exactly when `Accepts` holds, that is both fields are "root"; success clears the error; failure sets the fixed, non-empty message; both keep the typed fields |
| `Login.SubmitAgainIsStable` | app/src/main/java/com/example/app/LoginScreen.kt:95-102 | a second tap on Login without editing gives the same outcome and the same form |
| `Login.LoginForm.constructor` | app/src/main/java/com/example/app/LoginScreen.kt:30-32 | the form starts with empty fields and no error |
| `Login.LoginForm.EditUsername` | app/src/main/java/com/example/app/LoginScreen.kt:75-79 | the username becomes the typed text; password and error are unchanged |
| `Login.LoginForm.EditPassword` | app/src/main/java/com/example/app/LoginScreen.kt:82-91 | the password becomes the typed text; username and error are unchanged |
| `Login.LoginForm.Submit` | app/src/main/java/com/example/app/LoginScreen.kt:94-102 | the callback fires exactly for root/root; the error becomes null on success and the fixed message on failure; the fields are kept; the result agrees with `SubmitForm` |
| `Session.Init` | app/src/main/java/com/example/app/MainActivity.kt:45-46 | start-up is logged out with the LIGHT theme and a login form with empty fields and no error |
| `Session.Render` | app/src/main/java/com/example/app/MainActivity.kt:49-59 | the login screen is shown exactly while logged out, with the typed fields and the error message as set; the scaffold has the theme's bar colour, the bar for the current destination, and the content bound to it, so the settings screen gets the current theme |
| `Session.ErrorLineShown` | app/src/main/java/com/example/app/LoginScreen.kt:114-124 | the error line is present exactly when a message is set, and it shows that message |
| `Session.Enabled` | app/src/main/java/com/example/app/MainActivity.kt:175-184 | the login controls fire only while logged out and the scaffold's only while logged in; theme change and logout fire only while SETTINGS is shown |
| `Session.Step` | app/src/main/java/com/example/app/MainActivity.kt:49-162 | an event whose control is not shown changes nothing; the theme changes only by a theme change from SETTINGS, to exactly the given option; logging in happens only by Login with root/root and lands on HOME; logging out happens only by Logout from SETTINGS and returns to an empty form |
| `Session.SessionCallbacksOnlyInSettings` | app/src/main/java/com/example/app/MainActivity.kt:175-184 | theme change and logout can be raised exactly when the shown content is the settings screen |
| `Session.SubmitLoginStep` | app/src/main/java/com/example/app/MainActivity.kt:50-52 | on the login screen, Login logs in exactly for root/root and lands on HOME; otherwise the form keeps its fields and shows the error; the theme is unchanged |
| `Session.LogoutStep` | app/src/main/java/com/example/app/MainActivity.kt:57 | logout from settings returns to an empty login form; the theme is unchanged; elsewhere it has no effect |
| `Session.ChangeThemeStep` | app/src/main/java/com/example/app/MainActivity.kt:56 | a theme change from settings sets exactly the given option; the session and the screen are unchanged |
| `Session.SelectTabStep` | app/src/main/java/com/example/app/MainActivity.kt:120-162 | a bar tap while logged in shows that destination and changes nothing else; a repeated tap is idempotent |
| `Session.PressFabIsNoOp` | app/src/main/java/com/example/app/MainActivity.kt:140 | the "+" button leaves the whole state unchanged |
| `Session.EditStep` | app/src/main/java/com/example/app/LoginScreen.kt:75-91 | typing replaces one field of the form and nothing else |
| `Session.ChangeHasACause` | app/src/main/java/com/example/app/MainActivity.kt:45-59 | if an observation of the state differs after a run of events, some single event of the run flipped it |
| `Session.LoginNeedsRootCredentials` | app/src/main/java/com/example/app/LoginScreen.kt:96-98 | any run that goes from logged out to logged in contains a Login tap made while the form held root/root |
| `Session.LogoutOnlyFromSettings` | app/src/main/java/com/example/app/MainActivity.kt:175-184 | any run that goes from logged in to logged out contains a logout raised while SETTINGS was shown |
| `Session.ThemeChangesOnlyInSettings` | app/src/main/java/com/example/app/MainActivity.kt:175-184 | any run that changes the theme contains a theme change raised while SETTINGS was shown |
| `Session.LoginLogoutScenario` | app/src/main/java/com/example/app/MainActivity.kt:45-59 | typing root/root and tapping Login shows the scaffold on HOME; then opening settings and logging out gives back the start-up state |
| `Session.WrongPasswordScenario` | app/src/main/java/com/example/app/LoginScreen.kt:95-102 | root with a wrong password stays on the login screen, keeps the fields and shows the error |
| `Root.App.constructor` | app/src/main/java/com/example/app/MainActivity.kt:45-46 | start-up is logged out with the LIGHT theme and an empty login form |
| `Root.App.Show` | app/src/main/java/com/example/app/MainActivity.kt:48-59 | the login screen is shown exactly while `isLoggedIn` is false; the view is the one `Render` gives for the current state |
| `Root.App.EditUsername` | app/src/main/java/com/example/app/LoginScreen.kt:77 | the new state is the one `Step` gives for the edit |
| `Root.App.EditPassword` | app/src/main/java/com/example/app/LoginScreen.kt:84 | the new state is the one `Step` gives for the edit |
| `Root.App.SubmitLogin` | app/src/main/java/com/example/app/MainActivity.kt:50-52 | the session flag becomes true exactly for root/root; the theme is unchanged; the new state is the one `Step` gives |
| `Root.App.Logout` | app/src/main/java/com/example/app/MainActivity.kt:57 | the session flag is cleared when logout comes from settings; the theme is unchanged; the new state is the one `Step` gives |
| `Root.App.ChangeTheme` | app/src/main/java/com/example/app/MainActivity.kt:56 | from settings the theme becomes exactly the given option; the session flag is unchanged; the new state is the one `Step` gives |
| `Root.App.SelectTab` | app/src/main/java/com/example/app/MainActivity.kt:120-162 | the new state is the one `Step` gives for the bar tap |
| `Root.App.PressFab` | app/src/main/java/com/example/app/MainActivity.kt:139-140 | the state is unchanged |

## Left out

- Compose layout and styling: modifiers, sizes, shapes, offsets, the login gradient, and the colours of the "+" button. None of it has behaviour to state.
- Destination icons. Only the labels are modelled.
- The preview composables. They are design-time tooling.
- The theme overload that takes a theme option (called at MainActivity.kt:48) and the `ThemeOption` definition are not part of this model. The option values come from the bar-colour mapping, and the active scheme's primary colour is a parameter.
- The dynamic colour schemes are platform calls, so `ChooseScheme` returns them as an opaque `Dynamic(dark)` choice. The `isSystemInDarkTheme()` default of `darkTheme` is a platform call, so `darkTheme` is an input.
- `ColorScheme` holds only the fifteen roles the brand schemes set. The toolkit's scheme builders fill the other roles (tertiary, containers, inverse colours and so on) with separate dark and light library defaults, and some of those dark on-colours are not white. The model does not hold those roles, so its statements about the schemes cover only the roles they set.
- Typography and shapes (`AppTypography`, `AppShapes`). They are cosmetic tables in font and size units.
- The bodies of the home, library, stats and settings screens are not part of this model. The settings screen counts only as the place where theme-change and logout events, with any option, come from.
- Saving the state across configuration changes or process recreation. That is framework lifecycle. Every run starts from the start-up state.
- `YellowAccent` and `PurpleAccent` are declared in the palette but used by no modelled code.
