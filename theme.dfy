/** The application theme: the two brand colour schemes and the choice between them. */
module Theme {
  import opened Colors

  /** The theme options the user can pick in the settings screen. */
  datatype ThemeOption = LIGHT | DARK | NIGHT_BLUE | JADE_GREEN

  /** The colour roles the brand schemes set explicitly; the toolkit's defaults for the other roles are not modelled. */
  datatype ColorScheme = ColorScheme(
    primary: Argb, onPrimary: Argb,
    primaryContainer: Argb, onPrimaryContainer: Argb,
    secondary: Argb, onSecondary: Argb,
    background: Argb, onBackground: Argb,
    surface: Argb, onSurface: Argb,
    surfaceVariant: Argb, onSurfaceVariant: Argb,
    outline: Argb, error: Argb, onError: Argb)

  const DarkColorScheme := ColorScheme(
    primary := BluePrimary, onPrimary := White,
    primaryContainer := BlueSecondary, onPrimaryContainer := White,
    secondary := TealAccent, onSecondary := White,
    background := DarkerGray, onBackground := White,
    surface := NeutralDark, onSurface := White,
    surfaceVariant := NeutralDark, onSurfaceVariant := White,
    outline := OutlineGray, error := ErrorRed, onError := White)

  const LightColorScheme := ColorScheme(
    primary := BluePrimary, onPrimary := White,
    primaryContainer := BlueSecondary, onPrimaryContainer := White,
    secondary := TealAccent, onSecondary := White,
    background := LightGray, onBackground := NeutralDark,
    surface := PureWhite, onSurface := NeutralDark,
    surfaceVariant := PureWhite, onSurfaceVariant := NeutralDark,
    outline := OutlineGray, error := ErrorRed, onError := White)

  /** Every "on" role that the brand schemes set is white. */
  predicate AllOnColorsWhite(s: ColorScheme) {
    s.onPrimary == White && s.onPrimaryContainer == White && s.onSecondary == White &&
    s.onBackground == White && s.onSurface == White && s.onSurfaceVariant == White &&
    s.onError == White
  }

  /** The brand scheme for the dark or the light mode, with dynamic colour off. */
  function SelectScheme(darkTheme: bool): (r: ColorScheme)
    ensures r == DarkColorScheme <==> darkTheme
    ensures r == LightColorScheme <==> !darkTheme
    ensures r.background == (if darkTheme then DarkerGray else LightGray)
  {
    if darkTheme then DarkColorScheme else LightColorScheme
  }

  /** Where the active scheme comes from: the platform's wallpaper-derived scheme, or a brand scheme. */
  datatype SchemeChoice = Dynamic(dark: bool) | Brand(scheme: ColorScheme)

  /** The first platform release that offers dynamic colour (API level 31). */
  const SdkS := 31

  /** The scheme selection of the theme composable, given the platform's release number. */
  function ChooseScheme(darkTheme: bool, dynamicColor: bool, sdkInt: int): (r: SchemeChoice)
    ensures r.Dynamic? <==> dynamicColor && sdkInt >= SdkS
    ensures r.Dynamic? ==> r.dark == darkTheme
    ensures r.Brand? ==> r.scheme == SelectScheme(darkTheme)
    ensures !dynamicColor ==> r == Brand(SelectScheme(darkTheme))
  {
    if dynamicColor && sdkInt >= SdkS then Dynamic(darkTheme)
    else Brand(SelectScheme(darkTheme))
  }

  /** The two brand schemes agree on every role they set, except the neutral background and surface roles and their on-colours. */
  lemma SchemesDifferOnlyInNeutrals()
    ensures DarkColorScheme != LightColorScheme
    ensures DarkColorScheme.(background := LightGray, onBackground := NeutralDark,
                             surface := PureWhite, onSurface := NeutralDark,
                             surfaceVariant := PureWhite, onSurfaceVariant := NeutralDark) == LightColorScheme
  {
  }

  /** Both brand schemes carry the same brand roles: primary, secondary, outline, error and their on-colours. */
  lemma SchemesShareBrandRoles(darkTheme: bool)
    ensures SelectScheme(darkTheme).primary == BluePrimary
    ensures SelectScheme(darkTheme).secondary == TealAccent
    ensures SelectScheme(darkTheme).outline == OutlineGray
    ensures SelectScheme(darkTheme).error == ErrorRed
    ensures SelectScheme(darkTheme).onPrimary == White
    ensures SelectScheme(darkTheme).onError == White
  {
  }

  /** The on-colours the schemes set: all white in the dark scheme, the dark neutral on backgrounds and surfaces in the light one. */
  lemma SchemeOnColors(darkTheme: bool)
    ensures darkTheme ==> AllOnColorsWhite(SelectScheme(darkTheme))
    ensures !darkTheme ==> SelectScheme(darkTheme).onBackground == NeutralDark
    ensures !darkTheme ==> SelectScheme(darkTheme).onSurface == NeutralDark
    ensures !darkTheme ==> SelectScheme(darkTheme).onSurfaceVariant == NeutralDark
    ensures !darkTheme ==> !AllOnColorsWhite(SelectScheme(darkTheme))
  {
  }

  /** In each scheme cards and variant surfaces share one colour, and it differs from the background. */
  lemma SurfaceMatchesVariant(darkTheme: bool)
    ensures SelectScheme(darkTheme).surface == SelectScheme(darkTheme).surfaceVariant
    ensures SelectScheme(darkTheme).surface != SelectScheme(darkTheme).background
  {
  }
}
