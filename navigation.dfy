/** The bottom-navigation scaffold: its destinations, bar colours, bar items and content binding. */
module Navigation {
  import opened Colors
  import opened Theme

  /** The four top-level screens reachable from the bottom bar. */
  datatype Destination = HOME | LIBRARY | STATS | SETTINGS

  /** The text shown under a destination's icon. */
  function Label(d: Destination): (r: string)
    ensures |r| > 0 && 'A' <= r[0] <= 'Z'
  {
    match d
    case HOME => "Home"
    case LIBRARY => "Library"
    case STATS => "Stats"
    case SETTINGS => "Settings"
  }

  /** No two destinations share a label. */
  lemma LabelsDistinct(d: Destination, e: Destination)
    ensures Label(d) == Label(e) <==> d == e
  {
  }

  /** The background of the bottom bar, chosen by the active theme option. */
  function BarColor(t: ThemeOption): (r: Argb)
    ensures Alpha(r) == 0xFF
  {
    match t
    case LIGHT => 0xFF2A2A2A
    case DARK => 0xFF1A1A1A
    case NIGHT_BLUE => 0xFF050B16
    case JADE_GREEN => 0xFF031813
  }

  /** Each theme option gets a bar colour of its own. */
  lemma BarColorDistinct(t: ThemeOption, u: ThemeOption)
    ensures BarColor(t) == BarColor(u) <==> t == u
  {
  }

  /** The colour of an item's icon and label. */
  function ItemTint(selected: bool, primary: Argb): (r: Argb)
    ensures r == primary || r == White
    ensures r == primary <==> selected || primary == White
  {
    if selected then primary else White
  }

  /** One slot of the bottom bar: a destination item, or the centre "+" button. */
  datatype BarSlot = Item(dest: Destination, selected: bool, tint: Argb) | Fab

  /** The item for destination `d` while `current` is shown. */
  function BarItem(d: Destination, current: Destination, primary: Argb): (r: BarSlot)
    ensures r.Item? && r.dest == d
    ensures r.selected <==> d == current
    ensures r.tint == (if d == current then primary else White)
  {
    var selected := current == d;
    Item(d, selected, ItemTint(selected, primary))
  }

  /** The bottom bar, left to right, while `current` is shown and the scheme's primary colour is `primary`. */
  function BottomBar(current: Destination, primary: Argb): (r: seq<BarSlot>)
    ensures |r| == 5 && r[2] == Fab
    ensures r[0].Item? && r[0].dest == HOME && r[1].Item? && r[1].dest == LIBRARY
    ensures r[3].Item? && r[3].dest == STATS && r[4].Item? && r[4].dest == SETTINGS
    ensures forall i | 0 <= i < |r| && i != 2 :: r[i].Item?
    ensures forall i | 0 <= i < |r| && r[i].Item? :: r[i].selected <==> r[i].dest == current
    ensures forall i | 0 <= i < |r| && r[i].Item? :: r[i].tint == if r[i].selected then primary else White
  {
    [BarItem(HOME, current, primary), BarItem(LIBRARY, current, primary), Fab,
     BarItem(STATS, current, primary), BarItem(SETTINGS, current, primary)]
  }

  /** How many items of a bar are selected. */
  function SelectedCount(bar: seq<BarSlot>): nat {
    if bar == [] then 0
    else (if bar[0].Item? && bar[0].selected then 1 else 0) + SelectedCount(bar[1..])
  }

  /** How many items of a bar lead to destination `d`. */
  function ItemCount(bar: seq<BarSlot>, d: Destination): nat {
    if bar == [] then 0
    else (if bar[0].Item? && bar[0].dest == d then 1 else 0) + ItemCount(bar[1..], d)
  }

  /** Exactly one item of the bar is selected, and each destination has exactly one item. */
  lemma ExactlyOneSelected(current: Destination, primary: Argb, d: Destination)
    ensures SelectedCount(BottomBar(current, primary)) == 1
    ensures ItemCount(BottomBar(current, primary), d) == 1
  {
    var bar := BottomBar(current, primary);
    var s4, s3, s2, s1 := bar[4..], bar[3..], bar[2..], bar[1..];
    assert s4[1..] == [] && s3[1..] == s4 && s2[1..] == s3 && s1[1..] == s2 && bar[1..] == s1;
    assert SelectedCount(s4) == (if current == SETTINGS then 1 else 0);
    assert SelectedCount(s3) == (if current in {STATS, SETTINGS} then 1 else 0);
    assert SelectedCount(s2) == SelectedCount(s3);
    assert SelectedCount(s1) == (if current in {LIBRARY, STATS, SETTINGS} then 1 else 0);
    assert ItemCount(s4, d) == (if d == SETTINGS then 1 else 0);
    assert ItemCount(s3, d) == (if d in {STATS, SETTINGS} then 1 else 0);
    assert ItemCount(s2, d) == ItemCount(s3, d);
    assert ItemCount(s1, d) == (if d in {LIBRARY, STATS, SETTINGS} then 1 else 0);
  }

  /** With a primary colour other than white, an item is drawn in the primary colour exactly when it is the current one. */
  lemma TintMarksSelection(current: Destination, primary: Argb, i: int)
    requires primary != White
    requires 0 <= i < 5 && i != 2
    ensures BottomBar(current, primary)[i].tint == primary <==> BottomBar(current, primary)[i].dest == current
  {
  }

  /** The screen shown in the content area; only settings gets the theme and the session callbacks. */
  datatype Content = HomeScreen | LibraryScreen | StatsScreen | SettingsScreen(currentTheme: ThemeOption)

  /** The content bound to each destination, with no fallback case. */
  function ContentFor(d: Destination, theme: ThemeOption): (r: Content)
    ensures r == HomeScreen <==> d == HOME
    ensures r == LibraryScreen <==> d == LIBRARY
    ensures r == StatsScreen <==> d == STATS
    ensures r.SettingsScreen? <==> d == SETTINGS
    ensures r.SettingsScreen? ==> r.currentTheme == theme
  {
    match d
    case HOME => HomeScreen
    case LIBRARY => LibraryScreen
    case STATS => StatsScreen
    case SETTINGS => SettingsScreen(theme)
  }

  /** Distinct destinations show distinct screens. */
  lemma ContentDistinct(d: Destination, e: Destination, theme: ThemeOption)
    ensures ContentFor(d, theme) == ContentFor(e, theme) <==> d == e
  {
  }

  /** The scaffold's own state: the destination on screen. */
  class Scaffold {
    var currentDestination: Destination

    /** Entering the scaffold starts on the home screen. */
    constructor ()
      ensures currentDestination == HOME
    {
      currentDestination := HOME;
    }

    /** A tap on the bar item for `d`. */
    method SelectTab(d: Destination)
      modifies this
      ensures currentDestination == d
    {
      currentDestination := d;
    }

    /** A tap on the centre "+" button: reserved, does nothing. */
    method PressFab()
      ensures unchanged(this)
    {
    }
  }
}
