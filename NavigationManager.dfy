/**
 * `NavigationDestination`, the `MenuItem` tables, and `NavigationManager`: the navigation
 * stack, the selected menu item and the menu-open flag.
 *
 * `NavigationPath` is type-erased in SwiftUI; the only values this code appends to it are
 * destinations, so it is a sequence of destinations here. `withAnimation` wrappers only
 * animate the flag change they enclose, which is all that is kept of them.
 */
module Navigation {
  import opened Wrappers

  datatype NavigationDestination = Home | WeatherNewsScreen | SettingsScreen

  datatype MenuItem =
    | Dashboard | WeatherNews | RainRadar | WeatherStations | NotificationCenter
    | MonthlyReports | WorldwideCities | AboutUs | Settings | Disclaimer
  {
    /** The raw value, which is also the item's `id`: the item's title in English. */
    function RawValue(): (raw: string)
      ensures |raw| > 0 && 'A' <= raw[0] <= 'Z'
    {
      match this
      case Dashboard => "Dashboard"
      case WeatherNews => "Weather News"
      case RainRadar => "Rain Radar"
      case WeatherStations => "Weather Stations"
      case NotificationCenter => "Notification Center"
      case MonthlyReports => "Monthly Reports"
      case WorldwideCities => "Worldwide Cities"
      case AboutUs => "About Us"
      case Settings => "Settings"
      case Disclaimer => "Disclaimer"
    }

    function LocalizedKey(): (key: string)
      ensures |key| > 5 && key[..5] == "menu_"
    {
      match this
      case Dashboard => "menu_dashboard"
      case WeatherNews => "menu_weather_news"
      case RainRadar => "menu_rain_radar"
      case WeatherStations => "menu_weather_stations"
      case NotificationCenter => "menu_notification_center"
      case MonthlyReports => "menu_monthly_reports"
      case WorldwideCities => "menu_worldwide_cities"
      case AboutUs => "menu_about_us"
      case Settings => "menu_settings"
      case Disclaimer => "menu_disclaimer"
    }

    /** Where the item leads: each destination is reached from exactly one item. */
    function Destination(): (d: Option<NavigationDestination>)
      ensures d == Some(Home) <==> this == Dashboard
      ensures d == Some(WeatherNewsScreen) <==> this == WeatherNews
      ensures d == Some(SettingsScreen) <==> this == Settings
    {
      match this
      case Dashboard => Some(Home)
      case WeatherNews => Some(WeatherNewsScreen)
      case Settings => Some(SettingsScreen)
      case _ => None
    }

    predicate IsNavigable()
      ensures IsNavigable() <==> this in {Dashboard, WeatherNews, Settings}
    {
      Destination().Some?
    }
  }

  /** `MenuItem.allCases`: the ten items in declaration order. */
  function AllMenuItems(): (items: seq<MenuItem>)
    ensures |items| == 10
    ensures forall i, j :: 0 <= i < j < |items| ==> items[i] != items[j]
  {
    [Dashboard, WeatherNews, RainRadar, WeatherStations, NotificationCenter,
     MonthlyReports, WorldwideCities, AboutUs, Settings, Disclaimer]
  }

  lemma AllMenuItemsComplete(item: MenuItem)
    ensures item in AllMenuItems()
  {
  }

  /** The item `navigate(to: destination)` selects. */
  function ItemFor(d: NavigationDestination): (item: MenuItem)
    ensures item.Destination() == Some(d)
  {
    match d
    case Home => Dashboard
    case WeatherNewsScreen => WeatherNews
    case SettingsScreen => Settings
  }

  /** Identifiers and localization keys are distinct per item. */
  lemma MenuItemKeysDistinct(a: MenuItem, b: MenuItem)
    requires a != b
    ensures a.RawValue() != b.RawValue()
    ensures a.LocalizedKey() != b.LocalizedKey()
  {
  }

  /** Dashboard, Weather News and Settings lead somewhere; the other seven items do not. */
  lemma DestinationTable(item: MenuItem)
    ensures item.Destination() ==
      match item
      case Dashboard => Some(Home)
      case WeatherNews => Some(WeatherNewsScreen)
      case Settings => Some(SettingsScreen)
      case _ => None
    ensures item.IsNavigable() <==> item in {Dashboard, WeatherNews, Settings}
  {
  }

  /** Exactly three items are navigable. */
  lemma ThreeNavigableItems()
    ensures (set item | item in AllMenuItems() && item.IsNavigable()) == {Dashboard, WeatherNews, Settings}
    ensures |set item | item in AllMenuItems() && item.IsNavigable()| == 3
  {
  }

  // ---------------------------------------------------------------------------
  // The manager's state and its operations
  // ---------------------------------------------------------------------------

  datatype NavState = NavState(path: seq<NavigationDestination>, selected: MenuItem, menuOpen: bool)
  {
    /** `navigate(to: destination)`: home resets the stack, the others push; the menu closes. */
    function NavigateTo(d: NavigationDestination): (t: NavState)
      ensures t.selected == ItemFor(d) && !t.menuOpen
      ensures d == Home ==> t.path == []
      ensures d != Home ==> |t.path| == |path| + 1 && t.path[..|path|] == path && t.path[|path|] == d
    {
      match d
      case Home => this.(path := [], selected := Dashboard, menuOpen := false)
      case WeatherNewsScreen => this.(path := path + [d], selected := WeatherNews, menuOpen := false)
      case SettingsScreen => this.(path := path + [d], selected := Settings, menuOpen := false)
    }

    /** `navigate(to: menuItem)`: follow its destination if it has one, then select it and close the menu. */
    function NavigateToItem(item: MenuItem): (t: NavState)
      ensures t.selected == item && !t.menuOpen
      ensures !item.IsNavigable() ==> t.path == path
      ensures item.IsNavigable() ==> t.path == NavigateTo(item.Destination().value).path
    {
      var s := if item.Destination().Some? then NavigateTo(item.Destination().value) else this;
      s.(selected := item).CloseMenu()
    }

    function OpenMenu(): (t: NavState)
      ensures t.menuOpen && t.path == path && t.selected == selected
    {
      this.(menuOpen := true)
    }

    function CloseMenu(): (t: NavState)
      ensures !t.menuOpen && t.path == path && t.selected == selected
    {
      this.(menuOpen := false)
    }

    function ToggleMenu(): (t: NavState)
      ensures t.menuOpen == !menuOpen && t.path == path && t.selected == selected
    {
      if menuOpen then CloseMenu() else OpenMenu()
    }

    /** `popToRoot`: the stack empties and Dashboard is selected; the menu flag is untouched. */
    function PopToRoot(): (t: NavState)
      ensures t.path == [] && t.selected == Dashboard && t.menuOpen == menuOpen
    {
      this.(path := [], selected := Dashboard)
    }

    /** `goBack`: drop the top of the stack, if there is one. */
    function GoBack(): (t: NavState)
      ensures |path| > 0 ==> t.path == path[..|path| - 1]
      ensures |path| == 0 ==> t == this
      ensures t.selected == selected && t.menuOpen == menuOpen
    {
      if |path| > 0 then this.(path := path[..|path| - 1]) else this
    }

    /** The stack never holds Home: navigating home resets it instead. */
    predicate HomeNotOnStack() {
      forall i :: 0 <= i < |path| ==> path[i] != Home
    }
  }

  const InitialNavState := NavState([], Dashboard, false)

  datatype NavOp =
    | NavigateOp(d: NavigationDestination) | NavigateItemOp(item: MenuItem)
    | OpenOp | CloseOp | ToggleOp | PopToRootOp | GoBackOp

  function ApplyNav(s: NavState, op: NavOp): NavState {
    match op
    case NavigateOp(d) => s.NavigateTo(d)
    case NavigateItemOp(item) => s.NavigateToItem(item)
    case OpenOp => s.OpenMenu()
    case CloseOp => s.CloseMenu()
    case ToggleOp => s.ToggleMenu()
    case PopToRootOp => s.PopToRoot()
    case GoBackOp => s.GoBack()
  }

  function RunNav(s: NavState, ops: seq<NavOp>): NavState
    decreases |ops|
  {
    if ops == [] then s else RunNav(ApplyNav(s, ops[0]), ops[1..])
  }

  /** Toggling the menu twice changes nothing. */
  lemma ToggleMenuTwiceIsIdentity(s: NavState)
    ensures s.ToggleMenu().ToggleMenu() == s
  {
  }

  /** Going back undoes a push. */
  lemma GoBackUndoesPush(s: NavState, d: NavigationDestination)
    requires d != Home
    ensures s.NavigateTo(d).GoBack().path == s.path
  {
  }

  /** Navigating to Dashboard clears the stack, whatever was on it. */
  lemma DashboardResetsStack(s: NavState)
    ensures s.NavigateToItem(Dashboard) == NavState([], Dashboard, false)
  {
  }

  lemma OpStaysOffHome(s: NavState, op: NavOp)
    requires s.HomeNotOnStack()
    ensures ApplyNav(s, op).HomeNotOnStack()
  {
  }

  /** From the initial state, no sequence of operations puts Home on the stack. */
  lemma {:induction false} RunStaysOffHome(s: NavState, ops: seq<NavOp>)
    requires s.HomeNotOnStack()
    ensures RunNav(s, ops).HomeNotOnStack()
    decreases |ops|
  {
    if ops != [] {
      OpStaysOffHome(s, ops[0]);
      RunStaysOffHome(ApplyNav(s, ops[0]), ops[1..]);
    }
  }

  // ---------------------------------------------------------------------------
  // The class
  // ---------------------------------------------------------------------------

  class NavigationManager {
    var selectedMenuItem: MenuItem
    var navigationPath: seq<NavigationDestination>
    var isMenuOpen: bool

    function State(): NavState
      reads this
    {
      NavState(navigationPath, selectedMenuItem, isMenuOpen)
    }

    constructor ()
      ensures State() == InitialNavState
    {
      selectedMenuItem := Dashboard;
      navigationPath := [];
      isMenuOpen := false;
    }

    method NavigateTo(destination: NavigationDestination)
      modifies this
      ensures State() == old(State()).NavigateTo(destination)
    {
      match destination {
        case Home =>
          navigationPath := [];
          selectedMenuItem := Dashboard;
        case WeatherNewsScreen =>
          navigationPath := navigationPath + [destination];
          selectedMenuItem := WeatherNews;
        case SettingsScreen =>
          navigationPath := navigationPath + [destination];
          selectedMenuItem := Settings;
      }
      CloseMenu();
    }

    method NavigateToItem(menuItem: MenuItem)
      modifies this
      ensures State() == old(State()).NavigateToItem(menuItem)
    {
      if menuItem.Destination().Some? {
        NavigateTo(menuItem.Destination().value);
      }
      selectedMenuItem := menuItem;
      CloseMenu();
    }

    method OpenMenu()
      modifies this
      ensures State() == old(State()).OpenMenu()
    {
      isMenuOpen := true;
    }

    method CloseMenu()
      modifies this
      ensures State() == old(State()).CloseMenu()
    {
      isMenuOpen := false;
    }

    method ToggleMenu()
      modifies this
      ensures State() == old(State()).ToggleMenu()
    {
      if isMenuOpen {
        CloseMenu();
      } else {
        OpenMenu();
      }
    }

    method PopToRoot()
      modifies this
      ensures State() == old(State()).PopToRoot()
    {
      navigationPath := [];
      selectedMenuItem := Dashboard;
    }

    method GoBack()
      modifies this
      ensures State() == old(State()).GoBack()
    {
      if |navigationPath| > 0 {
        navigationPath := navigationPath[..|navigationPath| - 1];
      }
    }
  }
}
