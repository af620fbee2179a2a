/** The theme switcher. The current theme is a string held by an outside
    provider; the mobile button moves it along dark, system, light, the
    desktop buttons set one theme each, and the button's icon follows the
    current theme. */
module ThemeToggle {

  const Dark: string := "dark"
  const SystemTheme: string := "system"
  const Light: string := "light"

  function Themes(): set<string> {
    {Dark, SystemTheme, Light}
  }

  datatype Icon = Moon | Sun | Monitor

  /** `cycleTheme`: dark goes to system, system to light, anything else to dark. */
  function Cycle(theme: string): (next: string)
    ensures next in Themes()
    ensures next != theme
    ensures theme == Dark <==> next == SystemTheme
    ensures theme == SystemTheme <==> next == Light
    ensures theme != Dark && theme != SystemTheme <==> next == Dark
  {
    if theme == Dark then SystemTheme
    else if theme == SystemTheme then Light
    else Dark
  }

  /** `getIcon`: a moon for dark, a sun for light, a monitor otherwise. */
  function IconFor(theme: string): (icon: Icon)
    ensures icon == Moon <==> theme == Dark
    ensures icon == Sun <==> theme == Light
    ensures icon == Monitor <==> theme != Dark && theme != Light
  {
    if theme == Dark then Moon
    else if theme == Light then Sun
    else Monitor
  }

  datatype ThemeButton = DarkButton | SystemButton | LightButton

  /** The theme a desktop button sets, whatever the current one is. */
  function Press(button: ThemeButton, current: string): (next: string)
    ensures next in Themes()
    ensures next == Dark <==> button == DarkButton
    ensures next == SystemTheme <==> button == SystemButton
    ensures next == Light <==> button == LightButton
  {
    match button
    case DarkButton => Dark
    case SystemButton => SystemTheme
    case LightButton => Light
  }

  /** Three presses of the mobile button bring each of the three themes back. */
  lemma CycleReturns(theme: string)
    requires theme in Themes()
    ensures Cycle(Cycle(Cycle(theme))) == theme
  {
  }

  /** From any theme, even one the switcher does not know, at most three
      presses reach each of the three themes. */
  lemma CycleReachesEveryTheme(theme: string, target: string)
    requires target in Themes()
    ensures target == Cycle(theme) || target == Cycle(Cycle(theme)) || target == Cycle(Cycle(Cycle(theme)))
  {
  }

  /** The mobile button's icon changes on every press. */
  lemma CycleChangesIcon(theme: string)
    ensures IconFor(Cycle(theme)) != IconFor(theme)
  {
  }

  /** Pressing a desktop button twice is the same as pressing it once, and
      the button's theme is the one the mobile button then shows. */
  lemma PressIdempotent(button: ThemeButton, current: string)
    ensures Press(button, Press(button, current)) == Press(button, current)
    ensures IconFor(Press(button, current)) == match button
      case DarkButton => Moon
      case SystemButton => Monitor
      case LightButton => Sun
  {
  }
}
