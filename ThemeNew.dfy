/**
 * The simpler provider of src/theme/ThemeProvider-new.tsx: one scheme out of
 * `light`, `dark` and `ancient`, a toggle, a setter, and a system listener that
 * is active only when no initial theme was given.
 */
module ThemeNew {
  import opened Common
  import Theme

  datatype Scheme = Light | Dark | Ancient

  /** `toggleTheme`'s update: dark becomes light, every other scheme dark. */
  function Toggled(current: Scheme): (next: Scheme)
    ensures next == Light <==> current == Dark
    ensures next == Dark <==> current != Dark
  {
    if current == Dark then Light else Dark
  }

  /**
   * The listener's update: without an initial theme, a reported `light` or
   * `dark` replaces the scheme (dark exactly when `dark` is reported); with
   * one, or when the platform reports nothing, the scheme stays.
   */
  function AfterSystemChange(initialTheme: Option<Scheme>, current: Scheme, reported: Theme.SystemScheme): (next: Scheme)
    ensures initialTheme.Some? ==> next == current
    ensures reported == Theme.SystemNull || reported == Theme.SystemUndefined ==> next == current
    ensures initialTheme.None? && reported == Theme.SystemDark ==> next == Dark
    ensures initialTheme.None? && reported == Theme.SystemLight ==> next == Light
  {
    if initialTheme.None? && (reported == Theme.SystemLight || reported == Theme.SystemDark) then
      if reported == Theme.SystemDark then Dark else Light
    else current
  }

  /** Two toggles from any scheme other than dark end at light; from dark they end at dark. */
  lemma ToggleTwice(s: Scheme)
    ensures Toggled(Toggled(s)) == (if s == Dark then Dark else Light)
    ensures Toggled(Toggled(Ancient)) == Light
  {
  }

  class ThemeNewState {
    var colorScheme: Scheme
    const initialTheme: Option<Scheme>

    /** The initial scheme is `initialTheme` when given, else `light`. */
    constructor (initial: Option<Scheme>)
      ensures initialTheme == initial
      ensures colorScheme == initial.GetOr(Light)
    {
      initialTheme := initial;
      colorScheme := initial.GetOr(Light);
    }

    function IsDark(): (b: bool)
      reads this
      ensures b <==> colorScheme == Dark
    {
      colorScheme == Dark
    }

    /** Never both hold; for `ancient` neither does. */
    function IsLight(): (b: bool)
      reads this
      ensures b ==> !IsDark()
      ensures colorScheme == Ancient ==> !b && !IsDark()
      ensures b <==> colorScheme == Light
    {
      colorScheme == Light
    }

    method ToggleTheme()
      modifies this
      ensures colorScheme == Toggled(old(colorScheme))
    {
      colorScheme := Toggled(colorScheme);
    }

    method SetTheme(scheme: Scheme)
      modifies this
      ensures colorScheme == scheme
    {
      colorScheme := scheme;
    }

    method OnSystemChange(reported: Theme.SystemScheme)
      modifies this
      ensures colorScheme == AfterSystemChange(initialTheme, old(colorScheme), reported)
    {
      if initialTheme.None? && (reported == Theme.SystemLight || reported == Theme.SystemDark) {
        colorScheme := if reported == Theme.SystemDark then Dark else Light;
      }
    }
  }
}
