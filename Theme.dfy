/**
 * The theme state of src/theme/ThemeProvider.tsx: the stored preference
 * (`auto`, `light` or `dark`), the scheme the system reports, and the list of
 * custom themes, together with the derived scheme and theme name; and the
 * `getSize`/`getColumns` helpers of `useResponsive`.
 *
 * Persistence is not modelled: what storage held at start-up is a constructor
 * argument, and the writes back are left out. The two built-in palettes of
 * the colour table are constructor arguments too.
 */
module Theme {
  import opened Common

  // ---------------------------------------------------------------------------
  // Values

  datatype ColorScheme = Light | Dark

  /** The user's preference: follow the system, or a fixed scheme. */
  datatype Preference = Auto | Fixed(scheme: ColorScheme)

  /** What the platform reports; React Native may report `null` or nothing. */
  datatype SystemScheme = SystemLight | SystemDark | SystemNull | SystemUndefined

  /**
   * A colour palette as `JSON.stringify` sees it: its entries in key order.
   * Two palettes are the same theme exactly when these lists are equal.
   */
  type Palette = seq<(string, string)>

  datatype CustomTheme = CustomTheme(name: string, colors: Palette)

  /** How a system scheme is interpolated into a string. */
  function SystemSchemeText(s: SystemScheme): string {
    match s
    case SystemLight => "light"
    case SystemDark => "dark"
    case SystemNull => "null"
    case SystemUndefined => "undefined"
  }

  // ---------------------------------------------------------------------------
  // Derived values

  /** `getCurrentColorScheme`: `auto` follows the system, dark only when it says `dark`. */
  function ResolveScheme(preference: Preference, system: SystemScheme): (c: ColorScheme)
    ensures preference.Auto? ==> (c == Dark <==> system == SystemDark)
    ensures preference.Fixed? ==> c == preference.scheme
  {
    match preference
    case Auto => if system == SystemDark then Dark else Light
    case Fixed(scheme) => scheme
  }

  /** The first custom theme whose palette is `palette` (`customThemes.find`). */
  function FindByPalette(themes: seq<CustomTheme>, palette: Palette): (r: Option<CustomTheme>)
    ensures r.None? <==> forall i :: 0 <= i < |themes| ==> themes[i].colors != palette
    ensures r.Some? ==> r.value in themes && r.value.colors == palette
  {
    if themes == [] then None
    else if themes[0].colors == palette then Some(themes[0])
    else FindByPalette(themes[1..], palette)
  }

  /** `find` returns the earliest match: the theme at the first index with the palette. */
  lemma {:induction false} FindByPaletteFirst(themes: seq<CustomTheme>, palette: Palette, i: nat)
    requires i < |themes| && themes[i].colors == palette
    requires forall j :: 0 <= j < i ==> themes[j].colors != palette
    ensures FindByPalette(themes, palette) == Some(themes[i])
  {
    if i > 0 {
      FindByPaletteFirst(themes[1..], palette, i - 1);
    }
  }

  /**
   * `getCurrentThemeName`: `System (<system>)` under `auto`; otherwise the first
   * custom theme with the active palette, or `Dark`/`Light`.
   */
  function ThemeName(preference: Preference, system: SystemScheme, themes: seq<CustomTheme>, active: Palette): (name: string)
    ensures preference.Auto? ==> name == "System (" + SystemSchemeText(system) + ")"
    ensures preference.Fixed? && FindByPalette(themes, active).Some? ==> name == FindByPalette(themes, active).value.name
    ensures preference.Fixed? && FindByPalette(themes, active).None? ==>
              name == (if preference.scheme == Dark then "Dark" else "Light")
  {
    if preference.Auto? then "System (" + SystemSchemeText(system) + ")"
    else match FindByPalette(themes, active)
      case Some(t) => t.name
      case None => if ResolveScheme(preference, system) == Dark then "Dark" else "Light"
  }

  // ---------------------------------------------------------------------------
  // Custom theme lists

  predicate UniqueNames(themes: seq<CustomTheme>) {
    forall i, j :: 0 <= i < j < |themes| ==> themes[i].name != themes[j].name
  }

  /** The themes not named `name`, in their order (`filter(t => t.name !== name)`). */
  function WithoutNamed(themes: seq<CustomTheme>, name: string): (r: seq<CustomTheme>)
    ensures forall i :: 0 <= i < |r| ==> r[i].name != name && r[i] in themes
    ensures forall i :: 0 <= i < |themes| && themes[i].name != name ==> themes[i] in r
  {
    Filter(themes, (t: CustomTheme) => t.name != name)
  }

  /** The list `addCustomTheme(t)` stores: any theme of the same name dropped, `t` appended. */
  function WithCustomTheme(themes: seq<CustomTheme>, t: CustomTheme): (r: seq<CustomTheme>)
    ensures |r| > 0 && r[|r| - 1] == t
    ensures forall i :: 0 <= i < |r| - 1 ==> r[i].name != t.name && r[i] in themes
    ensures forall i :: 0 <= i < |themes| && themes[i].name != t.name ==> themes[i] in r
  {
    WithoutNamed(themes, t.name) + [t]
  }

  /** Removing keeps the survivors in order: it distributes over concatenation. */
  lemma WithoutNamedAppend(a: seq<CustomTheme>, b: seq<CustomTheme>, name: string)
    ensures WithoutNamed(a + b, name) == WithoutNamed(a, name) + WithoutNamed(b, name)
  {
    FilterAppend(a, b, (t: CustomTheme) => t.name != name);
  }

  /** Removing a name no theme has changes nothing. */
  lemma {:induction false} WithoutAbsentName(themes: seq<CustomTheme>, name: string)
    requires forall i :: 0 <= i < |themes| ==> themes[i].name != name
    ensures WithoutNamed(themes, name) == themes
  {
    if themes != [] {
      WithoutAbsentName(themes[1..], name);
      assert themes == [themes[0]] + themes[1..];
    }
  }

  /** Removing keeps names unique. */
  lemma {:induction false} WithoutNamedUnique(themes: seq<CustomTheme>, name: string)
    requires UniqueNames(themes)
    ensures UniqueNames(WithoutNamed(themes, name))
  {
    if themes != [] {
      var rest := WithoutNamed(themes[1..], name);
      assert UniqueNames(themes[1..]) by {
        assert forall i :: 0 <= i < |themes[1..]| ==> themes[1..][i] == themes[i + 1];
      }
      WithoutNamedUnique(themes[1..], name);
      assert forall k :: 0 <= k < |rest| ==> rest[k].name != themes[0].name by {
        forall k | 0 <= k < |rest|
          ensures rest[k].name != themes[0].name
        {
          var m :| 0 <= m < |themes[1..]| && themes[1..][m] == rest[k];
          assert themes[m + 1] == rest[k];
        }
      }
      assert WithoutNamed(themes, name) == (if themes[0].name != name then [themes[0]] else []) + rest;
    }
  }

  /** Adding keeps names unique, and the added theme is the only one with its name. */
  lemma AddKeepsNamesUnique(themes: seq<CustomTheme>, t: CustomTheme)
    requires UniqueNames(themes)
    ensures UniqueNames(WithCustomTheme(themes, t))
  {
    WithoutNamedUnique(themes, t.name);
  }

  // ---------------------------------------------------------------------------
  // The provider's state

  class ThemeState {
    var preference: Preference
    var system: SystemScheme
    var customThemes: seq<CustomTheme>
    /** The colour table's palettes. */
    const lightColors: Palette
    const darkColors: Palette

    /**
     * The provider's initial state: the stored preference when there is one
     * (an absent or empty stored value falls back to `initialTheme`, itself
     * `auto` by default), the platform's current scheme, and the stored custom
     * themes.
     */
    constructor (initialTheme: Option<Preference>, stored: Option<Preference>, platform: SystemScheme,
                 storedThemes: seq<CustomTheme>, light: Palette, dark: Palette)
      ensures preference == stored.GetOr(initialTheme.GetOr(Auto))
      ensures system == platform && customThemes == storedThemes
      ensures lightColors == light && darkColors == dark
    {
      preference := stored.GetOr(initialTheme.GetOr(Auto));
      system := platform;
      customThemes := storedThemes;
      lightColors := light;
      darkColors := dark;
    }

    function ColorSchemeNow(): ColorScheme
      reads this
    {
      ResolveScheme(preference, system)
    }

    /** `colors`: the palette of the active scheme. */
    function Colors(): (p: Palette)
      reads this
      ensures ColorSchemeNow() == Dark ==> p == darkColors
      ensures ColorSchemeNow() == Light ==> p == lightColors
    {
      if ColorSchemeNow() == Dark then darkColors else lightColors
    }

    function IsDark(): (b: bool)
      reads this
      ensures b <==> ColorSchemeNow() == Dark
    {
      ColorSchemeNow() == Dark
    }

    function IsLight(): (b: bool)
      reads this
      ensures b <==> !IsDark()
    {
      ColorSchemeNow() == Light
    }

    function IsSystemTheme(): (b: bool)
      reads this
      ensures b <==> preference == Auto
    {
      preference == Auto
    }

    function CurrentThemeName(): (name: string)
      reads this
      ensures preference.Auto? ==> name == "System (" + SystemSchemeText(system) + ")"
      ensures preference.Fixed? && FindByPalette(customThemes, Colors()).Some? ==>
                name == FindByPalette(customThemes, Colors()).value.name
      ensures preference.Fixed? && FindByPalette(customThemes, Colors()).None? ==>
                name == (if preference.scheme == Dark then "Dark" else "Light")
    {
      ThemeName(preference, system, customThemes, Colors())
    }

    /** The appearance listener: the platform reports a new scheme. */
    method OnSystemChange(reported: SystemScheme)
      modifies this
      ensures system == reported
      ensures preference == old(preference) && customThemes == old(customThemes)
    {
      system := reported;
    }

    /** `setTheme(scheme)`. */
    method SetTheme(scheme: Preference)
      modifies this
      ensures preference == scheme
      ensures system == old(system) && customThemes == old(customThemes)
    {
      preference := scheme;
    }

    /** `toggleTheme`: fixes the scheme opposite to the one now shown. */
    method ToggleTheme()
      modifies this
      ensures preference == Fixed(if old(IsDark()) then Light else Dark)
      ensures !IsSystemTheme() && IsDark() == !old(IsDark())
      ensures system == old(system) && customThemes == old(customThemes)
    {
      var newTheme := if IsDark() then Light else Dark;
      SetTheme(Fixed(newTheme));
    }

    /** `addCustomTheme(theme)`. */
    method AddCustomTheme(theme: CustomTheme)
      modifies this
      ensures customThemes == WithCustomTheme(old(customThemes), theme)
      ensures preference == old(preference) && system == old(system)
    {
      customThemes := WithCustomTheme(customThemes, theme);
    }

    /** `removeCustomTheme(name)`. */
    method RemoveCustomTheme(name: string)
      modifies this
      ensures customThemes == WithoutNamed(old(customThemes), name)
      ensures preference == old(preference) && system == old(system)
    {
      customThemes := WithoutNamed(customThemes, name);
    }

    /**
     * `setCustomTheme(name)`: applying a custom theme is not implemented; the
     * call only warns, when a theme of that name exists, and changes nothing.
     */
    method SetCustomTheme(name: string) returns (warned: bool)
      ensures warned <==> exists i :: 0 <= i < |customThemes| && customThemes[i].name == name
    {
      warned := false;
      var i := 0;
      while i < |customThemes|
        invariant 0 <= i <= |customThemes|
        invariant !warned ==> forall j :: 0 <= j < i ==> customThemes[j].name != name
        invariant warned ==> exists j :: 0 <= j < |customThemes| && customThemes[j].name == name
      {
        if customThemes[i].name == name {
          warned := true;
        }
        i := i + 1;
      }
    }
  }

  // ---------------------------------------------------------------------------
  // Responsive helpers (device classification is an input)

  datatype DeviceInfo = DeviceInfo(isSmallPhone: bool, isTablet: bool)

  /** `getSize(small, medium, large)`: the small-phone test is made first; the values are only selected. */
  function Size<T>(device: DeviceInfo, small: T, medium: T, large: T): (r: T)
    ensures device.isSmallPhone ==> r == small
    ensures !device.isSmallPhone && device.isTablet ==> r == large
    ensures !device.isSmallPhone && !device.isTablet ==> r == medium
  {
    if device.isSmallPhone then small else if device.isTablet then large else medium
  }

  /**
   * `getColumns(defaultCols, overrides)`: the small and large counts default to
   * n-2 (at least 1) and n+2 (at most 12). JavaScript numbers are taken as reals.
   */
  function Columns(device: DeviceInfo, defaultCols: real, small: Option<real>, large: Option<real>): (cols: real)
    ensures cols == Size(device, small.GetOr(if defaultCols - 2.0 > 1.0 then defaultCols - 2.0 else 1.0), defaultCols,
                         large.GetOr(if defaultCols + 2.0 < 12.0 then defaultCols + 2.0 else 12.0))
  {
    var smallCols := small.GetOr(if defaultCols - 2.0 > 1.0 then defaultCols - 2.0 else 1.0);
    var largeCols := large.GetOr(if defaultCols + 2.0 < 12.0 then defaultCols + 2.0 else 12.0);
    if device.isSmallPhone then smallCols
    else if device.isTablet then largeCols
    else defaultCols
  }

  /** Without overrides the count stays within 1..12 on small phones and tablets, and within two of the default. */
  lemma ColumnsDefaultBounds(device: DeviceInfo, n: real)
    ensures device.isSmallPhone ==> 1.0 <= Columns(device, n, None, None) && Columns(device, n, None, None) >= n - 2.0
    ensures device.isSmallPhone && n >= 3.0 ==> Columns(device, n, None, None) == n - 2.0
    ensures !device.isSmallPhone && device.isTablet ==> Columns(device, n, None, None) <= 12.0 && Columns(device, n, None, None) <= n + 2.0
    ensures !device.isSmallPhone && device.isTablet && n <= 10.0 ==> Columns(device, n, None, None) == n + 2.0
  {
  }
}
