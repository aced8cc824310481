/**
 * The theme context of contexts/ThemeContext.tsx: the mode the user chose
 * (light, dark or follow the device), the theme that mode resolves to, and
 * the provider state that loads, sets and toggles the mode.
 *
 * The device colour scheme (`useColorScheme`) is a parameter: "light",
 * "dark", or None for null. Persistent storage is the `stored` field, and
 * whether a read or a write of it succeeds is a parameter of the operation.
 */
module Theme {
  import opened Wrappers

  datatype ThemeMode = Light | Dark | System

  /** The theme actually drawn: never "system". */
  datatype ResolvedTheme = LightTheme | DarkTheme

  const THEME_STORAGE_KEY: string := "@windsor_theme_mode"

  /** The string a mode is stored as. */
  function ModeName(m: ThemeMode): string {
    match m
    case Light => "light"
    case Dark => "dark"
    case System => "system"
  }

  /** A saved value is adopted only when it is exactly one of the three mode
      names; every other string, the empty one included, is refused. */
  function ParseMode(saved: string): (r: Option<ThemeMode>)
    ensures r.Some? <==> (saved == "light" || saved == "dark" || saved == "system")
    ensures r.Some? ==> ModeName(r.value) == saved
  {
    if saved == "light" then Some(Light)
    else if saved == "dark" then Some(Dark)
    else if saved == "system" then Some(System)
    else None
  }

  /** Saving a mode and parsing it back gives the same mode. */
  lemma ModeNameRoundTrip(m: ThemeMode)
    ensures ParseMode(ModeName(m)) == Some(m)
  {
  }

  /** An explicit mode is used as it is; "system" follows the device, and is
      dark only when the device reports exactly "dark" (null reads as light). */
  function Resolve(mode: ThemeMode, deviceScheme: Option<string>): (r: ResolvedTheme)
    ensures mode == Light ==> r == LightTheme
    ensures mode == Dark ==> r == DarkTheme
    ensures mode == System ==> (r == DarkTheme <==> deviceScheme == Some("dark"))
  {
    if mode == System then
      (if deviceScheme == Some("dark") then DarkTheme else LightTheme)
    else if mode == Dark then DarkTheme
    else LightTheme
  }

  /** `isDark`: the resolved theme is dark. */
  predicate IsDark(mode: ThemeMode, deviceScheme: Option<string>): (dark: bool)
    ensures dark <==> mode == Dark || (mode == System && deviceScheme == Some("dark"))
  {
    Resolve(mode, deviceScheme) == DarkTheme
  }

  /** `useThemeValue`: picks the dark value exactly when the theme is dark. */
  function ThemeValue<T>(isDark: bool, lightValue: T, darkValue: T): (r: T)
    ensures isDark ==> r == darkValue
    ensures !isDark ==> r == lightValue
  {
    if isDark then darkValue else lightValue
  }

  /** A themed value follows every toggle: whenever the light and dark
      values differ, the value drawn after a toggle is the other one. */
  lemma ThemeValueFollowsToggle<T>(mode: ThemeMode, deviceScheme: Option<string>, lightValue: T, darkValue: T)
    requires lightValue != darkValue
    ensures var before := ThemeValue(IsDark(mode, deviceScheme), lightValue, darkValue);
      var after := ThemeValue(IsDark(Toggled(mode, deviceScheme), deviceScheme), lightValue, darkValue);
      after != before && (after == lightValue || after == darkValue)
  {
    ToggleFlips(mode, deviceScheme);
  }

  /** The mode `toggleTheme` asks for: the explicit opposite of what is drawn now. */
  function Toggled(mode: ThemeMode, deviceScheme: Option<string>): (r: ThemeMode)
    ensures r != System
  {
    if IsDark(mode, deviceScheme) then Light else Dark
  }

  /** Every toggle flips the theme that is drawn. */
  lemma ToggleFlips(mode: ThemeMode, deviceScheme: Option<string>)
    ensures Resolve(Toggled(mode, deviceScheme), deviceScheme) != Resolve(mode, deviceScheme)
  {
  }

  /** Two toggles draw the original theme again, and give back the original
      mode itself unless that mode was "system". */
  lemma ToggleTwiceRestores(mode: ThemeMode, deviceScheme: Option<string>)
    ensures var twice := Toggled(Toggled(mode, deviceScheme), deviceScheme);
      Resolve(twice, deviceScheme) == Resolve(mode, deviceScheme)
      && (mode != System ==> twice == mode)
      && (mode == System ==> twice == (if deviceScheme == Some("dark") then Dark else Light))
  {
  }

  class ThemeProvider {
    var themeMode: ThemeMode
    var isLoaded: bool
    /** The value under THEME_STORAGE_KEY in persistent storage. */
    var stored: Option<string>

    /** The provider starts in "system" mode, not yet loaded. */
    constructor (saved: Option<string>)
      ensures themeMode == System && !isLoaded && stored == saved
    {
      themeMode := System;
      isLoaded := false;
      stored := saved;
    }

    function Resolved(deviceScheme: Option<string>): ResolvedTheme
      reads this
    {
      Resolve(themeMode, deviceScheme)
    }

    /** The load effect: a saved value that names a mode is adopted; a missing,
        unknown or unreadable one leaves the mode as it was. Either way the
        provider is loaded afterwards. */
    method LoadTheme(readOk: bool)
      modifies this
      ensures isLoaded && stored == old(stored)
      ensures themeMode ==
        (if readOk && old(stored).Some? && ParseMode(old(stored).value).Some?
         then ParseMode(old(stored).value).value
         else old(themeMode))
    {
      if readOk && stored.Some? && stored.value != "" {
        var parsed := ParseMode(stored.value);
        if parsed.Some? {
          themeMode := parsed.value;
        }
      }
      isLoaded := true;
    }

    /** The mode changes at once; the write may fail and is then only logged. */
    method SetThemeMode(mode: ThemeMode, saveOk: bool)
      modifies this
      ensures themeMode == mode && isLoaded == old(isLoaded)
      ensures stored == if saveOk then Some(ModeName(mode)) else old(stored)
    {
      themeMode := mode;
      if saveOk {
        stored := Some(ModeName(mode));
      }
    }

    /** Switches to the explicit opposite of the theme drawn now. */
    method ToggleTheme(deviceScheme: Option<string>, saveOk: bool)
      modifies this
      ensures themeMode == Toggled(old(themeMode), deviceScheme) && themeMode != System
      ensures Resolved(deviceScheme) != old(Resolved(deviceScheme))
      ensures isLoaded == old(isLoaded)
      ensures stored == if saveOk then Some(ModeName(themeMode)) else old(stored)
    {
      var newMode := if IsDark(themeMode, deviceScheme) then Light else Dark;
      ToggleFlips(themeMode, deviceScheme);
      SetThemeMode(newMode, saveOk);
    }
  }
}
