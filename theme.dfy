/** components/ThemeProvider.tsx: the light / dark / system theme choice, restored from
    localStorage on mount and cycled by a toggle. */
module Theme {
  import opened Wrappers
  import Storage

  datatype ThemeMode = Light | Dark | System

  /** The stored spelling of a mode. */
  function ModeName(m: ThemeMode): string {
    match m
    case Light => "light"
    case Dark => "dark"
    case System => "system"
  }

  /** The validity test `saved === "light" || saved === "dark" || saved === "system"`. */
  function ParseMode(s: string): (m: Option<ThemeMode>)
    ensures m.Some? <==> s in {"light", "dark", "system"}
    ensures m.Some? ==> ModeName(m.value) == s
  {
    if s == "light" then Some(Light)
    else if s == "dark" then Some(Dark)
    else if s == "system" then Some(System)
    else None
  }

  lemma ModeNameRoundTrip(m: ThemeMode)
    ensures ParseMode(ModeName(m)) == Some(m)
  {
  }

  /** The toggle order: light, then dark, then system, then light again. */
  function Next(m: ThemeMode): (n: ThemeMode)
    ensures n != m
  {
    match m
    case Light => Dark
    case Dark => System
    case System => Light
  }

  /** Three toggles return to the starting mode, and every mode is reached. */
  lemma ToggleCycle(m: ThemeMode)
    ensures Next(Next(Next(m))) == m
    ensures Next(m) != Next(Next(m))
  {
  }

  /** `applyTheme`'s rule: whether the dark class is applied. */
  function ShouldUseDark(m: ThemeMode, prefersDark: bool): bool {
    m == Dark || (m == System && prefersDark)
  }

  /** The OS preference decides the theme in system mode and in no other mode. */
  lemma PreferenceMattersOnlyInSystemMode(m: ThemeMode)
    ensures ShouldUseDark(m, true) != ShouldUseDark(m, false) <==> m == System
    ensures m == Dark ==> ShouldUseDark(m, false)
    ensures m == Light ==> !ShouldUseDark(m, true)
  {
  }

  /** The stored mode chosen on mount: the `themeMode` entry if it is truthy, else the legacy
      `theme` entry; whichever was picked must name a mode, else "system". */
  function ResolveStoredMode(themeMode: Option<Storage.Value>, legacy: Option<Storage.Value>): ThemeMode {
    var saved := if Storage.Truthy(themeMode) then themeMode else legacy;
    if saved.Some? && saved.value.Text? && ParseMode(saved.value.text).Some? then ParseMode(saved.value.text).value
    else System
  }

  /** The `themeMode` key wins when it names a mode; the legacy key is read only when the
      `themeMode` key is absent or empty; a `themeMode` entry that is set but names no mode
      gives "system" even if the legacy key names one. */
  lemma ResolveStoredModePrecedence(themeMode: Option<Storage.Value>, legacy: Option<Storage.Value>, m: ThemeMode)
    ensures themeMode == Some(Storage.Text(ModeName(m))) ==> ResolveStoredMode(themeMode, legacy) == m
    ensures !Storage.Truthy(themeMode) && legacy == Some(Storage.Text(ModeName(m))) ==> ResolveStoredMode(themeMode, legacy) == m
    ensures Storage.Truthy(themeMode) && (!themeMode.value.Text? || ParseMode(themeMode.value.text).None?)
      ==> ResolveStoredMode(themeMode, legacy) == System
    ensures !Storage.Truthy(themeMode) && !Storage.Truthy(legacy) ==> ResolveStoredMode(themeMode, legacy) == System
  {
    ModeNameRoundTrip(m);
  }

  /** `themeLabel`. */
  function ThemeLabel(m: ThemeMode): string {
    if m == System then "System" else if m == Dark then "Dark" else "Light"
  }

  /** The label text is the stored name with its first letter capitalised. */
  lemma ThemeLabelCapitalises(m: ThemeMode)
    ensures var name := ModeName(m); var text := ThemeLabel(m);
      |text| == |name| > 0 && text[1..] == name[1..] && text[0] as int == name[0] as int - 32
  {
  }

  class ThemeProvider {
    var mode: ThemeMode
    var isDark: bool
    var mounted: bool

    /** The state before mount: system mode, light colours. */
    constructor()
      ensures mode == System && !isDark && !mounted
    {
      mode := System;
      isDark := false;
      mounted := false;
    }

    /** The mount effect: restore the stored mode and apply it. */
    method Mount(b: Storage.Browser, prefersDark: bool)
      modifies this
      ensures mounted
      ensures mode == ResolveStoredMode(Storage.Get(b.local, Storage.ThemeModeKey), Storage.Get(b.local, Storage.LegacyThemeKey))
      ensures isDark == ShouldUseDark(mode, prefersDark)
    {
      mounted := true;
      mode := ResolveStoredMode(Storage.Get(b.local, Storage.ThemeModeKey), Storage.Get(b.local, Storage.LegacyThemeKey));
      isDark := ShouldUseDark(mode, prefersDark);
    }

    /** The `prefers-color-scheme` change listener: acts only in system mode. */
    method OnPreferenceChange(prefersDark: bool)
      modifies this`isDark
      ensures isDark == if mode == System then prefersDark else old(isDark)
    {
      if mode == System {
        isDark := ShouldUseDark(System, prefersDark);
      }
    }

    /** `toggleTheme`: advance the mode, store it under both keys, apply it. */
    method Toggle(b: Storage.Browser, prefersDark: bool)
      modifies this`mode, this`isDark, b
      ensures mode == Next(old(mode))
      ensures b.local == old(b.local)[Storage.ThemeModeKey := Storage.Text(ModeName(mode))][Storage.LegacyThemeKey := Storage.Text(ModeName(mode))]
      ensures b.session == old(b.session)
      ensures isDark == ShouldUseDark(mode, prefersDark)
    {
      mode := Next(mode);
      b.local := b.local[Storage.ThemeModeKey := Storage.Text(ModeName(mode))][Storage.LegacyThemeKey := Storage.Text(ModeName(mode))];
      isDark := ShouldUseDark(mode, prefersDark);
    }
  }

  /** A toggled mode survives a reload: the next mount restores it. */
  method ToggleThenRemount(b: Storage.Browser, prefersDark: bool) returns (before: ThemeMode, after: ThemeMode)
    modifies b
    ensures after == Next(before)
  {
    var t := new ThemeProvider();
    t.Mount(b, prefersDark);
    before := t.mode;
    t.Toggle(b, prefersDark);
    var reloaded := new ThemeProvider();
    reloaded.Mount(b, prefersDark);
    ModeNameRoundTrip(t.mode);
    after := reloaded.mode;
  }
}
