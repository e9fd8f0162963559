/** Theme resolution, the light/dark toggle and the night-mode clock test
    (app/styles/theme/hooks.ts). Browser storage is a map from key to text; the system colour
    preference and the current hour are parameters. */
module ThemeHooks {
  import opened Util

  datatype Theme = Light | Dark

  /** The text stored under the `theme` key for each theme. */
  function ThemeName(t: Theme): string
  {
    match t
    case Light => "light"
    case Dark => "dark"
  }

  const ThemeKey: string := "theme"

  /** The stored preference, adopted only when it is exactly `dark` or `light`. */
  function StoredTheme(storage: map<string, string>): (r: Option<Theme>)
    ensures r.Some? <==> ThemeKey in storage && (storage[ThemeKey] == "dark" || storage[ThemeKey] == "light")
    ensures r.Some? ==> ThemeName(r.value) == storage[ThemeKey]
  {
    if ThemeKey !in storage then None
    else if storage[ThemeKey] == "dark" then Some(Dark)
    else if storage[ThemeKey] == "light" then Some(Light)
    else None
  }

  /** The theme after the mount effect has run on a hook whose theme is `current`. */
  function MountedTheme(storage: map<string, string>, prefersDark: bool, current: Theme): (t: Theme)
    ensures StoredTheme(storage).Some? ==> ThemeName(t) == storage[ThemeKey]
    ensures StoredTheme(storage).None? ==> (t == Dark <==> prefersDark || current == Dark)
  {
    match StoredTheme(storage)
    case Some(stored) => stored
    case None => if prefersDark then Dark else current
  }

  /** `theme === 'light' ? 'dark' : 'light'`. */
  function Toggled(t: Theme): (r: Theme)
    ensures r != t
  {
    if t == Light then Dark else Light
  }

  /** Toggling twice gives back the theme. */
  lemma ToggleTwice(t: Theme)
    ensures Toggled(Toggled(t)) == t
  {
  }

  /** What the toggle stores is what the next mount reads back, whatever the system prefers. */
  lemma ToggleIsReadBack(storage: map<string, string>, t: Theme, prefersDark: bool, current: Theme)
    ensures MountedTheme(storage[ThemeKey := ThemeName(Toggled(t))], prefersDark, current) == Toggled(t)
  {
  }

  /** On a fresh hook (theme `light`) with nothing valid stored, the theme ends up dark exactly
      when the system prefers dark. */
  lemma FreshMountFollowsSystem(storage: map<string, string>, prefersDark: bool)
    requires StoredTheme(storage).None?
    ensures MountedTheme(storage, prefersDark, Light) == (if prefersDark then Dark else Light)
  {
  }

  /** The state of `useTheme`: the theme and the browser storage it writes to. */
  class ThemeHook {
    var theme: Theme
    var storage: map<string, string>

    constructor (storage: map<string, string>)
      ensures theme == Light && this.storage == storage
    {
      theme := Light;
      this.storage := storage;
    }

    /** The mount effect: adopt a valid stored theme, else follow a dark system preference. */
    method Mount(prefersDark: bool)
      modifies this`theme
      ensures theme == MountedTheme(storage, prefersDark, old(theme))
    {
      if ThemeKey in storage && (storage[ThemeKey] == "dark" || storage[ThemeKey] == "light") {
        theme := if storage[ThemeKey] == "dark" then Dark else Light;
        return;
      }
      if prefersDark {
        theme := Dark;
      }
    }

    /** `toggleTheme`: flip the theme and store the new one under the `theme` key. */
    method ToggleTheme()
      modifies this
      ensures theme == Toggled(old(theme))
      ensures storage == old(storage)[ThemeKey := ThemeName(theme)]
    {
      var newTheme := if theme == Light then Dark else Light;
      theme := newTheme;
      storage := storage[ThemeKey := ThemeName(newTheme)];
    }
  }

  /** The test `useIsNightMode` applies to the current hour: from 5 PM until 8 AM. */
  predicate IsNightHour(hour: int)
  {
    hour >= 17 || hour < 8
  }

  /** On a clock hour, night mode is off exactly during the day window 8 AM to 4:59 PM. */
  lemma NightWindow(hour: int)
    requires 0 <= hour < 24
    ensures IsNightHour(hour) <==> !(8 <= hour <= 16)
    ensures IsNightHour(hour) <==> (17 <= hour <= 23 || 0 <= hour <= 7)
  {
  }
}

/** `getThemeClass` (app/styles/theme/index.ts). */
module ThemeIndex {
  import opened Util

  /** The base class, followed by the night-mode class when night mode is on and that class is
      given and non-empty. Absent optional arguments are `None`. */
  function GetThemeClass(baseClass: string, isNightMode: Option<bool>, nightModeClass: Option<string>): (r: string)
    ensures isNightMode != Some(true) ==> r == baseClass
    ensures nightModeClass == None || nightModeClass == Some("") ==> r == baseClass
    ensures isNightMode == Some(true) && nightModeClass.Some? && nightModeClass.value != "" ==>
              r == baseClass + " " + nightModeClass.value
    ensures |baseClass| <= |r| && r[..|baseClass|] == baseClass
    ensures |r| == |baseClass| || (nightModeClass.Some? && |r| == |baseClass| + 1 + |nightModeClass.value|)
  {
    if isNightMode != Some(true) || nightModeClass == None || nightModeClass == Some("") then baseClass
    else baseClass + " " + nightModeClass.value
  }
}
