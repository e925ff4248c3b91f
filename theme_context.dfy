/**
 * Theme state (src/state/theme/ThemeContext.tsx): the chosen mode, the
 * mode it resolves to and the colour scheme that follows.  Reading the system
 * appearance, the storage read at start-up and the system-change listener
 * are calls into the platform; their results are parameters of the methods
 * that receive them.  Writing the chosen mode to storage is not modelled.
 */
module ThemeContext {
  import opened Wrappers

  /** The mode the user chooses. */
  datatype ThemeMode = Light | Dark | Auto
  /** The mode actually drawn. */
  datatype Resolved = ResolvedLight | ResolvedDark

  /** The colours of one scheme. */
  datatype Palette = Palette(
    background: string, surface: string, surfaceElevated: string, surfaceBorder: string,
    text: string, textPrimary: string, textSecondary: string, textTertiary: string,
    primary: string, primaryDark: string, accent: string,
    error: string, success: string, warning: string, info: string,
    overlay: string, divider: string, card: string)

  const DarkColors: Palette := Palette(
    "#020617", "#0f172a", "#1e293b", "#334155",
    "#ffffff", "#e2e8f0", "#94a3b8", "#64748b",
    "#818cf8", "#6366f1", "#4f46e5",
    "#f87171", "#10b981", "#f59e0b", "#3b82f6",
    "rgba(0, 0, 0, 0.6)", "#1e293b", "rgba(2, 6, 23, 0.92)")

  const LightColors: Palette := Palette(
    "#ffffff", "#f8fafc", "#f1f5f9", "#e2e8f0",
    "#0f172a", "#1e293b", "#475569", "#64748b",
    "#6366f1", "#4f46e5", "#818cf8",
    "#ef4444", "#10b981", "#f59e0b", "#3b82f6",
    "rgba(0, 0, 0, 0.4)", "#e2e8f0", "#ffffff")

  /** `colorSchemes[resolved]`. */
  function ColorSchemes(r: Resolved): (p: Palette)
    ensures r == ResolvedDark ==> p == DarkColors
    ensures r == ResolvedLight ==> p == LightColors
    ensures p == DarkColors <==> r == ResolvedDark
  {
    match r
    case ResolvedDark => DarkColors
    case ResolvedLight => LightColors
  }

  /** The system appearance as reported (`null` when unknown) mapped to a resolved mode. */
  function SystemTheme(scheme: Option<string>): (r: Resolved)
    ensures r == ResolvedDark <==> scheme == Some("dark")
  {
    if scheme == Some("dark") then ResolvedDark else ResolvedLight
  }

  /** The resolved mode: the system's under auto, the chosen one otherwise. */
  function ResolveMode(mode: ThemeMode, system: Resolved): (r: Resolved)
    ensures mode == Auto ==> r == system
    ensures mode == Light ==> r == ResolvedLight
    ensures mode == Dark ==> r == ResolvedDark
  {
    match mode
    case Auto => system
    case Light => ResolvedLight
    case Dark => ResolvedDark
  }

  /** The string a mode is stored as. */
  function ModeName(m: ThemeMode): string
  {
    match m
    case Light => "light"
    case Dark => "dark"
    case Auto => "auto"
  }

  /** A stored value is adopted only when it is exactly one of the three mode names. */
  function StoredMode(stored: Option<string>): (r: Option<ThemeMode>)
    ensures r.Some? <==> stored == Some("light") || stored == Some("dark") || stored == Some("auto")
    ensures r.Some? ==> stored == Some(ModeName(r.value))
  {
    if stored == Some("light") then Some(Light)
    else if stored == Some("dark") then Some(Dark)
    else if stored == Some("auto") then Some(Auto)
    else None
  }

  /** A mode that was stored is read back as the same mode. */
  lemma {:induction false} StoredModeRoundTrip(m: ThemeMode)
    ensures StoredMode(Some(ModeName(m))) == Some(m)
  {
    match m
    case Light =>
    case Dark =>
    case Auto =>
  }

  /** What the provider hands to its consumers. */
  datatype ThemeState = ThemeState(mode: ThemeMode, resolvedMode: Resolved, colors: Palette)

  class ThemeProvider {
    var mode: ThemeMode
    var systemTheme: Resolved
    var hydrated: bool

    /** Mounting the provider, given the system appearance reported at that moment. */
    constructor (scheme: Option<string>)
      ensures mode == Dark && !hydrated && systemTheme == SystemTheme(scheme)
    {
      mode := Dark;
      systemTheme := SystemTheme(scheme);
      hydrated := false;
    }

    /** Only under auto is a system-change listener subscribed. */
    function Subscribed(): bool
      reads this
    {
      mode == Auto
    }

    function ResolvedMode(): (r: Resolved)
      reads this
      ensures mode != Auto ==> (r == ResolvedDark <==> mode == Dark)
      ensures mode == Auto ==> r == systemTheme
    {
      ResolveMode(mode, systemTheme)
    }

    /** Until the stored mode has been read the provider renders nothing. */
    function Value(): (v: Option<ThemeState>)
      reads this
      ensures v.None? <==> !hydrated
      ensures v.Some? ==> v.value.mode == mode && v.value.resolvedMode == ResolvedMode()
      ensures v.Some? ==> v.value.colors == ColorSchemes(ResolvedMode())
    {
      if !hydrated then None
      else Some(ThemeState(mode, ResolvedMode(), ColorSchemes(ResolvedMode())))
    }

    /**
     * The start-up read finished with `stored` (`None` when nothing was
     * stored or the read failed): a valid mode name is adopted, anything
     * else leaves the mode as it was; either way the provider is hydrated.
     */
    method FinishLoading(stored: Option<string>)
      modifies this
      ensures hydrated && systemTheme == old(systemTheme)
      ensures mode == (if StoredMode(stored).Some? then StoredMode(stored).value else old(mode))
    {
      var m := StoredMode(stored);
      if m.Some? {
        mode := m.value;
      }
      hydrated := true;
    }

    /** `setTheme`: sets the mode and nothing else of the theme state. */
    method SetTheme(m: ThemeMode)
      modifies this
      ensures mode == m && systemTheme == old(systemTheme) && hydrated == old(hydrated)
    {
      mode := m;
    }

    /**
     * The system appearance changed.  Only a subscribed listener hears it, so
     * outside auto mode the remembered system theme stays as it was.
     */
    method SystemAppearanceChanged(scheme: Option<string>)
      modifies this
      ensures mode == old(mode) && hydrated == old(hydrated)
      ensures systemTheme == if old(Subscribed()) then SystemTheme(scheme) else old(systemTheme)
    {
      if Subscribed() {
        systemTheme := SystemTheme(scheme);
      }
    }
  }
}
