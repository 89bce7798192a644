/** The app-wide theme: the stored preference loaded at start-up, a
    persisted `setTheme`, the toggle, and the colours and dark flag derived
    from the theme. The stored preference is taken without checking, so the
    theme is any string here, as it is at run time. */
module Theme {
  import opened Common

  datatype Palette = Palette(
    background: string, foreground: string,
    card: string, cardForeground: string,
    popover: string, popoverForeground: string,
    primary: string, primaryForeground: string,
    secondary: string, secondaryForeground: string,
    muted: string, mutedForeground: string,
    accent: string, accentForeground: string,
    destructive: string, border: string, input: string, ring: string)

  const LightColors := Palette(
    "#FFFFFF", "#191919", "#FFFFFF", "#191919", "#FFFFFF", "#191919",
    "#3b82f6", "#FFFFFF", "#F7F7F7", "#242424", "#F7F7F7", "#757575",
    "#F7F7F7", "#242424", "#E54D2E", "#EBEBEB", "#EBEBEB", "#B4B4B4")

  const DarkColors := Palette(
    "#191919", "#FBFBFB", "#242424", "#FBFBFB", "#333333", "#FBFBFB",
    "#60a5fa", "#FFFFFF", "#333333", "#FBFBFB", "#333333", "#B4B4B4",
    "#454545", "#FBFBFB", "#FFA09E", "rgba(255, 255, 255, 0.1)", "rgba(255, 255, 255, 0.15)", "#757575")

  /** The theme before the stored preference is read: the system scheme. */
  function InitialTheme(systemScheme: Option<string>): (t: string)
    ensures t == "dark" <==> systemScheme == Some("dark")
    ensures t != "dark" ==> t == "light"
  {
    if systemScheme == Some("dark") then "dark" else "light"
  }

  /** `theme === 'light' ? 'dark' : 'light'`: always one of the two themes,
      and never the one it starts from. */
  function ToggleTarget(theme: string): (target: string)
    ensures target in ["light", "dark"] && target != theme
  {
    if theme == "light" then "dark" else "light"
  }

  /** Toggling twice returns to the start exactly when the start was one of
      the two themes. */
  lemma ToggleTwice(theme: string)
    ensures ToggleTarget(ToggleTarget(theme)) == theme <==> theme in ["light", "dark"]
  {
  }

  /** `theme === 'light' ? lightColors : darkColors`: the light palette
      exactly for 'light', the dark one for every other string. */
  function ColorsFor(theme: string): (colors: Palette)
    ensures colors == LightColors <==> theme == "light"
    ensures theme != "light" ==> colors == DarkColors
  {
    assert LightColors.background != DarkColors.background;
    if theme == "light" then LightColors else DarkColors
  }

  /** `theme === 'dark'`: whenever it holds the colours are the dark ones;
      any other stored string also gets the dark palette while `isDark` stays
      false. */
  function IsDark(theme: string): (dark: bool)
    ensures dark ==> ColorsFor(theme) == DarkColors
    ensures theme !in ["light", "dark"] ==> !dark && ColorsFor(theme) == DarkColors
  {
    theme == "dark"
  }

  /** What `useTheme` hands out. */
  datatype ThemeContextValue = ThemeContextValue(theme: string, colors: Palette, isDark: bool)

  const OutsideProvider := "useTheme must be used within a ThemeProvider"

  /** `useTheme`: an error outside a provider. */
  function UseTheme(context: Option<ThemeContextValue>): (r: Outcome<ThemeContextValue>)
    ensures r.Fail? <==> context.None?
    ensures r.Fail? ==> r.message == OutsideProvider
    ensures r.Ok? ==> r.value == context.value
  {
    if context.None? then Fail(OutsideProvider) else Ok(context.value)
  }

  class ThemeProvider {
    var theme: string
    var isLoading: bool
    /** The scheme last handed to the styling library's `setColorScheme`. */
    var appliedScheme: Option<string>

    constructor (systemScheme: Option<string>)
      ensures theme == InitialTheme(systemScheme) && isLoading && appliedScheme.None?
    {
      theme := InitialTheme(systemScheme);
      isLoading := true;
      appliedScheme := None;
    }

    /** The provider renders nothing while loading; afterwards it provides
        the theme with its derived colours and flag. */
    function Provided(): (v: Option<ThemeContextValue>)
      reads this
      ensures v.None? <==> isLoading
      ensures v.Some? ==> v.value == ThemeContextValue(theme, ColorsFor(theme), IsDark(theme))
    {
      if isLoading then None else Some(ThemeContextValue(theme, ColorsFor(theme), IsDark(theme)))
    }

    /** `loadSavedTheme`: a stored value (any string) replaces the theme; a
        missing one or a failed read keeps it. Loading ends either way. */
    method LoadSaved(read: Outcome<Option<string>>)
      modifies this
      ensures theme == (if read.Ok? && read.value.Some? then read.value.value else old(theme))
      ensures !isLoading && appliedScheme == old(appliedScheme)
    {
      if read.Ok? && read.value.Some? {
        theme := read.value.value;
      }
      isLoading := false;
    }

    /** `setTheme`: the state changes only once the preference is stored. */
    method SetTheme(newTheme: string, persisted: Outcome<()>)
      modifies this
      ensures persisted.Ok? ==> theme == newTheme && appliedScheme == Some(newTheme)
      ensures persisted.Fail? ==> theme == old(theme) && appliedScheme == old(appliedScheme)
      ensures isLoading == old(isLoading)
    {
      if persisted.Ok? {
        appliedScheme := Some(newTheme);
        theme := newTheme;
      }
    }

    /** `toggleTheme`. */
    method Toggle(persisted: Outcome<()>)
      modifies this
      ensures persisted.Ok? ==> theme == ToggleTarget(old(theme)) && appliedScheme == Some(theme)
      ensures persisted.Fail? ==> theme == old(theme) && appliedScheme == old(appliedScheme)
      ensures isLoading == old(isLoading)
    {
      var newTheme := if theme == "light" then "dark" else "light";
      SetTheme(newTheme, persisted);
    }
  }
}
