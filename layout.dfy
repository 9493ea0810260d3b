/** The page frame (`Layout`): the colour theme, read from and written back to local storage. */
module LayoutModel {
  import opened Common
  import NavbarModel

  /** `prev === 'dark' ? 'light' : 'dark'` */
  function Toggle(theme: string): (r: string)
    ensures r == "dark" || r == "light"
    ensures r == "light" <==> theme == "dark"
  {
    if theme == "dark" then "light" else "dark"
  }

  /** Toggling twice restores either theme; any other stored value becomes "light". */
  lemma ToggleTwice(theme: string)
    ensures theme == "dark" || theme == "light" ==> Toggle(Toggle(theme)) == theme
    ensures theme != "dark" && theme != "light" ==> Toggle(Toggle(theme)) == "light"
  {
  }

  /** Every toggle flips the icon of the theme button. */
  lemma ToggleFlipsIcon(theme: string)
    ensures NavbarModel.ThemeIcon(Toggle(theme)) != NavbarModel.ThemeIcon(theme)
  {
  }

  /** The dark overlay: `theme === 'dark' ? 'bg-black/60' : 'bg-white/5'`. */
  predicate DarkOverlay(theme: string)
  {
    theme == "dark"
  }

  class ThemeState {
    /** The `theme` state. */
    var theme: string
    /** `localStorage['theme']`. */
    var stored: Option<string>

    /** The effect keeps local storage equal to the theme after every render. */
    predicate Persisted()
      reads this
    {
      stored == Some(theme)
    }

    /** `useState(localStorage.getItem('theme') || 'dark')`, then the effect writes it back. */
    constructor (stored0: Option<string>)
      ensures theme == OrElse(stored0, "dark")
      ensures stored0.None? || stored0 == Some("") ==> theme == "dark"
      ensures Persisted()
    {
      theme := OrElse(stored0, "dark");
      stored := Some(OrElse(stored0, "dark"));
    }

    /** `toggleTheme`, then the effect stores the new theme. */
    method ToggleTheme()
      modifies this
      ensures theme == Toggle(old(theme))
      ensures theme == "dark" || theme == "light"
      ensures Persisted()
      ensures DarkOverlay(theme) != DarkOverlay(old(theme))
    {
      theme := Toggle(theme);
      stored := Some(theme);
    }
  }
}
