/** The light/dark switch (src/components/contexts/ColorModeContext.tsx): a
    `mode` state, its toggle, and the theme chosen from it. */
module ColorMode {

  datatype Mode = Light | Dark

  /** The two prepared themes, named by the files they come from. */
  datatype Theme = LightTheme | DarkTheme

  /** `prev === "light" ? "dark" : "light"`. */
  function Flip(m: Mode): Mode {
    if m == Light then Dark else Light
  }

  /** `mode === "light" ? lightTheme : darkTheme`. */
  function ThemeFor(m: Mode): Theme {
    if m == Light then LightTheme else DarkTheme
  }

  /** Toggling always changes the mode, and toggling twice restores it. */
  lemma FlipInvolution(m: Mode)
    ensures Flip(m) != m
    ensures Flip(Flip(m)) == m
  {
  }

  /** Each mode has its own theme, and toggling switches the theme. */
  lemma ThemeFollowsMode(m: Mode)
    ensures ThemeFor(m) == LightTheme <==> m == Light
    ensures ThemeFor(Flip(m)) != ThemeFor(m)
  {
  }

  class ColorModeProvider {
    var mode: Mode

    constructor()
      ensures mode == Light && Theme() == LightTheme
    {
      mode := Light;
    }

    function Theme(): Theme
      reads this
    {
      ThemeFor(mode)
    }

    /** `toggleColorMode`. */
    method Toggle()
      modifies this
      ensures mode == Flip(old(mode))
      ensures Theme() != old(Theme())
    {
      mode := Flip(mode);
    }
  }

  /** Two toggles in a row leave mode and theme as they were. */
  method ToggleTwice(p: ColorModeProvider)
    modifies p
    ensures p.mode == old(p.mode) && p.Theme() == old(p.Theme())
  {
    p.Toggle();
    p.Toggle();
  }
}
