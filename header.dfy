/** The site header (components/layout/Header.tsx): a light-bulb button that
    toggles the colour theme and plays a click sound, and nothing rendered
    until the component has mounted. The theme store and the audio element
    are outside the model: the theme is a field that may be unset or hold any
    string, and the click sound is a count of plays started from the
    beginning. */
module SiteHeader {
  import opened Optional

  /** The light/dark choice of `handleThemeToggle`. */
  function ToggledTheme(theme: Option<string>): (r: string)
    ensures r == "light" || r == "dark"
    ensures r == "dark" <==> theme == Some("light")
  {
    if theme == Some("light") then "dark" else "light"
  }

  /** The part of the rendered header that depends on state: whether the
      bulb icon is shown lit. */
  datatype View = View(bulbLit: bool)

  /** What the component renders: nothing until mounted, then a header whose
      bulb is lit exactly when the theme is "light". */
  function Render(mounted: bool, theme: Option<string>): (v: Option<View>)
    ensures v.Some? <==> mounted
    ensures v.Some? ==> (v.value.bulbLit <==> theme == Some("light"))
  {
    if !mounted then None else Some(View(theme == Some("light")))
  }

  /** Toggling twice from "light" or from "dark" gives the original theme
      back. */
  lemma ToggleTwiceRestores(theme: string)
    requires theme == "light" || theme == "dark"
    ensures ToggledTheme(Some(ToggledTheme(Some(theme)))) == theme
  {
  }

  /** From any theme, including an unset one or "system", toggling alternates
      between "light" and "dark" from the first click on. */
  lemma ToggleAlternates(theme: Option<string>)
    ensures var first := ToggledTheme(theme);
      var second := ToggledTheme(Some(first));
      second != first && ToggledTheme(Some(second)) == first
  {
  }

  /** Once mounted, every toggle flips the bulb. */
  lemma ToggleFlipsBulb(theme: Option<string>)
    ensures Render(true, Some(ToggledTheme(theme))) == Some(View(!Render(true, theme).value.bulbLit))
  {
  }

  /** The component: `mounted` and the theme as fields; `clickSound` stands
      for the audio reference holding an element, `clickPlays` counts the
      click sounds started from the beginning. */
  class Header {
    var mounted: bool
    var theme: Option<string>
    var clickSound: bool
    var clickPlays: nat

    /** First render, with the theme the theme store reports. */
    constructor (theme: Option<string>)
      ensures !mounted && this.theme == theme && !clickSound && clickPlays == 0
    {
      mounted := false;
      this.theme := theme;
      clickSound := false;
      clickPlays := 0;
    }

    /** The mount effect: the flag is set, and in a browser the click sound
        is created. */
    method Mount(inBrowser: bool)
      modifies this
      ensures mounted
      ensures clickSound == (old(clickSound) || inBrowser)
      ensures theme == old(theme) && clickPlays == old(clickPlays)
    {
      mounted := true;
      if inBrowser {
        clickSound := true;
      }
    }

    /** `handleThemeToggle`: the click sound, when there is one, restarts
        from the beginning; the theme changes on every click, sound or no
        sound. */
    method ThemeToggle()
      modifies this
      ensures theme == Some(ToggledTheme(old(theme)))
      ensures clickPlays == old(clickPlays) + (if clickSound then 1 else 0)
      ensures mounted == old(mounted) && clickSound == old(clickSound)
    {
      if clickSound {
        clickPlays := clickPlays + 1;
      }
      theme := Some(ToggledTheme(theme));
    }
  }
}
