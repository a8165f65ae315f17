/** The light/dark switch (components/theme-toggle.tsx). The theme value comes from
    the theming library and may be `'light'`, `'dark'`, `'system'` or `undefined`. */
module Theme {
  import opened Common

  /** The value the click handler passes to `setTheme`. */
  function Toggled(theme: Option<string>): (next: string)
    ensures next == "dark" <==> theme == Some("light")
    ensures next == "light" <==> theme != Some("light")
  {
    if theme == Some("light") then "dark" else "light"
  }

  /** Clicking twice from a light or dark theme comes back to it. */
  lemma ToggledTwice(theme: string)
    requires theme == "light" || theme == "dark"
    ensures Toggled(Some(Toggled(Some(theme)))) == theme
  {
  }

  datatype Icon = Moon | Sun

  /** What the button shows: the icon and the rotation of its wrapper, in degrees. */
  datatype View = View(icon: Icon, rotation: int)

  function ViewFor(theme: Option<string>): (v: View)
    ensures v.icon == Moon <==> theme == Some("light")
    ensures v.rotation == 0 <==> theme == Some("light")
    ensures v.rotation == 0 || v.rotation == 180
  {
    View(if theme == Some("light") then Moon else Sun, if theme == Some("light") then 0 else 180)
  }

  /** A click always changes the icon: from `'light'` the next theme shows the Sun, and
      from any other value, `'system'` and `undefined` included, it shows the Moon. */
  lemma ClickChangesIcon(theme: Option<string>)
    ensures ViewFor(Some(Toggled(theme))).icon != ViewFor(theme).icon
  {
  }

  /** `ThemeToggle`: `theme` stands for the theming library's current value. */
  class ThemeToggle {
    var mounted: bool
    var theme: Option<string>

    constructor (theme: Option<string>)
      ensures !mounted && this.theme == theme
    {
      mounted := false;
      this.theme := theme;
    }

    /** The mount effect. */
    method Mount()
      modifies this`mounted
      ensures mounted
    {
      mounted := true;
    }

    /** Nothing is rendered before the component has mounted. */
    function Render(): (v: Option<View>)
      reads this
      ensures v.None? <==> !mounted
      ensures v.Some? ==> (v.value.icon == Moon <==> theme == Some("light"))
    {
      if !mounted then None else Some(ViewFor(theme))
    }

    /** The button's click; it exists only once mounted. */
    method Click()
      modifies this`theme
      ensures mounted ==> theme == Some(Toggled(old(theme)))
      ensures !mounted ==> theme == old(theme)
    {
      if mounted {
        theme := Some(Toggled(theme));
      }
    }
  }
}
