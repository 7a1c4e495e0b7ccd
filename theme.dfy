/** The colour-theme preference. It is kept as the string the browser stores,
    because the stored value is read back verbatim. */
module Theme {
  import opened Wrappers

  const Dark: string := "dark"
  const Light: string := "light"

  /** The theme at start-up: the stored value, unless nothing (or the empty
      string) is stored, in which case dark. */
  function InitialTheme(stored: Option<string>): (t: string)
    ensures t != ""
    ensures stored.None? || stored == Some("") ==> t == Dark
    ensures stored.Some? && stored.value != "" ==> t == stored.value
  {
    if stored.Some? && stored.value != "" then stored.value else Dark
  }

  /** One press of the theme button: dark becomes light, anything else dark. */
  function Toggled(t: string): (r: string)
    ensures r == Dark || r == Light
    ensures r == Light <==> t == Dark
  {
    if t == Dark then Light else Dark
  }

  /** Toggling twice restores the theme exactly when the theme is one of the
      two the game writes; any other stored value becomes dark on the first
      press and light on the second. */
  lemma ToggleTwice(t: string)
    ensures Toggled(Toggled(t)) == t <==> t == Dark || t == Light
    ensures t != Dark && t != Light ==> Toggled(Toggled(t)) == Light
  {
  }
}
