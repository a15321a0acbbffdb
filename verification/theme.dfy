/**
 * The colour theme (src/contexts/ThemeContext.js): the theme the provider
 * starts with and what the toggle does. Storage is passed in: whether
 * `window.localStorage` exists, and what `getItem("theme")` returned (`None`
 * for `null`).
 */
module Theme {
  import opened Options

  const Dark := "dark"
  const Light := "light"

  /** A stored non-empty theme is used as it is, whatever it says; otherwise the theme is dark. */
  function InitialTheme(hasStorage: bool, stored: Option<string>): (r: string)
    ensures r != ""
    ensures hasStorage && stored.Some? && stored.value != "" ==> r == stored.value
    ensures !hasStorage || stored == None || stored == Some("") ==> r == Dark
  {
    if hasStorage && stored.Some? && stored.value != "" then stored.value else Dark
  }

  /** Dark becomes light; anything else, an unknown stored string included, becomes dark. The theme always changes. */
  function ToggleTheme(prev: string): (r: string)
    ensures r == Dark || r == Light
    ensures r == Light <==> prev == Dark
    ensures r != prev
  {
    if prev == Dark then Light else Dark
  }

  /** Toggling twice gets back to where a known theme started; an unknown one turns dark, then light. */
  lemma ToggleTwice(prev: string)
    ensures prev == Dark || prev == Light ==> ToggleTheme(ToggleTheme(prev)) == prev
    ensures prev != Dark && prev != Light ==> ToggleTheme(ToggleTheme(prev)) == Light
  {
    assert Dark != Light by { assert Dark[0] != Light[0]; }
  }
}
