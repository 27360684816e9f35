/** The light/dark preference. */
module Theme {
  import opened Wrappers

  /** Whether `applyTheme(theme)` turns light mode on (and the switch on). */
  predicate IsLight(theme: string) {
    theme == "light"
  }

  /** The mode the switch's `change` handler stores: `checked ? 'light' : 'dark'`. */
  function ModeOfSwitch(checked: bool): (mode: string)
    ensures IsLight(mode) == checked
    ensures mode == "light" || mode == "dark"
  {
    if checked then "light" else "dark"
  }

  /** The theme applied at load: the stored value, or "dark" when it is absent or empty. */
  function SavedTheme(stored: Option<string>): (theme: string)
    ensures theme != ""
    ensures stored.Some? && stored.value != "" ==> theme == stored.value
    ensures stored.None? || stored.value == "" ==> theme == "dark" && !IsLight(theme)
  {
    if stored.Some? && stored.value != "" then stored.value else "dark"
  }

  /** A mode stored by the switch is applied unchanged on the next page load. */
  lemma SwitchSurvivesReload(checked: bool)
    ensures SavedTheme(Some(ModeOfSwitch(checked))) == ModeOfSwitch(checked)
    ensures IsLight(SavedTheme(Some(ModeOfSwitch(checked)))) == checked
  {
  }
}
