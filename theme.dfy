/**
 * `initThemeToggle` (js/script.js, repeated in script.js): the page starts
 * dark when the saved theme is "dark", or when no theme is saved and the
 * system prefers a dark scheme; the switch then sets and saves "dark" or
 * "light".
 */
module Theme {
  import opened JsValues

  /** `savedTheme === 'dark' || (!savedTheme && prefersDarkScheme)`. */
  predicate StartsDark(saved: Option<string>, prefersDark: bool) {
    saved == Some("dark") || (!Truthy(saved) && prefersDark)
  }

  /** A choice made with the switch wins over the system preference on the
      next load; without a saved choice the system preference decides; any
      other saved value means "not dark". */
  lemma SavedChoiceWins(checked: bool, prefersDark: bool, other: string)
    ensures StartsDark(Some(if checked then "dark" else "light"), prefersDark) == checked
    ensures StartsDark(None, prefersDark) == prefersDark
    ensures StartsDark(Some(""), prefersDark) == prefersDark
    ensures other != "" && other != "dark" ==> !StartsDark(Some(other), prefersDark)
  {
  }

  class ThemeToggle {
    /** localStorage "theme". */
    var storedTheme: Option<string>
    /** The `data-theme` attribute of the document element. */
    var dataTheme: Option<string>
    var switchChecked: bool
    const hasSwitch: bool

    constructor (storedTheme: Option<string>, hasSwitch: bool)
      ensures this.storedTheme == storedTheme && this.hasSwitch == hasSwitch
      ensures dataTheme == None && !switchChecked
    {
      this.storedTheme := storedTheme;
      this.hasSwitch := hasSwitch;
      dataTheme := None;
      switchChecked := false;
    }

    /** The load step: only the dark case touches the page. */
    method InitThemeToggle(prefersDark: bool)
      modifies this
      ensures storedTheme == old(storedTheme)
      ensures StartsDark(storedTheme, prefersDark) ==>
        dataTheme == Some("dark") && switchChecked == (hasSwitch || old(switchChecked))
      ensures !StartsDark(storedTheme, prefersDark) ==>
        dataTheme == old(dataTheme) && switchChecked == old(switchChecked)
    {
      var savedTheme := storedTheme;
      if savedTheme == Some("dark") || (!Truthy(savedTheme) && prefersDark) {
        dataTheme := Some("dark");
        if hasSwitch {
          switchChecked := true;
        }
      }
    }

    /** The switch's `change` listener, which exists only with the switch. */
    method OnSwitchChange(checked: bool)
      requires hasSwitch
      modifies this
      ensures switchChecked == checked
      ensures dataTheme == storedTheme == Some(if checked then "dark" else "light")
      ensures StartsDark(storedTheme, false) == StartsDark(storedTheme, true) == checked
    {
      switchChecked := checked;
      if checked {
        dataTheme := Some("dark");
        storedTheme := Some("dark");
      } else {
        dataTheme := Some("light");
        storedTheme := Some("light");
      }
    }
  }
}
