/** The guardian question of the sign-up flow: yes, no, or nothing chosen yet. */
module Guardian {
  import opened Wrappers
  import opened Types

  const SelectOptionMessage := "Please select an option."

  /** `handleContinue()`; `selection` is the radio value, `None` while nothing is chosen. */
  function Continue(selection: Option<string>): (effects: seq<Effect>)
    ensures selection == Some("yes") ==>
              effects == [UpdateSignupData(map[HasGuardian := Flag(true)]), Navigate(GuardianInfo, None)]
    ensures selection == Some("no") ==>
              effects == [UpdateSignupData(map[HasGuardian := Flag(false)]), Navigate(Dashboard, None)]
    ensures selection != Some("yes") && selection != Some("no") ==> effects == [Alert(SelectOptionMessage)]
  {
    if selection == Some("yes") then
      [UpdateSignupData(map[HasGuardian := Flag(true)]), Navigate(GuardianInfo, None)]
    else if selection == Some("no") then
      [UpdateSignupData(map[HasGuardian := Flag(false)]), Navigate(Dashboard, None)]
    else
      [Alert(SelectOptionMessage)]
  }

  /** The Continue button is disabled until an option is chosen. */
  predicate ContinueDisabled(selection: Option<string>)
  {
    selection.None?
  }

  /**
   * Whenever the button is enabled with one of the two radio values, the
   * handler records the answer and then navigates, and never alerts; the
   * recorded flag is true exactly for "yes".
   */
  lemma EnabledContinueRecordsAnswer(selection: Option<string>)
    requires !ContinueDisabled(selection) && selection.value in {"yes", "no"}
    ensures var effects := Continue(selection);
            && |effects| == 2
            && effects[0].UpdateSignupData? && effects[1].Navigate?
            && (effects[0].fields[HasGuardian] == Flag(true) <==> selection.value == "yes")
  {
  }

  class GuardianScreen {
    var hasGuardian: Option<string>

    constructor ()
      ensures hasGuardian.None? && ContinueDisabled(hasGuardian)
    {
      hasGuardian := None;
    }

    /** Choosing a radio option. */
    method Select(value: string)
      modifies this
      ensures hasGuardian == Some(value) && !ContinueDisabled(hasGuardian)
    {
      hasGuardian := Some(value);
    }
  }
}
