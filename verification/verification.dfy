/**
 * The phone-verification screen: four one-character cells and a verify
 * handler that accepts only a complete code.
 */
module Verification {
  import opened Wrappers
  import opened Types
  import Text

  const CodeLength: nat := 4
  const IncompleteCodeMessage := "Please enter the full 4-digit code."

  /** `value.slice(-1)`: the last character, or "" for an empty input. */
  function LastChar(value: string): (r: string)
    ensures |r| <= 1
    ensures r == "" <==> value == ""
    ensures r != "" ==> r[0] == value[|value| - 1]
  {
    if value == "" then "" else value[|value| - 1..]
  }

  /** Every cell holds at most one character. */
  predicate SingleCharCells(code: seq<string>)
  {
    forall i :: 0 <= i < |code| ==> |code[i]| <= 1
  }

  /** `handleVerify()`: goes on to the insurance screen only with a four-character code. */
  function Verify(code: seq<string>): (effects: seq<Effect>)
    ensures |effects| == 1
    ensures effects[0].Navigate? <==> |Text.Join(code)| == CodeLength
    ensures effects[0].Navigate? ==> effects[0] == Navigate(Insurance, None)
    ensures !effects[0].Navigate? ==> effects[0] == Alert(IncompleteCodeMessage)
  {
    if |Text.Join(code)| == CodeLength then [Navigate(Insurance, None)] else [Alert(IncompleteCodeMessage)]
  }

  /** The Verify button is disabled while the joined code is not four characters long. */
  predicate VerifyDisabled(code: seq<string>)
  {
    |Text.Join(code)| != CodeLength
  }

  /**
   * With four single-character cells, verify goes ahead exactly when no cell
   * is empty, and the button is disabled exactly when it would alert.
   */
  lemma VerifyNeedsEveryCell(code: seq<string>)
    requires |code| == CodeLength && SingleCharCells(code)
    ensures Verify(code)[0].Navigate? <==> forall i :: 0 <= i < |code| ==> code[i] != ""
    ensures VerifyDisabled(code) <==> Verify(code)[0].Alert?
  {
    Text.JoinLengthOfCells(code);
  }

  class VerificationScreen {
    var code: seq<string>

    /** Four cells, each holding at most one character. */
    ghost predicate Valid()
      reads this
    {
      |code| == CodeLength && SingleCharCells(code)
    }

    constructor ()
      ensures Valid() && code == ["", "", "", ""]
    {
      code := ["", "", "", ""];
    }

    /** `handleCodeChange(index, value)`: the cell takes the input's last character; the others stay. */
    method CodeChange(index: nat, value: string)
      requires Valid() && index < CodeLength
      modifies this
      ensures Valid()
      ensures code == old(code)[index := LastChar(value)]
    {
      code := code[index := LastChar(value)];
    }
  }
}
