/** The sign-up screen's submit handler: an emptiness check, then a password match. */
module Signup {
  import opened Wrappers
  import opened Types

  const FillInMessage := "Please fill in all fields."
  const MismatchMessage := "Passwords do not match."

  /** `handleSignUp()`. */
  function SignUp(email: string, password: string, confirmPassword: string): (effects: seq<Effect>)
    ensures |effects| == 1
    ensures email == "" || password == "" || confirmPassword == "" ==> effects == [Alert(FillInMessage)]
    ensures email != "" && password != "" && confirmPassword != "" && password != confirmPassword ==>
              effects == [Alert(MismatchMessage)]
    ensures effects[0].Navigate? <==> email != "" && password != "" && confirmPassword != "" && password == confirmPassword
    ensures effects[0].Navigate? ==> effects[0] == Navigate(PersonalInfo, None)
  {
    if email != "" && password != "" && confirmPassword != "" then
      if password != confirmPassword then [Alert(MismatchMessage)]
      else [Navigate(PersonalInfo, None)]
    else
      [Alert(FillInMessage)]
  }

  /**
   * The emptiness check comes first: with a field empty the user is told to
   * fill in the fields, even when the passwords also differ. Sign-up goes
   * ahead exactly for a non-empty email and a non-empty password typed twice.
   */
  lemma SignUpChecksInOrder(email: string, password: string, confirmPassword: string)
    ensures SignUp(email, password, confirmPassword)[0] == Alert(MismatchMessage) ==>
              email != "" && password != "" && confirmPassword != ""
    ensures SignUp(email, password, confirmPassword)[0].Navigate? <==>
              email != "" && password != "" && password == confirmPassword
  {
  }
}
