/**
 * The edit-profile screen: eleven form fields initialised from the profile,
 * saved back through the shallow profile merge.
 */
module EditProfile {
  import opened Wrappers
  import opened Types
  import App

  /** The form's eleven editable fields. */
  datatype ProfileForm = ProfileForm(
    firstName: string,
    lastName: string,
    birthMonth: string,
    birthDay: string,
    birthYear: string,
    address: string,
    phone: string,
    language: string,
    insuranceProvider: string,
    policyNumber: string,
    expiryDate: string)

  const DefaultLanguage := "English"

  /** Each field starts from the profile's value (`|| ""`); the language falls back to English. */
  function InitialForm(p: ProfileData): (f: ProfileForm)
    ensures f.firstName == p.firstName && f.lastName == p.lastName
    ensures f.birthMonth == p.birthMonth && f.birthDay == p.birthDay && f.birthYear == p.birthYear
    ensures f.address == p.address && f.phone == p.phone
    ensures f.insuranceProvider == p.insuranceProvider && f.policyNumber == p.policyNumber
    ensures f.expiryDate == p.expiryDate
    ensures f.language != "" && (p.language != "" ==> f.language == p.language)
    ensures p.language == "" ==> f.language == DefaultLanguage
  {
    ProfileForm(
      Or(p.firstName, ""), Or(p.lastName, ""),
      Or(p.birthMonth, ""), Or(p.birthDay, ""), Or(p.birthYear, ""),
      Or(p.address, ""), Or(p.phone, ""),
      Or(p.language, DefaultLanguage),
      Or(p.insuranceProvider, ""), Or(p.policyNumber, ""), Or(p.expiryDate, ""))
  }

  /** The `updatedData` object: the eleven fields and no counter. */
  function PatchOf(f: ProfileForm): ProfilePatch
  {
    ProfilePatch(
      Some(f.firstName), Some(f.lastName),
      Some(f.birthMonth), Some(f.birthDay), Some(f.birthYear),
      Some(f.address), Some(f.phone), Some(f.language),
      Some(f.insuranceProvider), Some(f.policyNumber), Some(f.expiryDate),
      None, None)
  }

  /** `handleSaveProfile()`: the update, then the move to the profile screen, with no validation. */
  function SaveProfile(f: ProfileForm): (effects: seq<Effect>)
    ensures |effects| == 2 && effects[0].UpdateProfileData? && effects[1] == Navigate(Profile, None)
    ensures effects[0].patch.ridesLeft.None? && effects[0].patch.completedRides.None?
  {
    [UpdateProfileData(PatchOf(f)), Navigate(Profile, None)]
  }

  /** The form read back out of a profile's eleven fields. */
  function FormOf(p: ProfileData): ProfileForm
  {
    ProfileForm(
      p.firstName, p.lastName, p.birthMonth, p.birthDay, p.birthYear,
      p.address, p.phone, p.language, p.insuranceProvider, p.policyNumber, p.expiryDate)
  }

  /**
   * Saving stores exactly the form's fields, empty ones included, and through
   * the shallow merge leaves both ride counters as they were.
   */
  lemma SaveStoresFormKeepsCounters(p: ProfileData, f: ProfileForm)
    ensures var q := App.MergeProfile(p, SaveProfile(f)[0].patch);
            && FormOf(q) == f
            && q.ridesLeft == p.ridesLeft
            && q.completedRides == p.completedRides
  {
  }

  /** Saving without edits changes nothing, except that an empty language becomes English. */
  lemma SaveWithoutEdits(p: ProfileData)
    ensures App.MergeProfile(p, SaveProfile(InitialForm(p))[0].patch)
            == if p.language == "" then p.(language := DefaultLanguage) else p
  {
  }
}
