/**
 * The map picker: a selected point with an editable address, confirmed
 * either as the trip's destination or as its pickup.
 */
module MapLocation {
  import opened Wrappers
  import opened Types
  import App

  /** A point on the map; the coordinates are percentages of the map's size. */
  datatype SelectedLocation = SelectedLocation(lat: real, lng: real, address: string)

  const InitialLocation := SelectedLocation(50.0, 50.0, "26 n highland ave")

  /** `locationType = "destination"` as a default parameter. */
  function LocationTypeOrDefault(locationType: Option<string>): string
  {
    if locationType.Some? then locationType.value else "destination"
  }

  /** `handleConfirmLocation()`. */
  function ConfirmLocation(selected: SelectedLocation, locationType: Option<string>, currentPickup: string, currentDropoff: string): (effects: seq<Effect>)
    ensures |effects| == 1 && effects[0].Navigate? && effects[0].data.Some?
  {
    if LocationTypeOrDefault(locationType) == "destination" then
      [Navigate(Screen.ConfirmLocation, Some(map[PickupLocation := Str(currentPickup), DropoffLocation := Str(selected.address)]))]
    else
      [Navigate(SetLocation, Some(map[
        SelectedAddress := Str(selected.address),
        IsFromMap := Flag(true),
        InitialPickup := Str(selected.address),
        InitialDropoff := Str(currentDropoff)]))]
  }

  /** In destination mode (the default) the chosen address becomes the dropoff, next to the current pickup. */
  lemma DestinationMode(selected: SelectedLocation, locationType: Option<string>, currentPickup: string, currentDropoff: string)
    requires locationType.None? || locationType.value == "destination"
    ensures var e := ConfirmLocation(selected, locationType, currentPickup, currentDropoff)[0];
            && e.target == Screen.ConfirmLocation
            && StrField(e.data.value, PickupLocation) == currentPickup
            && StrField(e.data.value, DropoffLocation) == selected.address
  {
  }

  /** In any other mode the chosen address goes back to set-location as the pickup, with the current dropoff. */
  lemma PickupMode(selected: SelectedLocation, mode: string, currentPickup: string, currentDropoff: string)
    requires mode != "destination"
    ensures var e := ConfirmLocation(selected, Some(mode), currentPickup, currentDropoff)[0];
            && e.target == SetLocation
            && StrField(e.data.value, InitialPickup) == selected.address
            && StrField(e.data.value, InitialDropoff) == currentDropoff
            && StrField(e.data.value, SelectedAddress) == selected.address
            && e.data.value[IsFromMap] == Flag(true)
  {
  }

  /**
   * Because the router prefers `selectedAddress` to `initialDropoff`, set-location
   * opens with the chosen pickup address as its dropoff too (unless it is empty).
   */
  lemma PickupAddressBecomesDropoff(selected: SelectedLocation, mode: string, currentPickup: string, currentDropoff: string)
    requires mode != "destination"
    ensures var e := ConfirmLocation(selected, Some(mode), currentPickup, currentDropoff)[0];
            && App.SetLocationInitialPickup(e.data) == selected.address
            && App.SetLocationInitialDropoff(e.data) == (if selected.address != "" then selected.address else currentDropoff)
  {
    PickupMode(selected, mode, currentPickup, currentDropoff);
  }

  class MapLocationScreen {
    var selectedLocation: SelectedLocation

    constructor ()
      ensures selectedLocation == InitialLocation
    {
      selectedLocation := InitialLocation;
    }

    /** Typing in the address box: `{ ...prev, address }`. */
    method EditAddress(text: string)
      modifies this
      ensures selectedLocation == old(selectedLocation).(address := text)
    {
      selectedLocation := selectedLocation.(address := text);
    }
  }
}
