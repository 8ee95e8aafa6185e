/**
 * The save-place screen: a name, an address and an icon, appended to the
 * saved-places store. The store is the list kept under one storage key, read
 * and written whole.
 */
module SavePlace {
  import opened Wrappers
  import opened Types

  datatype Place = Place(name: string, address: string, icon: string)

  /** The house emoji the icon picker starts on. */
  const DefaultIcon := "\U{1F3E0}"
  const MissingFieldsMessage := "Please enter both a place name and an address."

  /** The stored list after a save attempt: one place appended when both fields are filled, untouched otherwise. */
  function StoreAfterSave(stored: seq<Place>, name: string, address: string, icon: string): (r: seq<Place>)
    ensures name == "" || address == "" ==> r == stored
    ensures name != "" && address != "" ==>
              && |r| == |stored| + 1
              && r[..|stored|] == stored
              && r[|stored|] == Place(name, address, icon)
  {
    if name != "" && address != "" then stored + [Place(name, address, icon)] else stored
  }

  /** Saving the same place twice stores it twice: the store does not remove duplicates. */
  lemma NoDeduplication(stored: seq<Place>, p: Place)
    requires p.name != "" && p.address != ""
    ensures var twice := StoreAfterSave(StoreAfterSave(stored, p.name, p.address, p.icon), p.name, p.address, p.icon);
            && |twice| == |stored| + 2
            && twice[..|stored|] == stored
            && twice[|stored|] == p && twice[|stored| + 1] == p
  {
    var once := StoreAfterSave(stored, p.name, p.address, p.icon);
    var twice := StoreAfterSave(once, p.name, p.address, p.icon);
    assert twice[..|stored|] == once[..|once|][..|stored|];
  }

  /** The saved-places list, kept as a whole sequence; a missing key reads as the empty list. */
  class PlaceStore {
    var places: seq<Place>

    constructor ()
      ensures places == []
    {
      places := [];
    }
  }

  class SavePlaceScreen {
    var placeName: string
    var address: string
    var selectedIcon: string

    /** The name starts empty, the address as the one passed in, the icon as the house. */
    constructor (initialAddress: string)
      ensures placeName == "" && address == initialAddress && selectedIcon == DefaultIcon
    {
      placeName := "";
      address := initialAddress;
      selectedIcon := DefaultIcon;
    }

    /**
     * `handleSavePlace()`: with both fields filled, appends the place to the
     * store and then moves to the saved-places list; otherwise alerts and
     * leaves the store alone.
     */
    method Save(store: PlaceStore) returns (effects: seq<Effect>)
      modifies store
      ensures store.places == StoreAfterSave(old(store.places), placeName, address, selectedIcon)
      ensures placeName != "" && address != "" ==> effects == [Navigate(SavedPlaces, None)]
      ensures placeName == "" || address == "" ==> effects == [Alert(MissingFieldsMessage)]
    {
      if placeName != "" && address != "" {
        var newPlace := Place(placeName, address, selectedIcon);
        var storedPlaces := store.places;
        store.places := storedPlaces + [newPlace];
        effects := [Navigate(SavedPlaces, None)];
      } else {
        effects := [Alert(MissingFieldsMessage)];
      }
    }
  }
}
