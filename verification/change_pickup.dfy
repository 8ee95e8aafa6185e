/**
 * The change-pickup screen: a text box with address suggestions drawn from a
 * fixed list, and a confirm handler.
 */
module ChangePickup {
  import opened Wrappers
  import opened Types
  import Text

  const MockAddresses: seq<string> := [
    "123 Main St, Anytown, USA",
    "456 Oak Ave, Anytown, USA",
    "789 Pine Ln, Anytown, USA",
    "101 Elm Rd, Anytown, USA"
  ]

  /** Queries shorter than this return no suggestions. */
  const MinQueryLength: nat := 2

  const EnterPickupMessage := "Please enter a new pickup location."

  /** `address.toLowerCase().includes(query.toLowerCase())`. */
  predicate Matches(address: string, query: string)
  {
    Text.Contains(Text.ToLower(address), Text.ToLower(query))
  }

  /** `addresses.filter(address => Matches(address, query))`. */
  function FilterMatching(addresses: seq<string>, query: string): (r: seq<string>)
    ensures |r| <= |addresses|
    ensures forall x :: x in r <==> x in addresses && Matches(x, query)
  {
    if addresses == [] then []
    else (if Matches(addresses[0], query) then [addresses[0]] else []) + FilterMatching(addresses[1..], query)
  }

  /** `r` is `s` with some elements left out, the others in their order. */
  predicate SubsequenceOf<T(==)>(r: seq<T>, s: seq<T>)
    decreases |s|
  {
    if r == [] then true
    else if s == [] then false
    else if r[0] == s[0] then SubsequenceOf(r[1..], s[1..])
    else SubsequenceOf(r, s[1..])
  }

  /** When every address contains the query, filtering returns the whole list unchanged. */
  lemma {:induction false} FilterAllMatching(addresses: seq<string>, query: string)
    requires forall i :: 0 <= i < |addresses| ==> Matches(addresses[i], query)
    ensures FilterMatching(addresses, query) == addresses
  {
    if addresses != [] {
      assert Matches(addresses[0], query);
      FilterAllMatching(addresses[1..], query);
      assert [addresses[0]] + addresses[1..] == addresses;
    }
  }

  /** Filtering keeps the surviving addresses in the order of the list. */
  lemma {:induction false} FilterKeepsOrder(addresses: seq<string>, query: string)
    ensures SubsequenceOf(FilterMatching(addresses, query), addresses)
  {
    if addresses != [] {
      FilterKeepsOrder(addresses[1..], query);
      var rest := FilterMatching(addresses[1..], query);
      if Matches(addresses[0], query) {
        assert FilterMatching(addresses, query) == [addresses[0]] + rest;
      } else {
        assert FilterMatching(addresses, query) == rest;
        if rest != [] {
          assert SubsequenceOf(rest, addresses[1..]);
        }
      }
    }
  }

  /** The suggestion list the lookup produces for `query` (its delay and debounce aside). */
  function SuggestionsFor(query: string): (r: seq<string>)
    ensures |query| < MinQueryLength ==> r == []
    ensures forall x :: x in r <==> |query| >= MinQueryLength && x in MockAddresses && Matches(x, query)
  {
    if |query| < MinQueryLength then [] else FilterMatching(MockAddresses, query)
  }

  /** Suggestions come in the order of the fixed list. */
  lemma SuggestionsInListOrder(query: string)
    ensures SubsequenceOf(SuggestionsFor(query), MockAddresses)
  {
    if |query| < MinQueryLength {
      assert SuggestionsFor(query) == [];
    } else {
      FilterKeepsOrder(MockAddresses, query);
    }
  }

  /** `handleConfirmChange()`. */
  function ConfirmChange(newPickupLocation: string): (effects: seq<Effect>)
    ensures newPickupLocation != "" <==> Navigates(effects)
    ensures newPickupLocation != "" ==> effects == [Navigate(PickupConfirmation, Some(map[NewPickup := Str(newPickupLocation)]))]
    ensures newPickupLocation == "" ==> effects == [Alert(EnterPickupMessage)]
  {
    if newPickupLocation != "" then
      var effects := [Navigate(PickupConfirmation, Some(map[NewPickup := Str(newPickupLocation)]))];
      assert effects[0].Navigate?;
      effects
    else
      [Alert(EnterPickupMessage)]
  }

  class ChangePickupScreen {
    var newPickupLocation: string
    var suggestions: seq<string>

    constructor (initialPickup: string)
      ensures newPickupLocation == initialPickup && suggestions == []
    {
      newPickupLocation := initialPickup;
      suggestions := [];
    }

    /** The lookup completing for `query`: its result replaces the suggestion list. */
    method FetchSuggestions(query: string)
      modifies this
      ensures suggestions == SuggestionsFor(query)
      ensures newPickupLocation == old(newPickupLocation)
    {
      suggestions := SuggestionsFor(query);
    }

    /** `handleSelectSuggestion(address)`: the input takes the address and the list closes. */
    method SelectSuggestion(address: string)
      modifies this
      ensures newPickupLocation == address && suggestions == []
    {
      newPickupLocation := address;
      suggestions := [];
    }
  }
}
