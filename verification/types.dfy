/**
 * The values that flow between the MediRide screens and the application root:
 * screen names, navigation payloads, rides, the profile, and the calls a
 * screen handler makes (navigate, alert, book, cancel, update).
 *
 * An optional string prop or field (`string | undefined`) is a `string`
 * whose empty value stands for `undefined`: the core only ever tests such a
 * value for truthiness, where the two agree.
 */
module Types {
  import opened Wrappers

  /** The `Screen` union of the application root. */
  datatype Screen =
    | Splash | Welcome | Login | Signup | PersonalInfo | Location | Verification
    | Insurance | Guardian | GuardianInfo | Dashboard | ResetPassword | ResetConfirm
    | SetLocation | ConfirmLocation | ScheduleRide | ChooseRide | BookLater
    | PickupConfirmation | ChangePickup | WaitingForRide | DuringRide | PostRide
    | RideActivity | Profile | ReserveCar | SavePlace | AddPlace | ReservationDetails
    | ReservationConfirmed | SavedPlaces | RideDeniedDetails | EditProfile | Faq
    | ChatSupport | DriverChat | Support | MapLocation

  datatype RideStatus = Confirmed | Scheduled

  /** An entry of the upcoming-rides ledger. `createdAt` is in milliseconds. */
  datatype Ride = Ride(
    id: string,
    date: string,
    time: string,
    pickup: string,
    dropoff: string,
    status: RideStatus,
    vehicleType: string,
    price: string,
    isScheduled: bool,
    createdAt: int)

  /** The `rideData` a ride-selection screen hands to the ledger. */
  datatype RideRequest = RideRequest(
    pickupLocation: string,
    dropoffLocation: string,
    scheduledDate: string,
    scheduledTime: string,
    isScheduled: bool,
    vehicleType: string,
    price: string)

  /** The profile held at the application root, ride counters included. */
  datatype ProfileData = ProfileData(
    firstName: string,
    lastName: string,
    birthMonth: string,
    birthDay: string,
    birthYear: string,
    address: string,
    phone: string,
    language: string,
    insuranceProvider: string,
    policyNumber: string,
    expiryDate: string,
    ridesLeft: int,
    completedRides: int)

  /** A partial profile: the keys an update object carries, each present or not. */
  datatype ProfilePatch = ProfilePatch(
    firstName: Option<string>,
    lastName: Option<string>,
    birthMonth: Option<string>,
    birthDay: Option<string>,
    birthYear: Option<string>,
    address: Option<string>,
    phone: Option<string>,
    language: Option<string>,
    insuranceProvider: Option<string>,
    policyNumber: Option<string>,
    expiryDate: Option<string>,
    ridesLeft: Option<int>,
    completedRides: Option<int>)

  /** A value stored under a key of a navigation payload. */
  datatype Value = Str(text: string) | Flag(flag: bool) | RideValue(ride: Ride)

  /** The property names the core's payloads use. */
  datatype Key =
    | RideData | PickupLocation | DropoffLocation | ScheduledDate | ScheduledTime | IsScheduled
    | VehicleType | Price | InitialPickup | InitialDropoff | SelectedAddress | IsFromMap
    | NewPickup | BookingDateTime | HasGuardian

  /** A navigation payload: an object literal, property by property. */
  type Payload = map<Key, Value>

  /** The current screen: its name and its payload (`None` when `data` is undefined). */
  datatype ScreenState = ScreenState(name: Screen, data: Option<Payload>)

  /** One call a screen handler makes, in the order it makes them. */
  datatype Effect =
    | Navigate(target: Screen, data: Option<Payload>)
    | Alert(message: string)
    | BookRide(request: RideRequest)
    | CancelRide(rideId: string)
    | UpdateSignupData(fields: Payload)
    | UpdateProfileData(patch: ProfilePatch)

  /** `a || b` on strings: `a` unless it is empty. */
  function Or(a: string, b: string): (r: string)
    ensures r == a || r == b
    ensures b != "" ==> r != ""
  {
    if a != "" then a else b
  }

  /** `data?.key` read as a string: "" when the key is absent or not a string. */
  function StrField(data: Payload, key: Key): string
  {
    if key in data && data[key].Str? then data[key].text else ""
  }

  /** `data?.key` read as a boolean: `None` when the key is absent or not a boolean. */
  function FlagField(data: Payload, key: Key): Option<bool>
  {
    if key in data && data[key].Flag? then Some(data[key].flag) else None
  }

  /** The handler's calls include a navigation. */
  predicate Navigates(effects: seq<Effect>)
  {
    exists i :: 0 <= i < |effects| && effects[i].Navigate?
  }
}
