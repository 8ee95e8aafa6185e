/**
 * The ride-selection screen: the table of ride types, the selected type, and
 * the confirm handler that books the ride and moves on.
 */
module ChooseRide {
  import opened Wrappers
  import opened Types
  import App

  datatype RideType = RideType(id: string, name: string, price: string)

  const RideTypes: seq<RideType> := [
    RideType("standard", "Car Type", "$15.00"),
    RideType("wheelchair", "Wheelchair Van", "$25.00")
  ]

  const SelectRideTypeMessage := "Please select a ride type."

  /** The props the screen reads; `isScheduled` is `None` when the payload has none. */
  datatype Props = Props(
    pickupLocation: string,
    dropoffLocation: string,
    scheduledDate: string,
    scheduledTime: string,
    isScheduled: Option<bool>,
    hasBookRide: bool)

  /** `isScheduled = false` as a default parameter. */
  function ScheduledOrDefault(props: Props): bool
  {
    if props.isScheduled.Some? then props.isScheduled.value else false
  }

  /** The props the router reads from the current screen's payload. */
  function PropsFrom(data: Option<Payload>, hasBookRide: bool): (p: Props)
    ensures data.None? ==> p == Props("", "", "", "", None, hasBookRide)
    ensures data.Some? ==>
              && p.pickupLocation == StrField(data.value, PickupLocation)
              && p.dropoffLocation == StrField(data.value, DropoffLocation)
              && p.scheduledDate == StrField(data.value, ScheduledDate)
              && p.scheduledTime == StrField(data.value, ScheduledTime)
              && p.isScheduled == FlagField(data.value, IsScheduled)
              && p.hasBookRide == hasBookRide
  {
    var d := if data.Some? then data.value else map[];
    Props(
      StrField(d, PickupLocation), StrField(d, DropoffLocation),
      StrField(d, ScheduledDate), StrField(d, ScheduledTime),
      FlagField(d, IsScheduled), hasBookRide)
  }

  /** `rideTypes.find(ride => ride.id === id)`. */
  function FindRideType(types: seq<RideType>, id: string): (r: Option<RideType>)
    ensures r.Some? ==> r.value in types && r.value.id == id
    ensures r.None? <==> forall i :: 0 <= i < |types| ==> types[i].id != id
  {
    if types == [] then None
    else if types[0].id == id then Some(types[0])
    else FindRideType(types[1..], id)
  }

  /** The `rideData` record built for the selected ride type (fields of a type not found stay undefined). */
  function RideDataFor(selected: string, props: Props): (r: RideRequest)
    ensures r.pickupLocation == props.pickupLocation && r.dropoffLocation == props.dropoffLocation
    ensures r.scheduledDate == props.scheduledDate && r.scheduledTime == props.scheduledTime
    ensures r.isScheduled <==> props.isScheduled == Some(true)
    ensures FindRideType(RideTypes, selected).Some? ==>
              r.vehicleType == FindRideType(RideTypes, selected).value.name && r.price == FindRideType(RideTypes, selected).value.price
    ensures FindRideType(RideTypes, selected).None? ==> r.vehicleType == "" && r.price == ""
  {
    var found := FindRideType(RideTypes, selected);
    RideRequest(
      props.pickupLocation, props.dropoffLocation, props.scheduledDate, props.scheduledTime,
      ScheduledOrDefault(props),
      if found.Some? then found.value.name else "",
      if found.Some? then found.value.price else "")
  }

  /** `rideData` as the payload of the reservation-confirmed screen. */
  function RequestPayload(rd: RideRequest): Payload
  {
    map[
      PickupLocation := Str(rd.pickupLocation),
      DropoffLocation := Str(rd.dropoffLocation),
      ScheduledDate := Str(rd.scheduledDate),
      ScheduledTime := Str(rd.scheduledTime),
      IsScheduled := Flag(rd.isScheduled),
      VehicleType := Str(rd.vehicleType),
      Price := Str(rd.price)]
  }

  /** `handleConfirmRide()` with `selected` the selected ride type (`None` before any choice). */
  function ConfirmRide(selected: Option<string>, props: Props): (effects: seq<Effect>)
    ensures selected.None? || selected.value == "" ==> effects == [Alert(SelectRideTypeMessage)]
    ensures selected.Some? && selected.value != "" ==>
              var rd := RideDataFor(selected.value, props);
              && |effects| == (if props.hasBookRide then 2 else 1)
              && (props.hasBookRide ==> effects[0] == BookRide(rd))
              && effects[|effects| - 1] == (if ScheduledOrDefault(props) then Navigate(ReservationConfirmed, Some(RequestPayload(rd)))
                                            else Navigate(WaitingForRide, None))
  {
    if selected.Some? && selected.value != "" then
      var rd := RideDataFor(selected.value, props);
      var booking := if props.hasBookRide then [BookRide(rd)] else [];
      booking + [if rd.isScheduled then Navigate(ReservationConfirmed, Some(RequestPayload(rd))) else Navigate(WaitingForRide, None)]
    else
      [Alert(SelectRideTypeMessage)]
  }

  /** Each selectable type carries the name and price of its table entry. */
  lemma RideTypeTable(props: Props)
    ensures RideDataFor("standard", props).vehicleType == "Car Type" && RideDataFor("standard", props).price == "$15.00"
    ensures RideDataFor("wheelchair", props).vehicleType == "Wheelchair Van" && RideDataFor("wheelchair", props).price == "$25.00"
  {
  }

  /**
   * A confirmed wheelchair booking reaches the ledger with the van's name and
   * price; an immediate one takes a credit.
   */
  lemma WheelchairBookingInLedger(props: Props, now: nat, nowDate: string, nowTime: string)
    requires props.hasBookRide
    ensures var effects := ConfirmRide(Some("wheelchair"), props);
            && effects[0].BookRide?
            && App.NewRide(effects[0].request, now, nowDate, nowTime).vehicleType == "Wheelchair Van"
            && App.NewRide(effects[0].request, now, nowDate, nowTime).price == "$25.00"
            && App.NewRide(effects[0].request, now, nowDate, nowTime).isScheduled == ScheduledOrDefault(props)
  {
    RideTypeTable(props);
  }

  /** The screen's own state: the selected ride type. */
  class ChooseRideScreen {
    var selectedRideType: Option<string>

    constructor ()
      ensures selectedRideType == None
    {
      selectedRideType := None;
    }

    /** `handleSelectRide(id)`. */
    method SelectRide(id: string)
      modifies this
      ensures selectedRideType == Some(id)
    {
      selectedRideType := Some(id);
    }
  }
}
