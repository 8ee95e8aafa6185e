/**
 * The trip-planning screen: pickup and dropoff fields, the "now / later"
 * timing choice, and the routing decision taken once both places are filled.
 */
module SetLocation {
  import opened Wrappers
  import opened Types
  import Text
  import ChooseRide

  datatype Timing = Now | Later

  /** The payload handed to schedule-ride. */
  function LaterPayload(pickup: string, dropoff: string): Payload
  {
    map[PickupLocation := Str(pickup), DropoffLocation := Str(dropoff)]
  }

  /** The payload handed to choose-ride: an immediate ride. */
  function NowPayload(pickup: string, dropoff: string): Payload
  {
    map[PickupLocation := Str(pickup), DropoffLocation := Str(dropoff), IsScheduled := Flag(false)]
  }

  /** The routing decision of the auto-advance effect (the 500 ms delay aside). */
  function AutoAdvance(pickup: string, dropoff: string, timing: Timing): (effects: seq<Effect>)
    ensures |effects| <= 1
    ensures effects != [] ==> effects[0].Navigate?
  {
    if Text.Trim(pickup) != "" && Text.Trim(dropoff) != "" then
      if timing == Later then [Navigate(ScheduleRide, Some(LaterPayload(pickup, dropoff)))]
      else [Navigate(ChooseRide, Some(NowPayload(pickup, dropoff)))]
    else
      []
  }

  /** The screen moves on exactly when both fields hold something besides white space. */
  lemma AutoAdvanceFiresIff(pickup: string, dropoff: string, timing: Timing)
    ensures AutoAdvance(pickup, dropoff, timing) != [] <==> !Text.Blank(pickup) && !Text.Blank(dropoff)
  {
    Text.TrimEmptyIffBlank(pickup);
    Text.TrimEmptyIffBlank(dropoff);
  }

  /**
   * When it moves on it passes the fields untrimmed: to schedule-ride for
   * "later", and to choose-ride as an immediate ride for "now".
   */
  lemma AutoAdvanceTargets(pickup: string, dropoff: string, timing: Timing)
    requires AutoAdvance(pickup, dropoff, timing) != []
    ensures var e := AutoAdvance(pickup, dropoff, timing)[0];
            && e.target == (if timing == Later then ScheduleRide else ChooseRide)
            && e.data.Some?
            && StrField(e.data.value, PickupLocation) == pickup
            && StrField(e.data.value, DropoffLocation) == dropoff
            && (timing == Now <==> IsScheduled in e.data.value && e.data.value[IsScheduled] == Flag(false))
  {
    var e := AutoAdvance(pickup, dropoff, timing)[0];
    if timing == Later {
      assert e == Navigate(ScheduleRide, Some(LaterPayload(pickup, dropoff)));
    } else {
      assert e == Navigate(ChooseRide, Some(NowPayload(pickup, dropoff)));
    }
  }

  /**
   * A "now" trip confirmed on choose-ride is an immediate booking with the
   * places typed here, and goes to the waiting screen.
   */
  lemma NowRouteBooksImmediateRide(pickup: string, dropoff: string, rideType: string)
    requires AutoAdvance(pickup, dropoff, Now) != [] && rideType != ""
    ensures var props := ChooseRide.PropsFrom(AutoAdvance(pickup, dropoff, Now)[0].data, true);
            var effects := ChooseRide.ConfirmRide(Some(rideType), props);
            && |effects| == 2
            && effects[0].BookRide?
            && !effects[0].request.isScheduled
            && effects[0].request.pickupLocation == pickup
            && effects[0].request.dropoffLocation == dropoff
            && effects[1] == Navigate(WaitingForRide, None)
  {
    var props := ChooseRide.PropsFrom(AutoAdvance(pickup, dropoff, Now)[0].data, true);
    assert props.isScheduled == Some(false);
    assert props.pickupLocation == pickup && props.dropoffLocation == dropoff;
  }

  class SetLocationScreen {
    var pickupLocation: string
    var dropoffLocation: string
    var showTimingModal: bool
    var pickupTiming: Timing

    constructor (initialPickup: string, initialDropoff: string)
      ensures pickupLocation == initialPickup && dropoffLocation == initialDropoff
      ensures !showTimingModal && pickupTiming == Now
    {
      pickupLocation := initialPickup;
      dropoffLocation := initialDropoff;
      showTimingModal := false;
      pickupTiming := Now;
    }

    /** `handleLocationSelect(location)`: fills an empty dropoff, never overwrites one, never touches the pickup. */
    method LocationSelect(address: string)
      modifies this
      ensures dropoffLocation == if old(dropoffLocation) == "" then address else old(dropoffLocation)
      ensures pickupLocation == old(pickupLocation)
      ensures pickupTiming == old(pickupTiming) && showTimingModal == old(showTimingModal)
    {
      if dropoffLocation == "" {
        dropoffLocation := address;
      }
    }

    /** `handleTimingSelect(timing)`: records the choice and closes the modal. */
    method TimingSelect(timing: Timing)
      modifies this
      ensures pickupTiming == timing && !showTimingModal
      ensures pickupLocation == old(pickupLocation) && dropoffLocation == old(dropoffLocation)
    {
      pickupTiming := timing;
      showTimingModal := false;
    }
  }
}
