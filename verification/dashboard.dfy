/**
 * The dashboard's two per-ride decisions: which screen "track ride" opens,
 * from the ride's kind and the time elapsed since it was booked, and whether
 * "cancel ride" may go ahead.
 */
module Dashboard {
  import opened Wrappers
  import opened Types
  import App

  const WaitingPhase: int := 10 * 60 * 1000
  const RidePhase: int := 30 * 60 * 1000

  const CannotCancelMessage := "This ride has already started and cannot be cancelled."

  /** `handleTrackRide(ride)` at time `now`. */
  function TrackRide(ride: Ride, now: int): (e: Effect)
    ensures e.Navigate? && e.data == Some(map[RideData := RideValue(ride)])
    ensures ride.isScheduled ==> e.target == ReservationDetails
    ensures !ride.isScheduled && now - ride.createdAt < WaitingPhase ==> e.target == WaitingForRide
    ensures !ride.isScheduled && WaitingPhase <= now - ride.createdAt < RidePhase ==> e.target == DuringRide
    ensures !ride.isScheduled && RidePhase <= now - ride.createdAt ==> e.target == PostRide
  {
    var payload := map[RideData := RideValue(ride)];
    if ride.isScheduled then
      Navigate(ReservationDetails, Some(payload))
    else
      var elapsed := now - ride.createdAt;
      if elapsed < WaitingPhase then Navigate(WaitingForRide, Some(payload))
      else if elapsed < RidePhase then Navigate(DuringRide, Some(payload))
      else Navigate(PostRide, Some(payload))
  }

  /** The ride stages in the order a ride goes through them. */
  function StageRank(s: Screen): nat
  {
    match s
    case WaitingForRide => 0
    case DuringRide => 1
    case PostRide => 2
    case _ => 3
  }

  /** An immediate ride only ever moves forward through waiting, during and post as time passes. */
  lemma TrackStageMonotone(ride: Ride, now: int, later: int)
    requires !ride.isScheduled && now <= later
    ensures StageRank(TrackRide(ride, now).target) <= StageRank(TrackRide(ride, later).target)
    ensures StageRank(TrackRide(ride, later).target) <= 2
  {
  }

  /** A scheduled ride opens its reservation details whatever the time. */
  lemma ScheduledAlwaysDetails(ride: Ride, now: int, later: int)
    requires ride.isScheduled
    ensures TrackRide(ride, now) == TrackRide(ride, later)
    ensures TrackRide(ride, now).target == ReservationDetails
  {
  }

  /**
   * `handleCancelRide(ride)` at time `now`. A scheduled ride's start is
   * parsed from its date and time: `scheduledStart` is that instant, or
   * `None` when the text does not parse (an invalid date compares false).
   * `confirmed` is the user's answer to the confirmation dialog.
   */
  function CancelRideDecision(ride: Ride, now: int, scheduledStart: Option<int>, confirmed: bool): (effects: seq<Effect>)
    ensures |effects| <= 1
    ensures effects == [Alert(CannotCancelMessage)] <==> !BeforeStart(ride, now, scheduledStart)
    ensures effects == [CancelRide(ride.id)] <==> BeforeStart(ride, now, scheduledStart) && confirmed
    ensures !confirmed && BeforeStart(ride, now, scheduledStart) ==> effects == []
  {
    if BeforeStart(ride, now, scheduledStart) then
      if confirmed then [CancelRide(ride.id)] else []
    else
      [Alert(CannotCancelMessage)]
  }

  /** `now < rideTime`: for an immediate ride, ten minutes after booking. */
  predicate BeforeStart(ride: Ride, now: int, scheduledStart: Option<int>)
  {
    if ride.isScheduled then scheduledStart.Some? && now < scheduledStart.value
    else now < ride.createdAt + WaitingPhase
  }

  /**
   * The dashboard and the ledger each read the clock: the dashboard at `now`,
   * the ledger at `later`, after the confirmation dialog has closed. A credit
   * the ledger gives back was always a cancel the dashboard allowed.
   */
  lemma CreditImpliesCancelAllowed(rides: seq<Ride>, ride: Ride, now: int, later: int, scheduledStart: Option<int>)
    requires !ride.isScheduled && now <= later
    requires App.FindById(rides, ride.id) == Some(ride)
    ensures App.RestoresCredit(App.FindById(rides, ride.id), later)
            ==> CancelRideDecision(ride, now, scheduledStart, true) == [CancelRide(ride.id)]
  {
  }

  /**
   * The converse fails: a cancel confirmed inside the ten minutes but reaching
   * the ledger once they have passed removes the ride and gives no credit back.
   */
  lemma CancelConfirmedLateLosesCredit(rides: seq<Ride>, ride: Ride, now: int, later: int, scheduledStart: Option<int>)
    requires !ride.isScheduled
    requires App.FindById(rides, ride.id) == Some(ride)
    requires now < ride.createdAt + WaitingPhase <= later
    ensures CancelRideDecision(ride, now, scheduledStart, true) == [CancelRide(ride.id)]
    ensures !App.RestoresCredit(App.FindById(rides, ride.id), later)
  {
  }

  /** The boundary case: booked at 0, confirmed at 599999 ms, reaching the ledger at 600000 ms. */
  lemma LateCancelExample(ride: Ride)
    requires !ride.isScheduled && ride.createdAt == 0
    ensures CancelRideDecision(ride, 599999, None, true) == [CancelRide(ride.id)]
    ensures !App.RestoresCredit(App.FindById([ride], ride.id), 600000)
  {
    assert App.FindById([ride], ride.id) == Some(ride);
  }

  /**
   * With the ledger judging the cancel at the instant the dashboard read the
   * clock, the dashboard requests an immediate ride's cancel exactly when the
   * ledger gives its credit back: both use the same ten-minute boundary.
   */
  lemma CancelWindowMatchesLedger(rides: seq<Ride>, ride: Ride, now: int, scheduledStart: Option<int>)
    requires !ride.isScheduled
    requires App.FindById(rides, ride.id) == Some(ride)
    ensures CancelRideDecision(ride, now, scheduledStart, true) == [CancelRide(ride.id)]
            <==> App.RestoresCredit(App.FindById(rides, ride.id), now)
  {
  }

  /** Cancelling a scheduled ride is never credited by the ledger, whatever the dashboard allowed. */
  lemma ScheduledCancelNeverCredited(rides: seq<Ride>, ride: Ride, now: int)
    requires ride.isScheduled
    requires App.FindById(rides, ride.id) == Some(ride)
    ensures !App.RestoresCredit(App.FindById(rides, ride.id), now)
  {
  }
}
