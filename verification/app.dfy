/**
 * The application root: the navigation controller (current screen and a
 * history stack), the upcoming-rides ledger, and the profile with its ride
 * credit. The pure functions below give the new state of each operation;
 * the class `MediRideApp` holds the state and updates it in place.
 */
module App {
  import opened Wrappers
  import opened Types
  import Text

  /** The ledger keeps the latest ten rides. */
  const MaxUpcomingRides: nat := 10

  /** An immediate ride may be cancelled (and its credit restored) for ten minutes after booking. */
  const ImmediateCancelWindow: int := 10 * 60 * 1000

  const InitialProfile := ProfileData(
    "John", "Doe", "01", "01", "1980", "123 Main St, City, State", "(123) 456-7890",
    "English", "Health Insurance Co.", "XYZ-123456", "Dec 31, 2025", 5, 12)

  // ================================================================ navigation

  /** The navigation controller's state. */
  datatype Nav = Nav(current: ScreenState, history: seq<ScreenState>)

  /** Navigating from `from` to `to` records `from` in the history. */
  predicate PushesHistory(from: Screen, to: Screen)
  {
    from != to && from != Splash
  }

  /** The history holds no splash entry. */
  predicate NoSplash(history: seq<ScreenState>)
  {
    forall i :: 0 <= i < |history| ==> history[i].name != Splash
  }

  /** The state after `navigateToScreen(screen, data)`. */
  function NavigateTo(nav: Nav, screen: Screen, data: Option<Payload>): Nav
  {
    var history := if PushesHistory(nav.current.name, screen) then nav.history + [nav.current] else nav.history;
    Nav(ScreenState(screen, Some(if data.Some? then data.value else map[])), history)
  }

  /** The state after `goBack()`. */
  function Back(nav: Nav): Nav
  {
    if |nav.history| > 0 then Nav(nav.history[|nav.history| - 1], nav.history[..|nav.history| - 1])
    else Nav(ScreenState(Dashboard, None), [])
  }

  /** Navigation makes the target current, with its payload or `{}`, and records the old screen only when it is left for another and is not the splash screen. */
  lemma NavigateToEffect(nav: Nav, screen: Screen, data: Option<Payload>)
    ensures NavigateTo(nav, screen, data).current.name == screen
    ensures NavigateTo(nav, screen, data).current.data == Some(if data.None? then map[] else data.value)
    ensures PushesHistory(nav.current.name, screen) ==> NavigateTo(nav, screen, data).history == nav.history + [nav.current]
    ensures !PushesHistory(nav.current.name, screen) ==> NavigateTo(nav, screen, data).history == nav.history
  {
  }

  /** Neither operation ever puts a splash entry into the history. */
  lemma NoSplashKept(nav: Nav, screen: Screen, data: Option<Payload>)
    requires NoSplash(nav.history)
    ensures NoSplash(NavigateTo(nav, screen, data).history)
    ensures NoSplash(Back(nav).history)
  {
  }

  /** Going back pops exactly the last entry and makes it current, payload included; on an empty history it lands on the dashboard. */
  lemma BackPops(nav: Nav)
    ensures |nav.history| > 0 ==> Back(nav).current == nav.history[|nav.history| - 1]
    ensures |nav.history| > 0 ==> Back(nav).history + [Back(nav).current] == nav.history
    ensures |nav.history| == 0 ==> Back(nav) == Nav(ScreenState(Dashboard, None), [])
  {
  }

  /** A navigation that records history is undone exactly by one `goBack`. */
  lemma NavigateThenBack(nav: Nav, screen: Screen, data: Option<Payload>)
    requires PushesHistory(nav.current.name, screen)
    ensures Back(NavigateTo(nav, screen, data)) == nav
  {
    assert (nav.history + [nav.current])[..|nav.history|] == nav.history;
  }

  /** One forward navigation. */
  datatype Step = Step(screen: Screen, data: Option<Payload>)

  function NavigateAll(nav: Nav, steps: seq<Step>): Nav
  {
    if steps == [] then nav
    else
      var last := steps[|steps| - 1];
      NavigateTo(NavigateAll(nav, steps[..|steps| - 1]), last.screen, last.data)
  }

  function BackTimes(nav: Nav, k: nat): Nav
  {
    if k == 0 then nav else Back(BackTimes(nav, k - 1))
  }

  /** Every step leaves the screen before it for another one, and none starts from or goes to splash. */
  predicate ForwardOnly(start: Screen, steps: seq<Step>)
  {
    && start != Splash
    && (forall i :: 0 <= i < |steps| ==> steps[i].screen != Splash)
    && (|steps| > 0 ==> steps[0].screen != start)
    && (forall i :: 0 < i < |steps| ==> steps[i].screen != steps[i - 1].screen)
  }

  /** After N forward navigations, k of the N `goBack`s return to the state reached after the first N - k navigations. */
  lemma {:induction false} BackRetracesNavigations(nav: Nav, steps: seq<Step>, k: nat)
    requires ForwardOnly(nav.current.name, steps)
    requires k <= |steps|
    ensures BackTimes(NavigateAll(nav, steps), k) == NavigateAll(nav, steps[..|steps| - k])
  {
    if k > 0 {
      BackRetracesNavigations(nav, steps, k - 1);
      var prefix := steps[..|steps| - (k - 1)];
      var front := prefix[..|prefix| - 1];
      var last := prefix[|prefix| - 1];
      assert front == steps[..|steps| - k];
      var mid := NavigateAll(nav, front);
      if front == [] {
        assert mid == nav && last == steps[0];
      } else {
        assert mid.current.name == front[|front| - 1].screen;
        assert last == steps[|front|] && front[|front| - 1] == steps[|front| - 1];
      }
      assert NavigateAll(nav, prefix) == NavigateTo(mid, last.screen, last.data);
      assert last.screen != Splash;
      NavigateThenBack(mid, last.screen, last.data);
      assert BackTimes(NavigateAll(nav, steps), k) == Back(NavigateAll(nav, prefix));
    } else {
      assert steps[..|steps|] == steps;
    }
  }

  /** N `goBack`s undo N forward navigations; one more from an initially empty history lands on the dashboard. */
  lemma BackUndoesNavigations(nav: Nav, steps: seq<Step>)
    requires ForwardOnly(nav.current.name, steps)
    ensures BackTimes(NavigateAll(nav, steps), |steps|) == nav
    ensures nav.history == [] ==> BackTimes(NavigateAll(nav, steps), |steps| + 1) == Nav(ScreenState(Dashboard, None), [])
  {
    BackRetracesNavigations(nav, steps, |steps|);
    assert steps[..0] == [];
  }

  // ================================================================ ledger

  function Min(a: int, b: int): int
  {
    if a <= b then a else b
  }

  /** The ride record `addUpcomingRide` builds at time `now`; `nowDate` and `nowTime` are the locale renderings of `now`. */
  function NewRide(request: RideRequest, now: nat, nowDate: string, nowTime: string): (r: Ride)
    ensures r.id == Text.Decimal(now) && r.createdAt == now
    ensures r.isScheduled == request.isScheduled
    ensures r.status == (if request.isScheduled then Scheduled else Confirmed)
    ensures request.isScheduled ==> r.date == request.scheduledDate && r.time == request.scheduledTime
    ensures !request.isScheduled ==> r.date == nowDate && r.time == nowTime
    ensures r.pickup != "" && r.dropoff != "" && r.vehicleType != "" && r.price != ""
    ensures request.pickupLocation != "" ==> r.pickup == request.pickupLocation
    ensures request.pickupLocation == "" ==> r.pickup == "Current Location"
    ensures request.dropoffLocation != "" ==> r.dropoff == request.dropoffLocation
    ensures request.dropoffLocation == "" ==> r.dropoff == "Destination"
    ensures request.vehicleType != "" ==> r.vehicleType == request.vehicleType
    ensures request.vehicleType == "" ==> r.vehicleType == "Car Type"
    ensures request.price != "" ==> r.price == request.price
    ensures request.price == "" ==> r.price == "$15.00"
  {
    Ride(
      id := Text.Decimal(now),
      date := if request.isScheduled then request.scheduledDate else nowDate,
      time := if request.isScheduled then request.scheduledTime else nowTime,
      pickup := Or(request.pickupLocation, "Current Location"),
      dropoff := Or(request.dropoffLocation, "Destination"),
      status := if request.isScheduled then Scheduled else Confirmed,
      vehicleType := Or(request.vehicleType, "Car Type"),
      price := Or(request.price, "$15.00"),
      isScheduled := request.isScheduled,
      createdAt := now)
  }

  /** `[ride, ...rides].slice(0, 10)`: the new ride first, then the most recent of the old ones, in order. */
  function Prepend(ride: Ride, rides: seq<Ride>): (r: seq<Ride>)
    ensures |r| == Min(|rides| + 1, MaxUpcomingRides)
    ensures r[0] == ride
    ensures forall i :: 1 <= i < |r| ==> r[i] == rides[i - 1]
  {
    ([ride] + rides)[..Min(|rides| + 1, MaxUpcomingRides)]
  }

  /** A full ledger drops exactly its oldest ride when another is booked. */
  lemma FullLedgerEvictsOldest(ride: Ride, rides: seq<Ride>)
    requires |rides| == MaxUpcomingRides
    ensures Prepend(ride, rides) == [ride] + rides[..MaxUpcomingRides - 1]
  {
  }

  /** The ride credit after a booking: an immediate ride takes one, never going below zero. */
  function CreditAfterBooking(ridesLeft: int, isScheduled: bool): (r: int)
    ensures isScheduled ==> r == ridesLeft
    ensures !isScheduled && ridesLeft >= 1 ==> r == ridesLeft - 1
    ensures !isScheduled && ridesLeft <= 0 ==> r == 0
    ensures r >= 0 || r == ridesLeft
  {
    if isScheduled then ridesLeft else if 0 >= ridesLeft - 1 then 0 else ridesLeft - 1
  }

  /** `rides.find(ride => ride.id === id)`: the first ride with that id. */
  function FindById(rides: seq<Ride>, id: string): (r: Option<Ride>)
    ensures r.None? <==> forall i :: 0 <= i < |rides| ==> rides[i].id != id
    ensures r.Some? ==> r.value in rides && r.value.id == id
    ensures r.Some? ==> exists i :: 0 <= i < |rides| && rides[i] == r.value && forall j :: 0 <= j < i ==> rides[j].id != id
  {
    if rides == [] then None
    else if rides[0].id == id then Some(rides[0])
    else
      var r := FindById(rides[1..], id);
      assert r.Some? ==> exists i :: 1 <= i < |rides| && rides[i] == r.value && forall j :: 0 <= j < i ==> rides[j].id != id by {
        if r.Some? {
          var i :| 0 <= i < |rides[1..]| && rides[1..][i] == r.value && forall j :: 0 <= j < i ==> rides[1..][j].id != id;
          assert rides[i + 1] == r.value;
        }
      }
      r
  }

  /** `rides.filter(ride => ride.id !== id)`. */
  function WithoutId(rides: seq<Ride>, id: string): (r: seq<Ride>)
    ensures |r| <= |rides|
    ensures forall x :: x in r <==> x in rides && x.id != id
  {
    if rides == [] then []
    else (if rides[0].id == id then [] else [rides[0]]) + WithoutId(rides[1..], id)
  }

  /** Removal keeps the remaining rides in their order: it distributes over concatenation. */
  lemma {:induction false} WithoutIdAppend(a: seq<Ride>, b: seq<Ride>, id: string)
    ensures WithoutId(a + b, id) == WithoutId(a, id) + WithoutId(b, id)
  {
    if a != [] {
      assert (a + b)[1..] == a[1..] + b;
      WithoutIdAppend(a[1..], b, id);
    } else {
      assert a + b == b;
    }
  }

  /** Removing an id no ride carries changes nothing. */
  lemma {:induction false} WithoutAbsentId(rides: seq<Ride>, id: string)
    requires forall i :: 0 <= i < |rides| ==> rides[i].id != id
    ensures WithoutId(rides, id) == rides
  {
    if rides != [] {
      WithoutAbsentId(rides[1..], id);
    }
  }

  /** Cancelling restores a credit exactly for a found immediate ride cancelled within ten minutes of its creation. */
  predicate RestoresCredit(found: Option<Ride>, now: int)
  {
    found.Some? && !found.value.isScheduled && now < found.value.createdAt + ImmediateCancelWindow
  }

  /**
   * Booking an immediate ride and cancelling it: the ledger is as before, and
   * the credit comes back within the window — so a booking made with no credit
   * left and cancelled in time ends with one credit more than before.
   */
  lemma BookThenCancel(rides: seq<Ride>, ridesLeft: int, request: RideRequest, now: nat, later: int, nowDate: string, nowTime: string)
    requires !request.isScheduled && ridesLeft >= 0
    requires |rides| < MaxUpcomingRides
    requires forall i :: 0 <= i < |rides| ==> rides[i].id != Text.Decimal(now)
    ensures var ride := NewRide(request, now, nowDate, nowTime);
            var booked := Prepend(ride, rides);
            var credit := CreditAfterBooking(ridesLeft, false) + (if RestoresCredit(FindById(booked, ride.id), later) then 1 else 0);
            && WithoutId(booked, ride.id) == rides
            && (later < now + ImmediateCancelWindow ==> credit == if ridesLeft == 0 then 1 else ridesLeft)
            && (later >= now + ImmediateCancelWindow ==> credit == CreditAfterBooking(ridesLeft, false))
  {
    var ride := NewRide(request, now, nowDate, nowTime);
    var booked := Prepend(ride, rides);
    assert booked == [ride] + rides;
    WithoutIdAppend([ride], rides, ride.id);
    WithoutAbsentId(rides, ride.id);
  }

  // ================================================================ profile

  function Pick<T>(patched: Option<T>, old_: T): T
  {
    if patched.Some? then patched.value else old_
  }

  /** `{ ...profile, ...patch }`. */
  function MergeProfile(p: ProfileData, patch: ProfilePatch): (r: ProfileData)
    ensures patch.ridesLeft.None? ==> r.ridesLeft == p.ridesLeft
    ensures patch.completedRides.None? ==> r.completedRides == p.completedRides
    ensures patch.ridesLeft.Some? ==> r.ridesLeft == patch.ridesLeft.value
    ensures patch.completedRides.Some? ==> r.completedRides == patch.completedRides.value
  {
    ProfileData(
      Pick(patch.firstName, p.firstName), Pick(patch.lastName, p.lastName),
      Pick(patch.birthMonth, p.birthMonth), Pick(patch.birthDay, p.birthDay),
      Pick(patch.birthYear, p.birthYear), Pick(patch.address, p.address),
      Pick(patch.phone, p.phone), Pick(patch.language, p.language),
      Pick(patch.insuranceProvider, p.insuranceProvider), Pick(patch.policyNumber, p.policyNumber),
      Pick(patch.expiryDate, p.expiryDate),
      Pick(patch.ridesLeft, p.ridesLeft), Pick(patch.completedRides, p.completedRides))
  }

  const EmptyPatch := ProfilePatch(None, None, None, None, None, None, None, None, None, None, None, None, None)

  /** Merging nothing changes nothing, and merging the same patch twice is merging it once. */
  lemma MergeLaws(p: ProfileData, patch: ProfilePatch)
    ensures MergeProfile(p, EmptyPatch) == p
    ensures MergeProfile(MergeProfile(p, patch), patch) == MergeProfile(p, patch)
  {
  }

  // ================================================================ routing props

  /** The pickup the router hands to set-location: `data?.initialPickup`. */
  function SetLocationInitialPickup(data: Option<Payload>): (r: string)
    ensures data.Some? ==> r == StrField(data.value, InitialPickup)
    ensures data.None? ==> r == ""
  {
    if data.Some? then StrField(data.value, InitialPickup) else ""
  }

  /** The dropoff the router hands to set-location: `data?.selectedAddress || data?.initialDropoff`. */
  function SetLocationInitialDropoff(data: Option<Payload>): (r: string)
    ensures data.Some? && StrField(data.value, SelectedAddress) != "" ==> r == StrField(data.value, SelectedAddress)
    ensures data.Some? && StrField(data.value, SelectedAddress) == "" ==> r == StrField(data.value, InitialDropoff)
    ensures data.None? ==> r == ""
  {
    if data.Some? then Or(StrField(data.value, SelectedAddress), StrField(data.value, InitialDropoff)) else ""
  }

  // ================================================================ the application root

  class MediRideApp {
    var current: ScreenState
    var history: seq<ScreenState>
    var profile: ProfileData
    var upcomingRides: seq<Ride>

    /** The history never records splash, the ledger holds at most ten rides, the credit is never negative. */
    ghost predicate Valid()
      reads this
    {
      NoSplash(history) && |upcomingRides| <= MaxUpcomingRides && profile.ridesLeft >= 0
    }

    constructor ()
      ensures Valid()
      ensures current == ScreenState(Splash, None) && history == []
      ensures profile == InitialProfile && upcomingRides == []
    {
      current := ScreenState(Splash, None);
      history := [];
      profile := InitialProfile;
      upcomingRides := [];
    }

    /** The splash timer: replaces splash by welcome without recording history. */
    method SplashTimeout()
      requires Valid() && current.name == Splash
      modifies this
      ensures Valid()
      ensures current == ScreenState(Welcome, None) && history == old(history)
      ensures profile == old(profile) && upcomingRides == old(upcomingRides)
    {
      current := ScreenState(Welcome, None);
    }

    method NavigateToScreen(screen: Screen, data: Option<Payload>)
      requires Valid()
      modifies this
      ensures Valid()
      ensures Nav(current, history) == NavigateTo(Nav(old(current), old(history)), screen, data)
      ensures profile == old(profile) && upcomingRides == old(upcomingRides)
    {
      ghost var before := Nav(current, history);
      NoSplashKept(before, screen, data);
      if current.name != screen && current.name != Splash {
        history := history + [current];
      }
      current := ScreenState(screen, Some(if data.Some? then data.value else map[]));
      assert Nav(current, history) == NavigateTo(before, screen, data);
    }

    method GoBack()
      requires Valid()
      modifies this
      ensures Valid()
      ensures Nav(current, history) == Back(Nav(old(current), old(history)))
      ensures profile == old(profile) && upcomingRides == old(upcomingRides)
    {
      if |history| > 0 {
        current := history[|history| - 1];
        history := history[..|history| - 1];
      } else {
        current := ScreenState(Dashboard, None);
      }
    }

    method UpdateProfileData(patch: ProfilePatch)
      requires Valid()
      modifies this
      ensures profile == MergeProfile(old(profile), patch)
      ensures Valid() <==> patch.ridesLeft.None? || patch.ridesLeft.value >= 0
      ensures current == old(current) && history == old(history) && upcomingRides == old(upcomingRides)
    {
      profile := MergeProfile(profile, patch);
    }

    method AddUpcomingRide(request: RideRequest, now: nat, nowDate: string, nowTime: string)
      requires Valid()
      modifies this
      ensures Valid()
      ensures upcomingRides == Prepend(NewRide(request, now, nowDate, nowTime), old(upcomingRides))
      ensures profile == old(profile).(ridesLeft := CreditAfterBooking(old(profile.ridesLeft), request.isScheduled))
      ensures current == old(current) && history == old(history)
    {
      var ride := NewRide(request, now, nowDate, nowTime);
      upcomingRides := Prepend(ride, upcomingRides);
      if !request.isScheduled {
        profile := profile.(ridesLeft := if 0 >= profile.ridesLeft - 1 then 0 else profile.ridesLeft - 1);
      }
    }

    method CancelUpcomingRide(rideId: string, now: int)
      requires Valid()
      modifies this
      ensures Valid()
      ensures upcomingRides == WithoutId(old(upcomingRides), rideId)
      ensures profile == old(profile).(ridesLeft := old(profile.ridesLeft) + if RestoresCredit(FindById(old(upcomingRides), rideId), now) then 1 else 0)
      ensures current == old(current) && history == old(history)
    {
      var rideToCancel := FindById(upcomingRides, rideId);
      if rideToCancel.Some? && !rideToCancel.value.isScheduled {
        if now < rideToCancel.value.createdAt + ImmediateCancelWindow {
          profile := profile.(ridesLeft := profile.ridesLeft + 1);
        }
      }
      upcomingRides := WithoutId(upcomingRides, rideId);
    }
  }
}
