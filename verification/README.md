# MediRide booking core, in Dafny

MediRide is a click-through prototype of an app for booking non-emergency
medical transport. Its application root keeps a navigation controller (the
current screen plus a history stack), a ledger of upcoming rides capped at
ten, and the user's profile with its ride credit (`ridesLeft`). Around it,
the booking screens make small routing decisions: choose a ride type, plan
pickup and dropoff, pick a point on the map, change the pickup, and schedule
a time. The sign-up and account screens add a few validators and list
updates.

This project models that core and proves what it promises:

- **The root** (`App`). Pure functions give the new state of each
  operation: `NavigateTo`, `Back`, `NewRide`, `Prepend`,
  `CreditAfterBooking`, `FindById`, `WithoutId` and `MergeProfile`. The
  class `App.MediRideApp` holds the state and updates it in place. Each
  method's postcondition ties the new state to those functions. The class
  invariant says three things: the history never holds splash, the ledger
  holds at most ten rides, and the credit is never negative.
- **Screen handlers.** Each handler is a function from the screen's state to
  the ordered list of calls it makes, as `Types.Effect` values: navigate,
  alert, book, cancel, update sign-up data, update profile data. Where a
  screen keeps state that its handlers update, that state is a class.
- **Shared pieces.** `Text` gives the string operations the screens rely on:
  `trim`, `toString`, `padStart`, `toLowerCase`, `includes` and `join("")`.
  `Types` gives the screen names, the ride and profile records, and
  navigation payloads as maps from a fixed key set.

Conventions:

- Time is an integer number of milliseconds.
- An optional string (`string | undefined`) is a `string`, with "" standing
  for undefined. The code only ever tests such values for truthiness, where
  the two agree.
- Where a default parameter distinguishes undefined from a value, the model
  uses `Option`. These are `locationType = "destination"` and
  `isScheduled = false`.

## Model

| member | source | states |
|---|---|---|
| App.NavigateTo | app/page.tsx:129-141 | the navigation state after `navigateToScreen`; what it does is stated by `NavigateToEffect` and `NoSplashKept` |
| App.Back | app/page.tsx:145-171 | the navigation state after `goBack`; what it does is stated by `BackPops` and `NoSplashKept` |
| App.NavigateToEffect | app/page.tsx:129-141 | the target becomes current with its payload, or `{}` without one; the old screen is pushed exactly when it differs from the target and is not splash, otherwise the history is unchanged |
| App.NoSplashKept | app/page.tsx:129 | neither navigating nor going back ever puts a splash entry into the history |
| App.BackPops | app/page.tsx:145-171 | on a non-empty history the last entry becomes current, payload included, and the history loses exactly that entry; on an empty one the dashboard with no data becomes current and the history stays empty |
| App.NavigateThenBack | app/page.tsx:129-158 | a navigation that pushes, followed by one goBack, restores the previous current screen and history exactly |
| App.BackRetracesNavigations | app/page.tsx:120-171 | after N forward navigations (each to a new screen, none to or from splash), k goBacks give the state reached after the first N - k navigations |
| App.BackUndoesNavigations | app/page.tsx:120-171 | N goBacks undo N forward navigations; one more from an initially empty history lands on the dashboard |
| App.NewRide | app/page.tsx:182-205 | the ride's id is the decimal text of `now` and createdAt is `now`; a scheduled ride takes the requested date and time and status Scheduled, an immediate one the current date and time and status Confirmed; pickup, dropoff, vehicle type and price are the requested values when non-empty and otherwise "Current Location", "Destination", "Car Type" and "$15.00" |
| App.Prepend | app/page.tsx:207 | the new ride is at index 0, the length is min(old + 1, 10), and positions 1.. are the old list's leading entries in order |
| App.FullLedgerEvictsOldest | app/page.tsx:207 | on a full ledger a booking drops exactly the oldest ride |
| App.CreditAfterBooking | app/page.tsx:209-214 | a scheduled booking leaves the credit unchanged; an immediate one takes one credit and never goes below zero |
| App.FindById | app/page.tsx:219 | None exactly when no ride has the id; otherwise the first ride that has it |
| App.WithoutId | app/page.tsx:235 | the result holds exactly the rides whose id differs, and is never longer |
| App.WithoutIdAppend | app/page.tsx:235 | removal distributes over concatenation, so the remaining rides keep their order |
| App.WithoutAbsentId | app/page.tsx:235 | removing an id that no ride carries changes nothing |
| App.RestoresCredit | app/page.tsx:220-226 | the ledger gives a credit back exactly for a found immediate ride cancelled before createdAt + 10 minutes; used by `BookThenCancel` and `CancelUpcomingRide` |
| App.BookThenCancel | app/page.tsx:181-236 | booking an immediate ride and cancelling it restores the ledger; within ten minutes the credit comes back, so a booking made at zero credit ends at one credit; later it stays at the booking's value |
| App.MergeProfile | app/page.tsx:177-179 | the shallow merge takes each of the patch's two counters when present and keeps the old one otherwise |
| App.MergeLaws | app/page.tsx:177-179 | merging an empty patch is the identity, and merging the same patch twice equals merging it once |
| App.SetLocationInitialPickup | app/page.tsx:265 | set-location's pickup is the payload's initialPickup, and "" without a payload |
| App.SetLocationInitialDropoff | app/page.tsx:266 | set-location's dropoff is the payload's selectedAddress when that is non-empty, its initialDropoff otherwise, and "" without a payload |
| App.MediRideApp.constructor | app/page.tsx:90-109 | the app starts on splash with no data, an empty history, an empty ledger and the initial profile (John Doe, 5 rides left, 12 completed) |
| App.MediRideApp.SplashTimeout | app/page.tsx:111-118 | the splash timer replaces splash with welcome without touching the history |
| App.MediRideApp.NavigateToScreen | app/page.tsx:120-143 | the new current screen and history are `NavigateTo` of the old ones; profile and ledger are unchanged; the invariant is kept |
| App.MediRideApp.GoBack | app/page.tsx:145-171 | the new current screen and history are `Back` of the old ones; profile and ledger are unchanged; the invariant is kept |
| App.MediRideApp.UpdateProfileData | app/page.tsx:177-179 | the profile becomes the shallow merge; the invariant holds afterwards exactly when the patch does not set a negative credit |
| App.MediRideApp.AddUpcomingRide | app/page.tsx:181-215 | the ledger becomes `Prepend(NewRide(...))` of the old one and the credit becomes `CreditAfterBooking`; navigation is unchanged; the invariant is kept |
| App.MediRideApp.CancelUpcomingRide | app/page.tsx:217-237 | every ride with the id is removed; the credit rises by one exactly for a found immediate ride cancelled before createdAt + 600000; the invariant is kept |
| Dashboard.TrackRide | components/dashboard-screen.tsx:36-58 | a scheduled ride opens reservation details; an immediate one opens waiting below 600000 ms elapsed, during-ride below 1800000 and post-ride after; the payload is `{rideData: ride}` |
| Dashboard.TrackStageMonotone | components/dashboard-screen.tsx:44-56 | for an immediate ride the stage never moves backwards as time passes, and is always one of the three ride stages |
| Dashboard.ScheduledAlwaysDetails | components/dashboard-screen.tsx:40-42 | a scheduled ride opens reservation details whatever the time |
| Dashboard.CancelRideDecision | components/dashboard-screen.tsx:60-74 | the not-cancellable alert is shown exactly when the start has passed (or a scheduled start does not parse); the cancel call is made exactly before the start with the dialog confirmed; declining calls nothing |
| Dashboard.BeforeStart | components/dashboard-screen.tsx:62-67 | `now < rideTime`: before the parsed start for a scheduled ride, before createdAt + 10 minutes for an immediate one (its meaning is stated through `CancelRideDecision`) |
| Dashboard.CreditImpliesCancelAllowed | app/page.tsx:220-226 | the dashboard reads the clock at `now`, the ledger later at `later`; whenever the ledger gives an immediate ride's credit back, the dashboard had allowed the cancel |
| Dashboard.CancelConfirmedLateLosesCredit | app/page.tsx:220-226 | the converse fails: a cancel confirmed before createdAt + 10 minutes that reaches the ledger at or after it removes the ride and gives no credit back |
| Dashboard.LateCancelExample | components/dashboard-screen.tsx:61-69 | a ride booked at 0, confirmed at 599999 ms and reaching the ledger at 600000 ms is cancelled without a credit |
| Dashboard.CancelWindowMatchesLedger | components/dashboard-screen.tsx:62-67 | if the ledger judged the cancel at the instant the dashboard read the clock, the cancel would be requested exactly when the credit comes back: both use createdAt + 10 minutes |
| Dashboard.ScheduledCancelNeverCredited | app/page.tsx:222 | cancelling a scheduled ride never restores a credit |
| ChooseRide.PropsFrom | app/page.tsx:281-290 | choose-ride's props are the payload's places, date, time and isScheduled flag (undefined when absent), and all undefined without a payload |
| ChooseRide.FindRideType | components/choose-ride-screen.tsx:74 | the result is a table entry with the id, and None exactly when no entry has it |
| ChooseRide.RideDataFor | components/choose-ride-screen.tsx:74-84 | the ride data carries the screen's places, date and time, is scheduled exactly when the flag is true, and takes name and price from the table entry, both undefined for an unknown id |
| ChooseRide.ConfirmRide | components/choose-ride-screen.tsx:72-99 | with no selection it only alerts; otherwise it books once (when a booking callback is given) before navigating, to reservation-confirmed with the ride data when scheduled and to waiting-for-ride with no payload otherwise |
| ChooseRide.RideTypeTable | components/choose-ride-screen.tsx:49-84 | standard books "Car Type" at "$15.00", wheelchair books "Wheelchair Van" at "$25.00" |
| ChooseRide.WheelchairBookingInLedger | components/choose-ride-screen.tsx:72-89 | a confirmed wheelchair booking reaches the ledger with the van's name and price, and with the screen's scheduled flag (false by default) |
| ChooseRide.ChooseRideScreen.constructor | components/choose-ride-screen.tsx:32 | nothing is selected at first |
| ChooseRide.ChooseRideScreen.SelectRide | components/choose-ride-screen.tsx:68-70 | the selection becomes the id |
| SetLocation.AutoAdvance | components/set-location-screen.tsx:41-59 | at most one navigation |
| SetLocation.AutoAdvanceFiresIff | components/set-location-screen.tsx:42 | the screen moves on exactly when neither field is blank (empty or white space only) |
| SetLocation.AutoAdvanceTargets | components/set-location-screen.tsx:44-55 | "later" goes to schedule-ride and "now" to choose-ride; both carry the untrimmed fields; isScheduled: false is present exactly for "now" |
| SetLocation.NowRouteBooksImmediateRide | components/set-location-screen.tsx:49-55 | a "now" trip confirmed on choose-ride books an immediate ride with these places and goes to the waiting screen |
| SetLocation.SetLocationScreen.constructor | components/set-location-screen.tsx:36-39 | the fields start from the props; timing starts as "now" and the modal closed |
| SetLocation.SetLocationScreen.LocationSelect | components/set-location-screen.tsx:61-65 | fills the dropoff only when it is empty; never overwrites it and never touches the pickup |
| SetLocation.SetLocationScreen.TimingSelect | components/set-location-screen.tsx:67-70 | sets the timing and closes the modal, leaving both places |
| MapLocation.ConfirmLocation | components/map-location-screen.tsx:56-73 | exactly one navigation, always with a payload |
| MapLocation.DestinationMode | components/map-location-screen.tsx:58-62 | in destination mode (the default) it goes to confirm-location with the current pickup and the selected address as dropoff |
| MapLocation.PickupMode | components/map-location-screen.tsx:63-71 | in any other mode it goes to set-location with the selected address as initialPickup and selectedAddress, the current dropoff as initialDropoff, and isFromMap true |
| MapLocation.PickupAddressBecomesDropoff | app/page.tsx:264-266 | in pickup mode set-location then opens with the chosen address as its pickup and also as its dropoff (unless the address is empty) |
| MapLocation.MapLocationScreen.constructor | components/map-location-screen.tsx:26-30 | the selection starts at (50, 50), "26 n highland ave" |
| MapLocation.MapLocationScreen.EditAddress | components/map-location-screen.tsx:258 | editing changes only the address of the selection |
| ChangePickup.FilterMatching | components/change-pickup-screen.tsx:33-38 | an address is kept exactly when it is in the list and contains the query, ignoring case |
| ChangePickup.FilterKeepsOrder | components/change-pickup-screen.tsx:33-38 | the kept addresses appear in the list's order |
| ChangePickup.FilterAllMatching | components/change-pickup-screen.tsx:38 | when every address contains the query, the filter returns the whole list unchanged |
| ChangePickup.SuggestionsFor | components/change-pickup-screen.tsx:25-41 | a query shorter than 2 characters gives no suggestions; otherwise the suggestions are exactly the fixed addresses containing it, ignoring case |
| ChangePickup.SuggestionsInListOrder | components/change-pickup-screen.tsx:33-39 | suggestions come in the fixed list's order |
| ChangePickup.ConfirmChange | components/change-pickup-screen.tsx:52-58 | a non-empty location goes to pickup-confirmation with `{newPickup}`; an empty one alerts and does not navigate |
| ChangePickup.ChangePickupScreen.constructor | components/change-pickup-screen.tsx:20-21 | the input starts as the initial pickup and there are no suggestions |
| ChangePickup.ChangePickupScreen.FetchSuggestions | components/change-pickup-screen.tsx:25-45 | a completed lookup replaces the suggestions with `SuggestionsFor` the query and leaves the input alone |
| ChangePickup.ChangePickupScreen.SelectSuggestion | components/change-pickup-screen.tsx:47-50 | selecting sets the input to the address and clears the suggestions |
| ScheduleRide.GenerateTimeSlots | components/schedule-ride-screen.tsx:39-53 | exactly 36 slots, slot k being hour 6 + k/2 at minute 0 or 30 |
| ScheduleRide.SlotDigits | components/schedule-ride-screen.tsx:41-43 | slot k is the two digits of hour 6 + k/2, a colon, and the two digits of its minute, 0 or 30 |
| ScheduleRide.SlotFormat | components/schedule-ride-screen.tsx:43 | every slot is "HH:MM" with a zero-padded two-digit hour and minute |
| ScheduleRide.FirstSlot | components/schedule-ride-screen.tsx:41-43 | the first slot is "06:00" |
| ScheduleRide.LastSlot | components/schedule-ride-screen.tsx:41-43 | the last slot is "23:30" |
| ScheduleRide.SlotsStrictlyIncrease | components/schedule-ride-screen.tsx:41-51 | slot values strictly increase in string order |
| ScheduleRide.Continue | components/schedule-ride-screen.tsx:58-68 | does nothing unless both a date and a time are selected; then goes to choose-ride with the places, the date, the time and isScheduled true |
| ScheduleRide.ContinueThenConfirmIsScheduled | components/schedule-ride-screen.tsx:58-68 | a ride continued from here and confirmed on choose-ride is booked as scheduled with the chosen date and time, and ends on reservation-confirmed |
| ScheduleRide.ScheduleRideScreen.constructor | components/schedule-ride-screen.tsx:15-16 | date and time start empty |
| ScheduleRide.ScheduleRideScreen.SelectTime | components/schedule-ride-screen.tsx:125 | picking slot k stores its value and keeps the date |
| BookLater.Hour12 | components/book-later-screen.tsx:45 | the hour label lies in 1..12; it is 12 exactly when the hour of day is a multiple of 12, and the hour modulo 12 otherwise |
| BookLater.GenerateTimeSlots | components/book-later-screen.tsx:41-52 | exactly 48 slots, slot k being `SlotLabel(k)` |
| BookLater.SlotParts | components/book-later-screen.tsx:45-48 | each label is an unpadded hour in 1..12, a colon, "00" on even and "30" on odd slots, a space, and "AM" exactly for the first 24 slots |
| BookLater.Landmarks | components/book-later-screen.tsx:43-48 | slot 0 is "12:00 AM", slot 24 is "12:00 PM", slot 47 is "11:30 PM" |
| BookLater.SlotsDistinct | components/book-later-screen.tsx:43-49 | two slots have the same label exactly when they are the same slot |
| BookLater.DefaultTimeNotOffered | components/book-later-screen.tsx:21 | no label starts with '0', so the initial time "09:00 AM" is not among the slots |
| BookLater.ConfirmBooking | components/book-later-screen.tsx:32-39 | with a date and a time it goes to set-location with bookingDateTime "<date> at <time>"; otherwise it alerts and does not navigate |
| BookLater.BookingTimeNotPassedOn | app/page.tsx:261-268 | set-location reads neither place from that payload, so it opens with both empty |
| BookLater.BookLaterScreen.constructor | components/book-later-screen.tsx:20-21 | the date starts as today and the time as "09:00 AM" |
| BookLater.BookLaterScreen.SelectTime | components/book-later-screen.tsx:87 | picking slot k stores its label and keeps the date |
| Verification.LastChar | components/verification-screen.tsx:20 | at most one character, empty exactly for empty input, otherwise the input's last character |
| Verification.Verify | components/verification-screen.tsx:30-39 | goes to insurance exactly when the joined code has 4 characters; otherwise alerts |
| Verification.VerifyDisabled | components/verification-screen.tsx:70 | the button is disabled while the joined code is not 4 characters; `VerifyNeedsEveryCell` shows it agrees with `Verify` |
| Verification.VerifyNeedsEveryCell | components/verification-screen.tsx:30-39 | with four single-character cells, verify goes ahead exactly when no cell is empty, and the button is disabled exactly when verify would alert |
| Verification.VerificationScreen.constructor | components/verification-screen.tsx:16 | four empty cells |
| Verification.VerificationScreen.CodeChange | components/verification-screen.tsx:18-28 | the cell at the index takes the input's last character; the other cells are unchanged; there are still exactly four single-character cells |
| Signup.SignUp | components/signup-screen.tsx:21-33 | any empty field gives the fill-in alert; filled fields with different passwords give the mismatch alert; it navigates to personal-info exactly when all are filled and the passwords match |
| Signup.SignUpChecksInOrder | components/signup-screen.tsx:22-23 | the mismatch alert is only reached with every field filled; sign-up goes ahead exactly for a non-empty email and a non-empty password typed twice |
| Guardian.Continue | components/guardian-screen.tsx:20-30 | "yes" records hasGuardian true and then opens guardian-info; "no" records false and then opens the dashboard; anything else alerts only |
| Guardian.ContinueDisabled | components/guardian-screen.tsx:58 | Continue is disabled exactly while nothing is selected; `EnabledContinueRecordsAnswer` shows an enabled Continue never alerts |
| Guardian.EnabledContinueRecordsAnswer | components/guardian-screen.tsx:20-30 | with the button enabled on a radio value, the answer is recorded and then the screen navigates, never alerting; the flag is true exactly for "yes" |
| Guardian.GuardianScreen.constructor | components/guardian-screen.tsx:18 | nothing is selected at first, so Continue is disabled |
| Guardian.GuardianScreen.Select | components/guardian-screen.tsx:40 | once an option is chosen, Continue is enabled |
| EditProfile.InitialForm | components/edit-profile-screen.tsx:20-30 | each field starts from the profile's value; the language falls back to "English" when empty |
| EditProfile.SaveProfile | components/edit-profile-screen.tsx:32-48 | one update carrying no counter, then navigation to the profile screen |
| EditProfile.SaveStoresFormKeepsCounters | components/edit-profile-screen.tsx:33-45 | through the shallow merge the profile's eleven fields become the form's, empty ones included, and both ride counters stay as they were |
| EditProfile.SaveWithoutEdits | components/edit-profile-screen.tsx:20-46 | saving an untouched form changes nothing, except that an empty language becomes "English" |
| SavePlace.StoreAfterSave | components/save-place-screen.tsx:24-33 | with both fields filled exactly one `{name, address, icon}` is appended and the earlier entries are kept in order; otherwise the store is untouched |
| SavePlace.NoDeduplication | components/save-place-screen.tsx:28 | saving the same place twice stores two equal entries |
| SavePlace.PlaceStore.constructor | components/save-place-screen.tsx:27 | a missing store reads as the empty list |
| SavePlace.SavePlaceScreen.constructor | components/save-place-screen.tsx:19-22 | the name starts empty, the address as the one passed in, and the icon as the house |
| SavePlace.SavePlaceScreen.Save | components/save-place-screen.tsx:24-33 | the store becomes `StoreAfterSave` of the old one; it navigates to saved-places after a save and alerts otherwise |
| Chat.AfterSend | components/chat-support-screen.tsx:25-27 | the history after sending; stated by `BlankMessageIgnored` and `SendAppendsTrimmed`, shared with driver-chat-screen.tsx:24-26 |
| Chat.MessageAfterSend | components/driver-chat-screen.tsx:24-26 | the input after sending: cleared when a message went out, kept otherwise; stated through both screens' `SendMessage` |
| Chat.BlankMessageIgnored | components/chat-support-screen.tsx:25 | a blank or white-space-only message leaves the history unchanged |
| Chat.SendAppendsTrimmed | components/chat-support-screen.tsx:25-26 | any other message appends exactly one user entry at the end, whose text is the trimmed message; that text is non-empty with no white space at either end, and the earlier entries keep their order and values |
| ChatSupport.ChatSupportScreen.constructor | components/chat-support-screen.tsx:17-22 | the input is empty and the history starts with agent, user, agent |
| ChatSupport.ChatSupportScreen.SendMessage | components/chat-support-screen.tsx:24-33 | the history becomes `AfterSend` of the old one; the input is cleared exactly when a message went out |
| DriverChat.DriverChatScreen.constructor | components/driver-chat-screen.tsx:17-21 | the input is empty and the history starts with driver, user |
| DriverChat.DriverChatScreen.SendMessage | components/driver-chat-screen.tsx:23-32 | the history becomes `AfterSend` of the old one; the input is cleared exactly when a message went out |
| Text.TrimEmptyIffBlank | components/set-location-screen.tsx:42 | `trim()` is empty exactly for strings of white space only |
| Text.TrimIdempotent | components/chat-support-screen.tsx:26 | a trimmed string has no white space at either end, and trimming it again changes nothing |
| Text.DecimalDigits | app/page.tsx:183 | the decimal text is non-empty and all digits, with a leading zero only for 0 |
| Text.ParseDecimalInverse | app/page.tsx:183 | reading back the decimal text of a number gives the number |
| Text.PadStartShape | components/schedule-ride-screen.tsx:43 | the padded string has the requested width (or its own, if longer), ends with the input, and is pad characters before it |
| Text.ToLower | components/change-pickup-screen.tsx:38 | the length is kept and each character is lower-cased |
| Text.JoinLengthOfCells | components/verification-screen.tsx:31-32 | when every cell holds at most one character, the joined text has one character per cell exactly when no cell is empty |

## Left out

- Rendering, animation and the drag and gesture handlers. They are presentation, pointer coordinates and DOM listeners.
- Wall-clock timers. The model keeps only the decisions they trigger:
  - `App.MediRideApp.SplashTimeout` is the splash timer's transition;
  - `SetLocation.AutoAdvance` leaves out the 500 ms delay;
  - `ChangePickup.ChangePickupScreen.FetchSuggestions` is one completed lookup, without the debounce, the 300 ms latency or the loading flag;
  - the waiting-to-during and during-to-post timers are left out;
  - the chat screens' canned replies a second later are left out.
- Time and locale:
  - The current time is a parameter `now`.
  - Each handler reads the clock on its own. The dashboard's cancel check and the ledger's credit check are two readings, `now` and `later`, with the confirmation dialog between them (see "## Findings").
  - For an immediate ride, the locale renderings of the current date and time are parameters of `App.NewRide`.
  - The schedule-ride date list and its display labels are not modelled.
- App.NewRide: the source reads `Date.now()` twice, once for the id and once for `createdAt` (app/page.tsx:183 and :204). The model uses one `now` for both, so it does not capture an id and a `createdAt` a millisecond apart.
- Dashboard.CancelRideDecision: a scheduled ride's start comes from parsing "<date> <time>" in the host's time zone. It is a parameter, with `None` standing for a text that does not parse (which compares false, so the alert is shown). The browser's confirmation dialog is a boolean parameter.
- BookLater.ConfirmBooking: the long locale form of the chosen date is a parameter.
- Random choices: the map click picks a random mock address and takes the pointer position as coordinates. It is not modelled.
- The saved-places store is a sequence of places. Reading and writing it under its storage key, and the JSON round trip, are assumed exact and are not modelled.
- The sign-up data that `UpdateSignupData` carries is an effect. The root's sign-up record is not modelled: nothing in the core reads it.
- ChangePickup.SuggestionsFor: lower-cases ASCII letters only. JavaScript's `toLowerCase` also folds other letters; for example the Kelvin sign becomes "k". A query holding such a letter may match in the source but not in the model.
- Text.Trim: removes the white-space and line-terminator code points that `trim` removes, as single characters. Strings are sequences of characters, not of UTF-16 code units.
- Verification.LastChar: returns the last character of the input. `slice(-1)` returns the last UTF-16 code unit, which for a character outside the Basic Multilingual Plane is a lone low surrogate. Both have length one, so the four-character test in `Verify` is unaffected.
- App.MediRideApp: the ledger, history and profile are updated directly. React's batching of state updates is not modelled.
- Screens that only display data, and the single-guard forms (login, personal info, location, insurance, guardian info, reset password), are not part of this model. Neither is confirm-location, which only passes its state through.
- The class invariant keeps the credit non-negative, which the clamped decrement intends. The code does not enforce this in `updateProfileData`; `App.MediRideApp.UpdateProfileData` states exactly when the invariant survives.

## Findings

| source | as written | input that shows it | evidently intended | confidence | as-written member | corrected member |
|---|---|---|---|---|---|---|
| components/dashboard-screen.tsx:61-69, app/page.tsx:220-226 | the dashboard checks the ten-minute window, then waits on `confirm()`; the ledger reads the clock again before crediting | an immediate ride with createdAt 0, the dialog opened at 599999 ms and confirmed at 600000 ms: the ride is removed and no credit comes back | a cancel the dashboard allowed is credited, i.e. the ledger judges it at the dashboard's reading | low, not executed | Dashboard.CancelConfirmedLateLosesCredit | Dashboard.CancelWindowMatchesLedger |

The ledger's clock is a parameter of `App.MediRideApp.CancelUpcomingRide`. Passing it the dashboard's reading gives the corrected behaviour, and `Dashboard.CancelWindowMatchesLedger` proves that the two then agree.
