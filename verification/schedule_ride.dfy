/**
 * The schedule-ride screen: the half-hour time slots it offers, and the
 * continue handler that passes the chosen date and time on to choose-ride.
 */
module ScheduleRide {
  import opened Wrappers
  import opened Types
  import Text
  import ChooseRide

  const FirstHour: nat := 6
  const SlotCount: nat := 36

  /** `n.toString().padStart(2, "0")`. */
  function TwoDigit(n: nat): string
    requires n < 100
  {
    Text.PadStart(Text.Decimal(n), 2, '0')
  }

  /** The slot value `"HH:MM"` for an hour and a minute. */
  function HourMinute(hour: nat, minute: nat): string
    requires hour < 100 && minute < 100
  {
    TwoDigit(hour) + ":" + TwoDigit(minute)
  }

  /** The hour and minute of the `k`-th slot: every half hour from 06:00. */
  function SlotHour(k: nat): nat { FirstHour + k / 2 }
  function SlotMinute(k: nat): nat { 30 * (k % 2) }

  /** The `k`-th slot value. */
  function SlotValue(k: nat): string
    requires k < SlotCount
  {
    HourMinute(SlotHour(k), SlotMinute(k))
  }

  /** Slot `2 * (hour - 6) + half` is `hour` at minute `30 * half`. */
  lemma SlotAt(hour: nat, half: nat)
    requires FirstHour <= hour < 24 && half < 2
    ensures SlotHour(2 * (hour - FirstHour) + half) == hour
    ensures SlotMinute(2 * (hour - FirstHour) + half) == 30 * half
  {
  }

  /** `generateTimeSlots()`, the values only: hours 6 to 23, minutes 0 and 30. */
  method GenerateTimeSlots() returns (slots: seq<string>)
    ensures |slots| == SlotCount
    ensures forall k :: 0 <= k < |slots| ==> slots[k] == SlotValue(k)
  {
    slots := [];
    var hour: nat := FirstHour;
    while hour < 24
      invariant FirstHour <= hour <= 24
      invariant |slots| == 2 * (hour - FirstHour)
      invariant forall k :: 0 <= k < |slots| ==> slots[k] == SlotValue(k)
    {
      var minute: nat := 0;
      while minute < 60
        invariant minute == 0 || minute == 30 || minute == 60
        invariant |slots| == 2 * (hour - FirstHour) + minute / 30
        invariant forall k :: 0 <= k < |slots| ==> slots[k] == SlotValue(k)
      {
        var half := if minute == 0 then 0 else 1;
        SlotAt(hour, half);
        slots := slots + [HourMinute(hour, minute)];
        minute := minute + 30;
      }
      hour := hour + 1;
    }
  }

  /** The two digits of a number below 100, as characters. */
  function Digits(n: nat): seq<char>
    requires n < 100
  {
    [Text.DigitChar(n / 10), Text.DigitChar(n % 10)]
  }

  /** Slot `k` spelled out: the two digits of its hour, a colon, the two digits of its minute. */
  lemma SlotDigits(k: nat)
    requires k < SlotCount
    ensures SlotValue(k) == Digits(SlotHour(k)) + ":" + Digits(SlotMinute(k))
  {
    Text.TwoDigits(SlotHour(k));
    Text.TwoDigits(SlotMinute(k));
  }

  /** Every slot is `"HH:MM"`: two digits, a colon, two digits. */
  lemma SlotFormat(k: nat)
    requires k < SlotCount
    ensures |SlotValue(k)| == 5 && SlotValue(k)[2] == ':'
    ensures forall i :: 0 <= i < 5 && i != 2 ==> '0' <= SlotValue(k)[i] <= '9'
  {
    SlotDigits(k);
  }

  /** The first slot is 06:00. */
  lemma FirstSlot()
    ensures SlotValue(0) == "06:00"
  {
    SlotDigits(0);
    var h, m := SlotHour(0), SlotMinute(0);
    assert h == 6 && m == 0;
    assert Digits(h) + ":" + Digits(m) == "06:00";
  }

  /** The last slot is 23:30. */
  lemma LastSlot()
    ensures SlotValue(SlotCount - 1) == "23:30"
  {
    SlotDigits(SlotCount - 1);
    var h, m := SlotHour(SlotCount - 1), SlotMinute(SlotCount - 1);
    assert h == 23 && m == 30;
    assert Digits(h) + ":" + Digits(m) == "23:30";
  }

  /** Two strings of equal length that first differ at `i`, where `a` has the smaller character. */
  lemma LessAt(a: string, b: string, i: nat)
    requires i < |a| == |b| && a[..i] == b[..i] && a[i] < b[i]
    ensures Text.LexLess(a, b)
  {
  }

  /** Slot values strictly increase in string order, so the list is sorted and has no repeats. */
  lemma SlotsStrictlyIncrease(i: nat, j: nat)
    requires i < j < SlotCount
    ensures Text.LexLess(SlotValue(i), SlotValue(j))
  {
    SlotDigits(i);
    SlotDigits(j);
    var a, b := SlotValue(i), SlotValue(j);
    var hi, hj := SlotHour(i), SlotHour(j);
    if hi / 10 < hj / 10 {
      LessAt(a, b, 0);
    } else if hi < hj {
      assert hi / 10 == hj / 10 && hi % 10 < hj % 10;
      assert a[..1] == b[..1];
      LessAt(a, b, 1);
    } else {
      assert hi == hj && SlotMinute(i) == 0 && SlotMinute(j) == 30;
      assert a[..3] == b[..3];
      LessAt(a, b, 3);
    }
  }

  /** The payload handed to choose-ride: a scheduled ride. */
  function ScheduledPayload(pickup: string, dropoff: string, date: string, time: string): Payload
  {
    map[
      PickupLocation := Str(pickup),
      DropoffLocation := Str(dropoff),
      ScheduledDate := Str(date),
      ScheduledTime := Str(time),
      IsScheduled := Flag(true)]
  }

  /** `handleContinue()`: moves on only when both a date and a time are selected. */
  function Continue(selectedDate: string, selectedTime: string, pickup: string, dropoff: string): (effects: seq<Effect>)
    ensures selectedDate == "" || selectedTime == "" <==> effects == []
    ensures effects != [] ==>
              && |effects| == 1 && effects[0].Navigate?
              && effects[0].target == ChooseRide
              && effects[0].data.Some?
              && StrField(effects[0].data.value, ScheduledDate) == selectedDate
              && StrField(effects[0].data.value, ScheduledTime) == selectedTime
              && StrField(effects[0].data.value, PickupLocation) == pickup
              && StrField(effects[0].data.value, DropoffLocation) == dropoff
              && FlagField(effects[0].data.value, IsScheduled) == Some(true)
  {
    if selectedDate != "" && selectedTime != "" then
      [Navigate(ChooseRide, Some(ScheduledPayload(pickup, dropoff, selectedDate, selectedTime)))]
    else
      []
  }

  /**
   * A ride continued from here and confirmed on choose-ride is a scheduled
   * booking: it carries the chosen date and time and ends on the
   * reservation-confirmed screen.
   */
  lemma ContinueThenConfirmIsScheduled(selectedDate: string, selectedTime: string, pickup: string, dropoff: string, rideType: string)
    requires selectedDate != "" && selectedTime != "" && rideType != ""
    ensures var props := ChooseRide.PropsFrom(Continue(selectedDate, selectedTime, pickup, dropoff)[0].data, true);
            var effects := ChooseRide.ConfirmRide(Some(rideType), props);
            && |effects| == 2
            && effects[0].BookRide?
            && effects[0].request.isScheduled
            && effects[0].request.scheduledDate == selectedDate
            && effects[0].request.scheduledTime == selectedTime
            && effects[1].Navigate? && effects[1].target == ReservationConfirmed
  {
    var props := ChooseRide.PropsFrom(Continue(selectedDate, selectedTime, pickup, dropoff)[0].data, true);
    assert props.isScheduled == Some(true);
    assert props.scheduledDate == selectedDate && props.scheduledTime == selectedTime;
  }

  /** The screen's own state: the chosen date and time, both empty at first. */
  class ScheduleRideScreen {
    var selectedDate: string
    var selectedTime: string

    constructor ()
      ensures selectedDate == "" && selectedTime == ""
    {
      selectedDate := "";
      selectedTime := "";
    }

    /** Picking a time slot stores its value. */
    method SelectTime(k: nat)
      requires k < SlotCount
      modifies this
      ensures selectedTime == SlotValue(k) && selectedDate == old(selectedDate)
    {
      selectedTime := SlotValue(k);
    }
  }
}
