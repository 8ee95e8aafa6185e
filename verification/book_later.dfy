/**
 * The book-later screen: a date and a 12-hour time slot, confirmed into a
 * `bookingDateTime` text handed to set-location.
 */
module BookLater {
  import opened Wrappers
  import opened Types
  import Text
  import App

  const SlotCount: nat := 48
  const DefaultTime := "09:00 AM"
  const SelectBothMessage := "Please select both a date and a time."

  /** The 12-hour clock's hour for hour `i` of the day: 12 for 0 and 12, `i % 12` otherwise. */
  function Hour12(i: nat): (h: nat)
    ensures 1 <= h <= 12
    ensures h == 12 <==> i % 12 == 0
    ensures i % 12 != 0 ==> h == i % 12
  {
    if i % 12 == 0 then 12 else i % 12
  }

  function MinuteLabel(half: nat): string
  {
    if half == 0 then "00" else "30"
  }

  function Meridiem(i: nat): string
  {
    if i < 12 then "AM" else "PM"
  }

  /** The label of slot `k`: hour `k / 2` of the day, on the hour or at half past. */
  function SlotLabel(k: nat): string
    requires k < SlotCount
  {
    Text.Decimal(Hour12(k / 2)) + ":" + MinuteLabel(k % 2) + " " + Meridiem(k / 2)
  }

  /** `generateTimeSlots()`: two labels for each hour of the day. */
  method GenerateTimeSlots() returns (slots: seq<string>)
    ensures |slots| == SlotCount
    ensures forall k :: 0 <= k < |slots| ==> slots[k] == SlotLabel(k)
  {
    slots := [];
    var i: nat := 0;
    while i < 24
      invariant i <= 24
      invariant |slots| == 2 * i
      invariant forall k :: 0 <= k < |slots| ==> slots[k] == SlotLabel(k)
    {
      var j: nat := 0;
      while j < 60
        invariant j == 0 || j == 30 || j == 60
        invariant |slots| == 2 * i + j / 30
        invariant forall k :: 0 <= k < |slots| ==> slots[k] == SlotLabel(k)
      {
        var hour := if i % 12 == 0 then 12 else i % 12;
        var minute := if j == 0 then "00" else "30";
        var ampm := if i < 12 then "AM" else "PM";
        var k := |slots|;
        assert k / 2 == i && k % 2 == j / 30;
        slots := slots + [Text.Decimal(hour) + ":" + minute + " " + ampm];
        j := j + 30;
      }
      i := i + 1;
    }
  }

  /**
   * A label splits into its hour number, a colon, the minute text, a space and
   * the AM/PM suffix: hour in 1..12, minutes "00" on even slots and "30" on odd
   * ones, "AM" exactly for the first twelve hours.
   */
  lemma SlotParts(k: nat)
    requires k < SlotCount
    ensures var text := SlotLabel(k);
            var n := |text| - 6;
            && 1 <= n
            && text[..n] == Text.Decimal(Hour12(k / 2))
            && 1 <= Hour12(k / 2) <= 12
            && text[n] == ':'
            && text[n + 1..n + 3] == (if k % 2 == 0 then "00" else "30")
            && text[n + 3] == ' '
            && (text[n + 4..] == "AM" <==> k < 24)
            && (text[n + 4..] == "PM" <==> k >= 24)
  {
    var d := Text.Decimal(Hour12(k / 2));
    Text.DecimalDigits(Hour12(k / 2));
    var text := SlotLabel(k);
    assert text == d + (":" + MinuteLabel(k % 2) + " " + Meridiem(k / 2));
    assert |text| == |d| + 6;
    assert text[..|d|] == d;
  }

  /** The first slot, the one at noon and the last. */
  lemma Landmarks()
    ensures SlotLabel(0) == "12:00 AM"
    ensures SlotLabel(24) == "12:00 PM"
    ensures SlotLabel(SlotCount - 1) == "11:30 PM"
  {
    Text.SmallDecimal(12);
    Text.SmallDecimal(11);
  }

  /** A label names exactly one slot: the 48 labels are all different. */
  lemma SlotsDistinct(a: nat, b: nat)
    requires a < SlotCount && b < SlotCount
    ensures SlotLabel(a) == SlotLabel(b) <==> a == b
  {
    if SlotLabel(a) == SlotLabel(b) {
      var ha, hb := Hour12(a / 2), Hour12(b / 2);
      LabelSplit(a);
      LabelSplit(b);
      SplitEqual(Text.Decimal(ha), Suffix(a), Text.Decimal(hb), Suffix(b));
      Text.DecimalInjective(ha, hb);
      SuffixParts(a, b);
      SameHour(a / 2, b / 2);
      SameHalves(a, b);
    }
  }

  /** What follows the hour number in slot `k`'s label. */
  function Suffix(k: nat): string
  {
    ":" + MinuteLabel(k % 2) + " " + Meridiem(k / 2)
  }

  lemma LabelSplit(k: nat)
    requires k < SlotCount
    ensures SlotLabel(k) == Text.Decimal(Hour12(k / 2)) + Suffix(k)
    ensures |Suffix(k)| == 6
  {
  }

  /** The suffix tells the half hour and the half of the day. */
  lemma SuffixParts(a: nat, b: nat)
    requires Suffix(a) == Suffix(b)
    ensures a % 2 == b % 2 && (a / 2 < 12) == (b / 2 < 12)
  {
    assert Suffix(a)[1] == Suffix(b)[1] && Suffix(a)[4] == Suffix(b)[4];
  }

  lemma SameHalves(a: nat, b: nat)
    requires a % 2 == b % 2 && a / 2 == b / 2
    ensures a == b
  {
  }

  /** Equal concatenations with equally long tails have equal heads and equal tails. */
  lemma SplitEqual(d1: string, t1: string, d2: string, t2: string)
    requires d1 + t1 == d2 + t2 && |t1| == |t2|
    ensures d1 == d2 && t1 == t2
  {
    assert d1 == (d1 + t1)[..|d1|];
    assert d2 == (d2 + t2)[..|d2|];
    assert t1 == (d1 + t1)[|d1|..];
    assert t2 == (d2 + t2)[|d2|..];
  }

  /** Within one half of the day, the 12-hour clock tells the hours apart. */
  lemma SameHour(i: nat, j: nat)
    requires i < 24 && j < 24 && (i < 12) == (j < 12) && Hour12(i) == Hour12(j)
    ensures i == j
  {
  }

  /** No label starts with '0', so the screen's initial time "09:00 AM" is not one of the offered slots. */
  lemma DefaultTimeNotOffered(k: nat)
    requires k < SlotCount
    ensures SlotLabel(k)[0] != '0'
    ensures SlotLabel(k) != DefaultTime
  {
    var d := Text.Decimal(Hour12(k / 2));
    Text.DecimalDigits(Hour12(k / 2));
    assert SlotLabel(k)[0] == d[0];
  }

  /** `handleConfirmBooking()`; `formattedDate` is the chosen date in its long locale form, `None` when no date is chosen. */
  function ConfirmBooking(formattedDate: Option<string>, time: string): (effects: seq<Effect>)
    ensures |effects| == 1
    ensures formattedDate.Some? && time != "" <==> effects[0].Navigate?
    ensures effects[0].Navigate? ==>
              && effects[0].target == SetLocation
              && effects[0].data == Some(map[BookingDateTime := Str(formattedDate.value + " at " + time)])
    ensures !effects[0].Navigate? ==> effects == [Alert(SelectBothMessage)]
  {
    if formattedDate.Some? && time != "" then
      [Navigate(SetLocation, Some(map[BookingDateTime := Str(formattedDate.value + " at " + time)]))]
    else
      [Alert(SelectBothMessage)]
  }

  /**
   * Set-location reads neither field from this payload: it opens with an
   * empty pickup and dropoff, and the chosen date and time go no further.
   */
  lemma BookingTimeNotPassedOn(formattedDate: string, time: string)
    requires time != ""
    ensures var data := ConfirmBooking(Some(formattedDate), time)[0].data;
            && App.SetLocationInitialPickup(data) == ""
            && App.SetLocationInitialDropoff(data) == ""
  {
  }

  /** The screen's own state: the chosen date (in its formatted form) and time. */
  class BookLaterScreen {
    var date: Option<string>
    var time: string

    /** The date starts as today, the time as "09:00 AM". */
    constructor (today: string)
      ensures date == Some(today) && time == DefaultTime
    {
      date := Some(today);
      time := DefaultTime;
    }

    /** Picking a slot from the list. */
    method SelectTime(k: nat)
      requires k < SlotCount
      modifies this
      ensures time == SlotLabel(k) && date == old(date)
    {
      time := SlotLabel(k);
    }
  }
}
