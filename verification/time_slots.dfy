/** The half-hour slots of the prediction time picker
    (client/src/components/TimeSlotSelector.tsx:12-41): slots from 06:00 to
    22:30, the slot the clock is in, and the part of the list shown for
    today. */
module TimeSlots {
  import opened Common
  import opened Decimal

  type Hour = h: int | 0 <= h < 24
  type Minute = m: int | 0 <= m < 60

  /** "HH:00" or "HH:30": the hour padded to two digits (`TwoDigits` is
      `padStart(2, "0")` for numbers below 100, see `TwoDigitsIsZeroPad`). */
  function SlotText(hour: nat, half: bool): (s: string)
    requires hour < 100
    ensures |s| == 5 && s[2] == ':'
  {
    TwoDigits(hour) + ":" + (if half then "30" else "00")
  }

  /** Reads "HH:MM" back into its hour and minute. */
  function ParseSlot(s: string): Option<(nat, nat)> {
    if |s| == 5 && s[2] == ':' && AllDigits(s[..2]) && AllDigits(s[3..]) then
      Some((Value(s[..2]), Value(s[3..])))
    else None
  }

  lemma ParseSlotText(hour: nat, half: bool)
    requires hour < 100
    ensures ParseSlot(SlotText(hour, half)) == Some((hour, if half then 30 else 0))
  {
    var s := SlotText(hour, half);
    assert s[..2] == TwoDigits(hour);
    TwoDigitsValue(hour);
    if half {
      assert s[3..] == "30";
      assert Value("30") == 30 by { assert "30"[..1] == "3"; }
    } else {
      assert s[3..] == "00";
      assert Value("00") == 0 by { assert "00"[..1] == "0"; }
    }
  }

  /** Different (hour, half) pairs give different slot texts. */
  lemma SlotTextInjective(h1: nat, half1: bool, h2: nat, half2: bool)
    requires h1 < 100 && h2 < 100
    requires SlotText(h1, half1) == SlotText(h2, half2)
    ensures h1 == h2 && half1 == half2
  {
    ParseSlotText(h1, half1);
    ParseSlotText(h2, half2);
  }

  /** The number of slots: two per hour from 6 to 22. */
  const SlotCount: nat := 34

  /** The slot list in closed form: slot i is hour 6 + i/2, on the half hour
      when i is odd. */
  function AllSlots(): (slots: seq<string>)
    ensures |slots| == SlotCount
    ensures forall i :: 0 <= i < SlotCount ==> slots[i] == SlotText(6 + i / 2, i % 2 == 1)
  {
    seq(SlotCount, i requires 0 <= i < SlotCount => SlotText(6 + i / 2, i % 2 == 1))
  }

  /** `generateTimeSlots`: the loop over hours 6..22 pushing ":00" then ":30". */
  method GenerateTimeSlots() returns (slots: seq<string>)
    ensures slots == AllSlots()
  {
    slots := [];
    var hour := 6;
    while hour <= 22
      invariant 6 <= hour <= 23
      invariant |slots| == 2 * (hour - 6)
      invariant slots == AllSlots()[..|slots|]
    {
      var k := |slots|;
      assert k / 2 == hour - 6 && k % 2 == 0;
      assert (k + 1) / 2 == hour - 6 && (k + 1) % 2 == 1;
      assert AllSlots()[..k + 2] == AllSlots()[..k] + [AllSlots()[k], AllSlots()[k + 1]];
      slots := slots + [SlotText(hour, false), SlotText(hour, true)];
      hour := hour + 1;
    }
  }

  /** Minutes since midnight of slot i. */
  function SlotMinutes(i: int): int
    requires 0 <= i < SlotCount
  {
    var p := ParseSlot(AllSlots()[i]);
    if p.Some? then p.value.0 * 60 + p.value.1 else -1
  }

  /** The list starts at "06:00", ends at "22:30", and reads as strictly
      increasing clock times. */
  lemma SlotsAscending()
    ensures forall i :: 0 <= i < SlotCount ==> SlotMinutes(i) == 360 + 30 * i
    ensures SlotMinutes(0) == 6 * 60 && SlotMinutes(SlotCount - 1) == 22 * 60 + 30
    ensures forall i, j :: 0 <= i < j < SlotCount ==> SlotMinutes(i) < SlotMinutes(j)
  {
    forall i | 0 <= i < SlotCount ensures SlotMinutes(i) == 360 + 30 * i {
      SlotMinutesAt(i);
    }
  }

  lemma SlotMinutesAt(i: int)
    requires 0 <= i < SlotCount
    ensures SlotMinutes(i) == 360 + 30 * i
  {
    var h, half := 6 + i / 2, i % 2 == 1;
    assert AllSlots()[i] == SlotText(h, half);
    ParseSlotText(h, half);
    assert i == 2 * (i / 2) + i % 2;
  }

  /** `getCurrentTimeSlot`: the hour, then ":00" before half past and ":30"
      from half past on. */
  function CurrentTimeSlot(hour: Hour, minute: Minute): (s: string)
    ensures s == SlotText(hour, minute >= 30)
    ensures ParseSlot(s) == Some((hour as nat, if minute < 30 then 0 else 30))
  {
    ParseSlotText(hour, minute >= 30);
    SlotText(hour, minute >= 30)
  }

  /** `slots.indexOf(s)`: the first position of `s`, or -1. */
  function IndexOf(slots: seq<string>, s: string): (k: int)
    ensures -1 <= k < |slots|
    ensures k == -1 <==> s !in slots
    ensures k >= 0 ==> slots[k] == s && forall j :: 0 <= j < k ==> slots[j] != s
  {
    if |slots| == 0 then -1
    else if slots[0] == s then 0
    else
      var k := IndexOf(slots[1..], s);
      if k == -1 then -1 else k + 1
  }

  /** In the generated list (slot i is hour 6 + i/2, half past when i is
      odd), the current slot appears exactly when the hour is 6 to 22, and
      then at position 2 * (hour - 6), plus one from half past. */
  lemma CurrentSlotListed(slots: seq<string>, hour: Hour, minute: Minute)
    requires |slots| == SlotCount
    requires forall i :: 0 <= i < SlotCount ==> slots[i] == SlotText(6 + i / 2, i % 2 == 1)
    ensures CurrentTimeSlot(hour, minute) in slots <==> 6 <= hour <= 22
    ensures 6 <= hour <= 22 ==>
              IndexOf(slots, CurrentTimeSlot(hour, minute)) == 2 * (hour - 6) + (if minute < 30 then 0 else 1)
  {
    var s := CurrentTimeSlot(hour, minute);
    var k := 2 * (hour - 6) + (if minute < 30 then 0 else 1);
    forall i | 0 <= i < SlotCount && slots[i] == s
      ensures 6 <= hour <= 22 && i == k
    {
      SlotTextInjective(6 + i / 2, i % 2 == 1, hour, minute >= 30);
      assert i == 2 * (i / 2) + i % 2;
    }
    if 6 <= hour <= 22 {
      assert k / 2 == hour - 6 && (k % 2 == 1 <==> minute >= 30);
      assert slots[k] == s;
      IndexOfOnly(slots, s, k);
    }
  }

  /** A text found at position `k` and nowhere else has index `k`. */
  lemma IndexOfOnly(slots: seq<string>, s: string, k: int)
    requires 0 <= k < |slots| && slots[k] == s
    requires forall i :: 0 <= i < |slots| && slots[i] == s ==> i == k
    ensures IndexOf(slots, s) == k
  {
  }

  /** `visibleSlots`: every slot for another day; for today the slots from
      four before the current one (from the start when it is absent). */
  function VisibleSlots(isToday: bool, slots: seq<string>, current: string): (v: seq<string>)
    ensures !isToday ==> v == slots
    ensures isToday && current !in slots ==> v == slots
    ensures isToday ==> v == slots[Max(0, IndexOf(slots, current) - 4)..]
  {
    if isToday then slots[Max(0, IndexOf(slots, current) - 4)..] else slots
  }

  /** When the current slot is at position 4 or later, today's view starts
      exactly four slots before it and shows it fifth. */
  lemma VisibleWindow(slots: seq<string>, current: string)
    requires IndexOf(slots, current) >= 4
    ensures var v := VisibleSlots(true, slots, current);
            && |v| >= 5
            && v[0] == slots[IndexOf(slots, current) - 4]
            && v[4] == current
  {
  }
}
