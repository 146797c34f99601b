/** Pickup choices in the cart sheet (client/src/components/CartSheet.tsx):
    the 10-minute scheduled pickup slots, the pickup time handed to payment,
    and the guard in front of the payment dialog.

    The wall clock is an input: `Clock` is the local time of day when the
    sheet renders. Times of day are minutes since today's midnight and may
    run past 24:00; only their hour modulo 24 and their minute are shown. */
module Pickup {
  import opened Common
  import opened Decimal
  import opened TimeSlots

  type Second = s: int | 0 <= s < 60

  datatype Clock = Clock(hour: Hour, minute: Minute, second: Second)

  /** Candidates considered: start + 10, start + 20, ..., start + 60. */
  const CandidateCount: nat := 6
  /** A candidate whose hour (modulo the day) is this or later is dropped. */
  const ClosingHour: nat := 22
  /** "Pick up now" means this many minutes from now. */
  const NowLeadMinutes: nat := 5

  function SecondsOfDay(c: Clock): nat {
    c.hour * 3600 + c.minute * 60 + c.second
  }

  /** `Math.ceil(minutes / 10) * 10`. */
  function RoundUpToStep(m: Minute): (r: nat)
    ensures r % 10 == 0
    ensures m <= r < m + 10
    ensures r <= 60
  {
    (m + 9) / 10 * 10
  }

  /** `startTime`: now with the minutes rounded up and the seconds zeroed
      (`setMinutes(60)` rolls over into the next hour). */
  function StartMinute(c: Clock): (t: nat)
    ensures t % 10 == 0
    ensures c.hour * 60 + c.minute <= t < c.hour * 60 + c.minute + 10
  {
    c.hour * 60 + RoundUpToStep(c.minute)
  }

  /** `addMinutes(startTime, i * 10)`. */
  function CandidateMinute(c: Clock, i: nat): (t: nat)
    ensures t % 10 == 0
  {
    AddTens(StartMinute(c), i);
    StartMinute(c) + 10 * i
  }

  lemma AddTens(a: nat, i: nat)
    requires a % 10 == 0
    ensures (a + 10 * i) % 10 == 0
  {
  }

  /** `getHours()` of a time that may lie past midnight. */
  function HourOf(t: nat): Hour {
    (t / 60) % 24
  }

  /** `format(t, "HH:mm")`. */
  function ClockText(t: nat): (s: string)
    ensures |s| == 5 && s[2] == ':'
  {
    TwoDigits(HourOf(t)) + ":" + TwoDigits(t % 60)
  }

  /** Reads "HH:mm" back into hour and minute. */
  function ParseClock(s: string): Option<(nat, nat)> {
    if |s| == 5 && s[2] == ':' && AllDigits(s[..2]) && AllDigits(s[3..]) then
      Some((Value(s[..2]), Value(s[3..])))
    else None
  }

  /** The text of a time reads back as its hour modulo the day and its
      minute. */
  lemma ParseClockText(t: nat)
    ensures ParseClock(ClockText(t)) == Some((HourOf(t) as nat, t % 60))
  {
    var s := ClockText(t);
    assert s[..2] == TwoDigits(HourOf(t));
    assert s[3..] == TwoDigits(t % 60);
    TwoDigitsValue(HourOf(t));
    TwoDigitsValue(t % 60);
  }

  /** The candidate `i` survives the `getHours() < 22` filter. */
  predicate Kept(c: Clock, i: nat) {
    HourOf(CandidateMinute(c, i)) < ClosingHour
  }

  /** The steps among 1..n that `keep` accepts, in increasing order. */
  function StepsWhere(n: nat, keep: nat -> bool): (ks: seq<nat>)
    ensures |ks| <= n
  {
    if n == 0 then [] else StepsWhere(n - 1, keep) + (if keep(n) then [n] else [])
  }

  predicate Increasing(ks: seq<nat>) {
    forall k, l :: 0 <= k < l < |ks| ==> ks[k] < ks[l]
  }

  /** A step is kept exactly when it lies in 1..n and `keep` accepts it,
      and the kept steps are strictly increasing. */
  lemma {:induction false} StepsWhereSpec(n: nat, keep: nat -> bool)
    ensures forall i :: i in StepsWhere(n, keep) <==> 1 <= i <= n && keep(i)
    ensures Increasing(StepsWhere(n, keep))
  {
    if n > 0 {
      StepsWhereSpec(n - 1, keep);
      var prev, ks := StepsWhere(n - 1, keep), StepsWhere(n, keep);
      forall k | 0 <= k < |prev| ensures ks[k] == prev[k] && ks[k] < n {
        assert prev[k] in prev;
      }
      if keep(n) {
        assert ks == prev + [n];
      } else {
        assert ks == prev;
      }
    }
  }

  /** Accepting every step keeps all n of them. */
  lemma {:induction false} StepsWhereAll(n: nat, keep: nat -> bool)
    requires forall i :: 1 <= i <= n ==> keep(i)
    ensures |StepsWhere(n, keep)| == n
  {
    if n > 0 {
      StepsWhereAll(n - 1, keep);
    }
  }

  /** Accepting no step keeps none. */
  lemma {:induction false} StepsWhereNone(n: nat, keep: nat -> bool)
    requires forall i :: 1 <= i <= n ==> !keep(i)
    ensures StepsWhere(n, keep) == []
  {
    if n > 0 {
      StepsWhereNone(n - 1, keep);
    }
  }

  /** The steps among 1..n whose candidate is kept. */
  function KeptSteps(c: Clock, n: nat): seq<nat> {
    StepsWhere(n, (i: nat) => Kept(c, i))
  }

  /** A candidate step is kept exactly when it lies in 1..n and survives the
      filter, and kept steps come in increasing order. */
  lemma KeptStepsSpec(c: Clock, n: nat)
    ensures forall i :: i in KeptSteps(c, n) <==> 1 <= i <= n && Kept(c, i)
    ensures Increasing(KeptSteps(c, n))
  {
    StepsWhereSpec(n, (i: nat) => Kept(c, i));
  }

  /** The formatted candidates of the given steps. */
  function Texts(c: Clock, ks: seq<nat>): (ts: seq<string>)
    ensures |ts| == |ks|
    ensures forall k :: 0 <= k < |ks| ==> ts[k] == ClockText(CandidateMinute(c, ks[k]))
  {
    seq(|ks|, k requires 0 <= k < |ks| => ClockText(CandidateMinute(c, ks[k])))
  }

  lemma TextsSnoc(c: Clock, ks: seq<nat>, i: nat)
    ensures Texts(c, ks + [i]) == Texts(c, ks) + [ClockText(CandidateMinute(c, i))]
  {
    var l, r := Texts(c, ks + [i]), Texts(c, ks) + [ClockText(CandidateMinute(c, i))];
    forall k | 0 <= k < |l| ensures l[k] == r[k] {
      if k < |ks| {
        assert (ks + [i])[k] == ks[k];
      }
    }
  }

  /** The pickup slots offered at clock `c`: the kept candidates, formatted. */
  function PickupSlots(c: Clock): (slots: seq<string>)
    ensures |slots| <= CandidateCount
  {
    Texts(c, KeptSteps(c, CandidateCount))
  }

  /** `generateTimeSlots`: steps i = 1..6, pushing the formatted candidate
      when its hour is before 22. */
  method GeneratePickupSlots(c: Clock) returns (slots: seq<string>)
    ensures |slots| <= CandidateCount
    ensures slots == PickupSlots(c)
  {
    slots := [];
    var i := 1;
    while i <= CandidateCount
      invariant 1 <= i <= CandidateCount + 1
      invariant slots == Texts(c, KeptSteps(c, i - 1))
    {
      if Kept(c, i) {
        assert KeptSteps(c, i) == KeptSteps(c, i - 1) + [i];
        TextsSnoc(c, KeptSteps(c, i - 1), i);
        slots := slots + [ClockText(CandidateMinute(c, i))];
      } else {
        assert KeptSteps(c, i) == KeptSteps(c, i - 1);
      }
      i := i + 1;
    }
  }

  /** Every offered slot is a kept candidate: it lies strictly after now,
      on a multiple of ten minutes, before 22 o'clock (modulo the day), and
      its text reads back as that hour and minute. */
  lemma PickupSlotAt(c: Clock, k: nat)
    requires k < |PickupSlots(c)|
    ensures var t := CandidateMinute(c, KeptSteps(c, CandidateCount)[k]);
            && t * 60 > SecondsOfDay(c)
            && t % 10 == 0
            && HourOf(t) < ClosingHour
            && ParseClock(PickupSlots(c)[k]) == Some((HourOf(t) as nat, t % 60))
            && (t % 60) % 10 == 0
  {
    var ks := KeptSteps(c, CandidateCount);
    KeptStepsSpec(c, CandidateCount);
    var i := ks[k];
    assert i in ks;
    var t := CandidateMinute(c, i);
    ParseClockText(t);
    assert PickupSlots(c)[k] == ClockText(t);
    MinuteOfTenMinuteTime(t);
  }

  /** The offered slots come in chronological order. */
  lemma PickupSlotsInOrder(c: Clock, k: nat, l: nat)
    requires k < l < |PickupSlots(c)|
    ensures var ks := KeptSteps(c, CandidateCount);
            CandidateMinute(c, ks[k]) + 10 <= CandidateMinute(c, ks[l])
  {
    KeptStepsSpec(c, CandidateCount);
  }

  /** A time on a multiple of ten minutes shows a minute that is one too. */
  lemma MinuteOfTenMinuteTime(t: nat)
    requires t % 10 == 0
    ensures (t % 60) % 10 == 0
  {
    var q := t / 60;
    assert t == 60 * q + t % 60;
    assert (60 * q) % 10 == 0;
  }

  /** Every candidate whose hour is before 22 is offered. */
  lemma PickupSlotsComplete(c: Clock, i: nat)
    requires 1 <= i <= CandidateCount && Kept(c, i)
    ensures ClockText(CandidateMinute(c, i)) in PickupSlots(c)
  {
    var ks := KeptSteps(c, CandidateCount);
    KeptStepsSpec(c, CandidateCount);
    assert i in ks;
    var k :| 0 <= k < |ks| && ks[k] == i;
    assert PickupSlots(c)[k] == ClockText(CandidateMinute(c, i));
  }

  /** Far enough from closing, all six candidates are offered. */
  lemma AllSixBeforeClosing(c: Clock)
    requires StartMinute(c) + 60 < ClosingHour * 60
    ensures |PickupSlots(c)| == CandidateCount
  {
    forall i | 1 <= i <= CandidateCount ensures Kept(c, i) {
      var t := CandidateMinute(c, i);
      assert t / 60 < ClosingHour;
      assert HourOf(t) == t / 60;
    }
    StepsWhereAll(CandidateCount, (i: nat) => Kept(c, i));
  }

  /** Once the first candidate is at or past 22:00 and the last one is
      still before midnight, nothing is offered. */
  lemma NoneAfterClosing(c: Clock)
    requires ClosingHour * 60 <= StartMinute(c) + 10
    requires StartMinute(c) + 60 < 24 * 60
    ensures PickupSlots(c) == []
  {
    forall i | 1 <= i <= CandidateCount ensures !Kept(c, i) {
      LateHour(CandidateMinute(c, i));
    }
    StepsWhereNone(CandidateCount, (i: nat) => Kept(c, i));
  }

  /** The filter looks at the hour modulo the day only, so late in the
      evening, once the first candidate is at or past midnight, all six
      candidates (00:00 to 01:00) are offered again. */
  lemma WrapsPastMidnight(c: Clock)
    requires 24 * 60 <= StartMinute(c) + 10
    ensures |PickupSlots(c)| == CandidateCount
  {
    forall i | 1 <= i <= CandidateCount ensures Kept(c, i) {
      EarlyHour(CandidateMinute(c, i));
    }
    StepsWhereAll(CandidateCount, (i: nat) => Kept(c, i));
  }

  /** A time in the first two hours after midnight shows hour 0 or 1. */
  lemma LateHour(t: nat)
    requires ClosingHour * 60 <= t < 24 * 60
    ensures HourOf(t) >= ClosingHour
  {
    assert ClosingHour <= t / 60 < 24;
  }

  lemma EarlyHour(t: nat)
    requires 24 * 60 <= t < 26 * 60
    ensures HourOf(t) <= 1
  {
    assert 24 <= t / 60 < 26;
  }

  datatype PickupType = Now | Scheduled

  /** `getPickupTime`: now plus five minutes as "HH:mm" (seconds dropped),
      or the selected slot unchanged. */
  function PickupTime(kind: PickupType, now: Clock, selected: string): (s: string)
    ensures kind == Scheduled ==> s == selected
    ensures kind == Now ==> ParseClock(s) == Some((HourOf(LeadMinute(now)) as nat, LeadMinute(now) % 60))
  {
    if kind == Now then
      ParseClockText(LeadMinute(now));
      ClockText(LeadMinute(now))
    else selected
  }

  /** `addMinutes(now, 5)` in whole minutes of the day. */
  function LeadMinute(now: Clock): (t: nat)
    ensures t * 60 > SecondsOfDay(now)
  {
    now.hour * 60 + now.minute + NowLeadMinutes
  }

  /** The payment button's `disabled`: scheduled with nothing selected. */
  predicate PaymentDisabled(kind: PickupType, selected: string) {
    kind == Scheduled && selected == ""
  }

  /** `handleProceedToPayment`: whether the payment dialog opens. */
  function ProceedToPayment(kind: PickupType, selected: string): (opens: bool)
    ensures opens <==> kind.Now? || |selected| > 0
    ensures !opens <==> PaymentDisabled(kind, selected)
  {
    if kind == Scheduled && selected == [] then false else true
  }
}
