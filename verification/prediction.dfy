/** Time-slot congestion and wait-time prediction (client/src/lib/prediction.ts).
    A slot's hour and minute scale the live value by a meal-period multiplier;
    for dates other than today a random factor is applied on top. Multipliers
    are exact rationals here (IEEE rounding at exact halves is not modelled);
    "is the date today" and the current time of day are inputs. */
module Prediction {
  import opened Common
  import opened Schema

  /** Milliseconds since local midnight. */
  type DayMs = n: int | 0 <= n < 86_400_000

  /** The menu text shown for dates whose menus are not known yet. */
  const FutureMenuPlaceholder: string := "[음식메뉴] - 추후구현"

  /** The congestion multiplier of a slot: lunch hour 12 peaks at 1.5, the
      rest of 11-13 gives 1.3, dinner 17-19 1.2, breakfast 7-9 0.8,
      afternoon 14-16 0.7 and every other hour 0.6. */
  function CongestionMultiplier(hour: int, minute: int): (m: real)
    ensures 0.6 <= m <= 1.5
    ensures m == 1.5 <==> hour == 12 && minute >= 0
    ensures m > 1.0 <==> 11 <= hour <= 13 || 17 <= hour <= 19
    ensures hour == 11 || hour == 13 || (hour == 12 && minute < 0) ==> m == 1.3
    ensures 17 <= hour <= 19 ==> m == 1.2
    ensures 7 <= hour <= 9 ==> m == 0.8
    ensures 14 <= hour <= 16 ==> m == 0.7
    ensures hour == 10 || !(7 <= hour <= 19) ==> m == 0.6
  {
    if hour >= 12 && hour <= 12 && minute >= 0 then 1.5
    else if hour >= 11 && hour <= 13 then 1.3
    else if hour >= 17 && hour <= 19 then 1.2
    else if hour >= 7 && hour <= 9 then 0.8
    else if hour >= 14 && hour <= 16 then 0.7
    else 0.6
  }

  /** The wait-time multiplier of a slot: 12:00-12:30 peaks at 1.6, the rest
      of 11-13 gives 1.4, dinner 1.3, breakfast 0.7, afternoon 0.6 and every
      other hour 0.5. */
  function WaitTimeMultiplier(hour: int, minute: int): (m: real)
    ensures 0.5 <= m <= 1.6
    ensures m == 1.6 <==> hour == 12 && 0 <= minute <= 30
    ensures m > 1.0 <==> 11 <= hour <= 13 || 17 <= hour <= 19
    ensures hour == 11 || hour == 13 || (hour == 12 && !(0 <= minute <= 30)) ==> m == 1.4
    ensures 17 <= hour <= 19 ==> m == 1.3
    ensures 7 <= hour <= 9 ==> m == 0.7
    ensures 14 <= hour <= 16 ==> m == 0.6
    ensures hour == 10 || !(7 <= hour <= 19) ==> m == 0.5
  {
    if hour == 12 && minute >= 0 && minute <= 30 then 1.6
    else if hour >= 11 && hour <= 13 then 1.4
    else if hour >= 17 && hour <= 19 then 1.3
    else if hour >= 7 && hour <= 9 then 0.7
    else if hour >= 14 && hour <= 16 then 0.6
    else 0.5
  }

  /** The range of the jitter factor for another day's congestion. */
  const CongestionJitterMin: real := 0.9
  const CongestionJitterMax: real := 1.1

  /** The jitter factor for another day's congestion: 0.9 + r * 0.2. */
  function CongestionJitter(r: RandomValue): (f: real)
    ensures CongestionJitterMin <= f < CongestionJitterMax
  {
    0.9 + r * 0.2
  }

  /** The range of the jitter factor for another day's wait time. */
  const WaitTimeJitterMin: real := 0.85
  const WaitTimeJitterMax: real := 1.15

  /** The jitter factor for another day's wait time: 0.85 + r * 0.3. */
  function WaitTimeJitter(r: RandomValue): (f: real)
    ensures WaitTimeJitterMin <= f < WaitTimeJitterMax
  {
    0.85 + r * 0.3
  }

  lemma RoundMonotone(x: real, y: real)
    requires x <= y
    ensures RoundHalfUp(x) <= RoundHalfUp(y)
  {
  }

  /** Scaling a non-negative amount by factors between `lo` and `hi` stays
      between the scaled extremes. */
  lemma ScaleBetween(a: real, f: real, lo: real, hi: real)
    requires a >= 0.0 && lo <= f <= hi
    ensures a * lo <= a * f <= a * hi
  {
    assert a * f - a * lo == a * (f - lo);
    assert a * hi - a * f == a * (hi - f);
  }

  /** `Math.round(base * multiplier)`. */
  function Scale(base: int, multiplier: real): int {
    RoundHalfUp(base as real * multiplier)
  }

  /** Rounding a base scaled by `m * f` lands between rounding it scaled by
      the extreme factors. */
  lemma RoundedBetween(b: int, m: real, f: real, lo: real, hi: real)
    requires b >= 0 && m >= 0.0 && lo <= f <= hi
    ensures Scale(b, m * lo) <= Scale(b, m * f) <= Scale(b, m * hi)
  {
    ScaleBetween(m, f, lo, hi);
    ScaleBetween(b as real, m * f, m * lo, m * hi);
    RoundMonotone(b as real * (m * lo), b as real * (m * f));
    RoundMonotone(b as real * (m * f), b as real * (m * hi));
  }

  /** The same bounds after clamping to a congestion level or flooring at
      one minute, both of which are monotone. */
  lemma ClampedBetween(b: int, m: real, f: real, lo: real, hi: real)
    requires b >= 0 && m >= 0.0 && lo <= f <= hi
    ensures Clamp(Scale(b, m * lo), 1, 5) <= Clamp(Scale(b, m * f), 1, 5) <= Clamp(Scale(b, m * hi), 1, 5)
    ensures Max(1, Scale(b, m * lo)) <= Max(1, Scale(b, m * f)) <= Max(1, Scale(b, m * hi))
  {
    RoundedBetween(b, m, f, lo, hi);
  }

  /** `calculatePredictedCongestion`: round the scaled base and clamp it to
      1..5; for another day the multiplier carries a jitter factor. */
  function PredictedCongestion(base: int, hour: int, minute: int, isToday: bool, r: RandomValue): (p: int)
    ensures IsCongestionLevel(p)
  {
    var m := CongestionMultiplier(hour, minute);
    Clamp(Scale(base, if isToday then m else m * CongestionJitter(r)), 1, 5)
  }

  /** For another day the predicted congestion lies between the predictions
      at the extreme jitter factors 0.9 and 1.1. */
  lemma OtherDayCongestionBounds(base: int, hour: int, minute: int, r: RandomValue)
    requires base >= 0
    ensures var m := CongestionMultiplier(hour, minute);
            Clamp(Scale(base, m * CongestionJitterMin), 1, 5) <= PredictedCongestion(base, hour, minute, false, r)
            <= Clamp(Scale(base, m * CongestionJitterMax), 1, 5)
  {
    ClampedBetween(base, CongestionMultiplier(hour, minute), CongestionJitter(r), CongestionJitterMin, CongestionJitterMax);
  }

  /** Scaling by at least one never lowers a non-negative base; scaling by
      at most one never raises it. */
  lemma ScaleVersusOne(b: int, m: real)
    requires b >= 0 && m >= 0.0
    ensures m >= 1.0 ==> Scale(b, m) >= b
    ensures m <= 1.0 ==> Scale(b, m) <= b
  {
    if m >= 1.0 {
      ScaleUp(b, m);
    }
    if m <= 1.0 {
      ScaleDown(b, m);
    }
  }

  lemma ScaleUp(b: int, m: real)
    requires b >= 0 && m >= 1.0
    ensures Scale(b, m) >= b
  {
    var x := b as real;
    ProductAtLeast(x, m);
    RoundMonotone(x, x * m);
    RoundOfInteger(b);
  }

  lemma ScaleDown(b: int, m: real)
    requires b >= 0 && 0.0 <= m <= 1.0
    ensures Scale(b, m) <= b
  {
    var x := b as real;
    ProductAtMost(x, m);
    RoundMonotone(x * m, x);
    RoundOfInteger(b);
  }

  lemma ProductAtLeast(x: real, m: real)
    requires x >= 0.0 && m >= 1.0
    ensures x <= x * m
  {
    assert x * m - x == x * (m - 1.0);
  }

  lemma ProductAtMost(x: real, m: real)
    requires x >= 0.0 && m <= 1.0
    ensures x * m <= x
  {
    assert x - x * m == x * (1.0 - m);
  }

  lemma RoundOfInteger(b: int)
    ensures RoundHalfUp(b as real) == b
  {
  }

  /** For today, a meal-peak slot (multiplier above one) never predicts less
      congestion than the live level, and a quiet slot never more. */
  lemma TodayCongestionFollowsPeaks(base: int, hour: int, minute: int, r: RandomValue)
    requires IsCongestionLevel(base)
    ensures CongestionMultiplier(hour, minute) > 1.0 ==> PredictedCongestion(base, hour, minute, true, r) >= base
    ensures CongestionMultiplier(hour, minute) < 1.0 ==> PredictedCongestion(base, hour, minute, true, r) <= base
  {
    ScaleVersusOne(base, CongestionMultiplier(hour, minute));
  }

  /** `calculatePredictedWaitTime`: round the scaled base, at least one
      minute; for another day the multiplier carries a jitter factor. */
  function PredictedWaitTime(base: int, hour: int, minute: int, isToday: bool, r: RandomValue): (p: int)
    ensures p >= 1
  {
    var m := WaitTimeMultiplier(hour, minute);
    Max(1, Scale(base, if isToday then m else m * WaitTimeJitter(r)))
  }

  /** For another day the predicted wait lies between the predictions at the
      extreme jitter factors 0.85 and 1.15. */
  lemma OtherDayWaitTimeBounds(base: int, hour: int, minute: int, r: RandomValue)
    requires base >= 0
    ensures var m := WaitTimeMultiplier(hour, minute);
            Max(1, Scale(base, m * WaitTimeJitterMin)) <= PredictedWaitTime(base, hour, minute, false, r)
            <= Max(1, Scale(base, m * WaitTimeJitterMax))
  {
    ClampedBetween(base, WaitTimeMultiplier(hour, minute), WaitTimeJitter(r), WaitTimeJitterMin, WaitTimeJitterMax);
  }

  /** For today, a meal-peak slot never predicts a shorter wait than the
      live one, and a quiet slot never a longer one (beyond the one-minute
      floor). */
  lemma TodayWaitFollowsPeaks(base: int, hour: int, minute: int, r: RandomValue)
    requires base >= 1
    ensures WaitTimeMultiplier(hour, minute) > 1.0 ==> PredictedWaitTime(base, hour, minute, true, r) >= base
    ensures WaitTimeMultiplier(hour, minute) < 1.0 ==> PredictedWaitTime(base, hour, minute, true, r) <= base
  {
    ScaleVersusOne(base, WaitTimeMultiplier(hour, minute));
  }

  /** For today no jitter applies: the prediction is the one another day
      would get from the middle draw 0.5, whose factor is exactly one, so
      it does not depend on the draw. */
  lemma TodayIsUnjittered(base: int, hour: int, minute: int, r: RandomValue)
    ensures PredictedCongestion(base, hour, minute, true, r) == PredictedCongestion(base, hour, minute, false, 0.5)
    ensures PredictedWaitTime(base, hour, minute, true, r) == PredictedWaitTime(base, hour, minute, false, 0.5)
  {
    assert CongestionJitter(0.5) == 1.0;
    assert WaitTimeJitter(0.5) == 1.0;
  }

  /** For today the predicted congestion is the level nearest to the scaled
      base, or the nearer end of 1..5 when the scaled base lies outside. */
  lemma TodayCongestionIsNearest(base: int, hour: int, minute: int, r: RandomValue)
    ensures var x, p := base as real * CongestionMultiplier(hour, minute), PredictedCongestion(base, hour, minute, true, r);
            && (0.5 <= x < 5.5 ==> p as real - 0.5 <= x < p as real + 0.5)
            && (x < 0.5 ==> p == 1)
            && (x >= 5.5 ==> p == 5)
  {
  }

  /** For today the predicted wait is the whole minute nearest to the scaled
      base, and one minute when that would be less. */
  lemma TodayWaitIsNearest(base: int, hour: int, minute: int, r: RandomValue)
    ensures var x, p := base as real * WaitTimeMultiplier(hour, minute), PredictedWaitTime(base, hour, minute, true, r);
            && (x >= 0.5 ==> p as real - 0.5 <= x < p as real + 0.5)
            && (x < 0.5 ==> p == 1)
  {
  }

  /** When the slot starts today: `setHours(hour, minute, 0, 0)` relative to
      local midnight (an hour past 23 rolls into the next day). */
  function SlotStartMs(hour: int, minute: int): int {
    (hour * 60 + minute) * 60_000
  }

  /** `shouldShowPrediction`: always for another day; for today only while
      the slot has not started yet. */
  function ShouldShowPrediction(isToday: bool, hour: int, minute: int, now: DayMs): (show: bool)
    ensures !isToday ==> show
    ensures isToday ==> (show <==> SlotStartMs(hour, minute) > now)
  {
    if !isToday then true else SlotStartMs(hour, minute) > now
  }

  /** JavaScript truthiness of an optional string: present and non-empty. */
  predicate Truthy(s: Option<string>) {
    s.Some? && s.value != ""
  }

  /** `corner.waitTime || 5`: a wait time of 0 is predicted as if it were 5. */
  function WaitTimeBase(w: int): (b: int)
    ensures w != 0 ==> b == w
    ensures w == 0 ==> b == 5
  {
    if w != 0 then w else 5
  }

  /** One corner of the predicted view. `rc`/`rw` are its congestion and
      wait-time draws. */
  function PredictCorner(c: Corner, hour: int, minute: int, isToday: bool, show: bool,
                         rc: RandomValue, rw: RandomValue): (p: Corner)
    ensures p == c.(congestion := p.congestion, waitTime := p.waitTime, menu := p.menu)
    ensures !show ==> p.congestion == c.congestion && p.waitTime == c.waitTime
    ensures show ==> p.congestion == PredictedCongestion(c.congestion, hour, minute, isToday, rc)
    ensures show ==> p.waitTime == PredictedWaitTime(WaitTimeBase(c.waitTime), hour, minute, isToday, rw)
    ensures p.menu == (if !isToday && Truthy(c.menu) then Some(FutureMenuPlaceholder) else c.menu)
  {
    c.(congestion := if show then PredictedCongestion(c.congestion, hour, minute, isToday, rc) else c.congestion,
       waitTime := if show then PredictedWaitTime(WaitTimeBase(c.waitTime), hour, minute, isToday, rw) else c.waitTime,
       menu := if !isToday && Truthy(c.menu) then Some(FutureMenuPlaceholder) else c.menu)
  }

  /** `getPredictedFacility`: the facility as it is predicted to look at the
      slot, always a facility and never null. `draws(0)` is the
      average's draw, `draws(2j+1)`/`draws(2j+2)` corner j's. */
  function PredictedFacility(f: Facility, hour: int, minute: int, isToday: bool, now: DayMs,
                             draws: nat -> RandomValue): (p: Facility)
    ensures p == f.(avgCongestion := p.avgCongestion, corners := p.corners)
    ensures |p.corners| == |f.corners|
    ensures forall j :: 0 <= j < |f.corners| ==>
              p.corners[j] == f.corners[j].(congestion := p.corners[j].congestion,
                                            waitTime := p.corners[j].waitTime,
                                            menu := p.corners[j].menu)
    ensures !ShouldShowPrediction(isToday, hour, minute, now) ==>
              && p.avgCongestion == f.avgCongestion
              && forall j :: 0 <= j < |f.corners| ==>
                   p.corners[j].congestion == f.corners[j].congestion
                   && p.corners[j].waitTime == f.corners[j].waitTime
    ensures ShouldShowPrediction(isToday, hour, minute, now) ==>
              && IsCongestionLevel(p.avgCongestion)
              && forall j :: 0 <= j < |f.corners| ==>
                   IsCongestionLevel(p.corners[j].congestion) && p.corners[j].waitTime >= 1
    ensures ShouldShowPrediction(isToday, hour, minute, now) ==>
              p.avgCongestion == PredictedCongestion(f.avgCongestion, hour, minute, isToday, draws(0))
    ensures forall j :: 0 <= j < |f.corners| ==>
              p.corners[j] == PredictCorner(f.corners[j], hour, minute, isToday,
                                            ShouldShowPrediction(isToday, hour, minute, now),
                                            draws(2 * j + 1), draws(2 * j + 2))
    // A corner without a recorded wait time is predicted from five minutes.
    ensures ShouldShowPrediction(isToday, hour, minute, now) ==>
              forall j :: 0 <= j < |f.corners| && f.corners[j].waitTime == 0 ==>
                p.corners[j].waitTime == PredictedWaitTime(5, hour, minute, isToday, draws(2 * j + 2))
    ensures forall j :: 0 <= j < |f.corners| ==>
              (p.corners[j].menu == Some(FutureMenuPlaceholder) && f.corners[j].menu != Some(FutureMenuPlaceholder)
               ==> !isToday && Truthy(f.corners[j].menu))
    ensures forall j :: 0 <= j < |f.corners| ==>
              (!isToday && Truthy(f.corners[j].menu) ==> p.corners[j].menu == Some(FutureMenuPlaceholder))
              && (!(!isToday && Truthy(f.corners[j].menu)) ==> p.corners[j].menu == f.corners[j].menu)
  {
    var show := ShouldShowPrediction(isToday, hour, minute, now);
    var corners := seq(|f.corners|, j requires 0 <= j < |f.corners| =>
                         PredictCorner(f.corners[j], hour, minute, isToday, show, draws(2 * j + 1), draws(2 * j + 2)));
    assert forall j :: 0 <= j < |f.corners| ==>
             corners[j] == PredictCorner(f.corners[j], hour, minute, isToday, show, draws(2 * j + 1), draws(2 * j + 2));
    f.(avgCongestion := if show then PredictedCongestion(f.avgCongestion, hour, minute, isToday, draws(0))
                        else f.avgCongestion,
       corners := corners)
  }

  /** For today, the slot the clock is in has already started, so the live
      values are shown for it; the following half-hour slot is predicted. */
  lemma CurrentSlotShowsLiveValues(hour: int, minute: int, second: int, milli: int)
    requires 0 <= hour < 24 && 0 <= minute < 60 && 0 <= second < 60 && 0 <= milli < 1000
    ensures var now := ((hour * 60 + minute) * 60 + second) * 1000 + milli;
            var slotMinute := if minute < 30 then 0 else 30;
            && 0 <= now < 86_400_000
            && !ShouldShowPrediction(true, hour, slotMinute, now)
            && ShouldShowPrediction(true, hour, slotMinute + 30, now)
  {
  }
}
