/** The client's lookup tables and demo data (client/src/lib/mock-data.ts):
    congestion colours and words, facility-type labels and icons, and the
    hourly congestion chart. `Math.random()` is an input. */
module MockData {
  import opened Common
  import opened Decimal

  /** `getCongestionColor`: a colour class per level 1..5, grey otherwise. */
  function CongestionColor(level: int): (c: string)
    ensures 1 <= level <= 5 <==> c != "bg-gray-300"
    ensures level == 1 ==> c == "bg-emerald-500"
    ensures level == 5 ==> c == "bg-red-500"
  {
    match level
    case 1 => "bg-emerald-500"
    case 2 => "bg-lime-500"
    case 3 => "bg-yellow-500"
    case 4 => "bg-orange-500"
    case 5 => "bg-red-500"
    case _ => "bg-gray-300"
  }

  /** `getCongestionText`: a word per level 1..5, "unknown" otherwise. */
  function CongestionText(level: int): (t: string)
    ensures 1 <= level <= 5 <==> t != "알 수 없음"
    ensures level == 1 ==> t == "여유"
    ensures level == 5 ==> t == "매우 혼잡"
  {
    match level
    case 1 => "여유"
    case 2 => "보통"
    case 3 => "약간 혼잡"
    case 4 => "혼잡"
    case 5 => "매우 혼잡"
    case _ => "알 수 없음"
  }

  /** Reads a congestion word back into its level. */
  function LevelOfText(t: string): Option<int> {
    if t == "여유" then Some(1)
    else if t == "보통" then Some(2)
    else if t == "약간 혼잡" then Some(3)
    else if t == "혼잡" then Some(4)
    else if t == "매우 혼잡" then Some(5)
    else None
  }

  /** Reads a colour class back into its level. */
  function LevelOfColor(c: string): Option<int> {
    if c == "bg-emerald-500" then Some(1)
    else if c == "bg-lime-500" then Some(2)
    else if c == "bg-yellow-500" then Some(3)
    else if c == "bg-orange-500" then Some(4)
    else if c == "bg-red-500" then Some(5)
    else None
  }

  /** Each level's word and colour name that level and no other, so the
      five levels look and read differently; anything else falls back. */
  lemma CongestionLabelsDistinct(level: int)
    ensures 1 <= level <= 5 ==> LevelOfText(CongestionText(level)) == Some(level)
    ensures 1 <= level <= 5 ==> LevelOfColor(CongestionColor(level)) == Some(level)
    ensures !(1 <= level <= 5) ==> LevelOfText(CongestionText(level)).None?
    ensures !(1 <= level <= 5) ==> LevelOfColor(CongestionColor(level)).None?
  {
  }

  /** `getFacilityIcon`: the icon name of a facility type; unknown types get
      the building icon, as ETC does. */
  function FacilityIcon(kind: string): (icon: string)
    ensures kind == "CAFETERIA" ==> icon == "Utensils"
    ensures kind == "LIBRARY" ==> icon == "BookOpen"
    ensures kind == "GYM" ==> icon == "Dumbbell"
    ensures kind !in {"CAFETERIA", "LIBRARY", "GYM"} ==> icon == "Building"
  {
    if kind == "CAFETERIA" then "Utensils"
    else if kind == "LIBRARY" then "BookOpen"
    else if kind == "GYM" then "Dumbbell"
    else "Building"
  }

  /** `getFacilityLabel`: the Korean name of a facility type; unknown types
      read "other", as ETC does. */
  function FacilityLabel(kind: string): (text: string)
    ensures kind == "CAFETERIA" ==> text == "식당"
    ensures kind == "LIBRARY" ==> text == "도서관"
    ensures kind == "GYM" ==> text == "헬스장"
    ensures kind !in {"CAFETERIA", "LIBRARY", "GYM"} ==> text == "기타"
  {
    if kind == "CAFETERIA" then "식당"
    else if kind == "LIBRARY" then "도서관"
    else if kind == "GYM" then "헬스장"
    else "기타"
  }

  /** A facility type gets the building icon exactly when it is labelled
      "other". */
  lemma IconMatchesLabel(kind: string)
    ensures FacilityIcon(kind) == "Building" <==> FacilityLabel(kind) == "기타"
  {
  }

  /** One bar of the hourly chart. */
  datatype HourlyPoint = HourlyPoint(hour: string, congestion: int)

  /** The chart's first hour and number of hours. */
  const FirstHour: nat := 9
  const HourCount: nat := 10

  /** The typical congestion of each hour from 9 to 18 o'clock. */
  const BasePattern: seq<int> := [1, 2, 3, 5, 4, 3, 2, 3, 4, 3]

  /** "9시", "10시", ...: the hour and the hour suffix. */
  function HourLabel(h: nat): string {
    Digits(h) + "시"
  }

  /** Reads an hour label back. */
  function ParseHourLabel(s: string): Option<nat> {
    if |s| >= 2 && s[|s| - 1] == '시' && AllDigits(s[..|s| - 1]) then Some(Value(s[..|s| - 1]))
    else None
  }

  lemma ParseHourLabelOf(h: nat)
    ensures ParseHourLabel(HourLabel(h)) == Some(h)
  {
    assert HourLabel(h)[..|HourLabel(h)| - 1] == Digits(h);
    ValueOfDigits(h);
  }

  /** One bar: the base value plus a draw of 0 or 1, minus one, kept within
      1..5. */
  function Bar(hour: nat, base: int, r: RandomValue): (p: HourlyPoint)
    requires 1 <= base <= 5
    ensures ParseHourLabel(p.hour) == Some(hour)
    ensures 1 <= p.congestion <= 5
    ensures p.congestion == base || p.congestion == base - 1
    ensures r < 0.5 ==> p.congestion == Max(1, base - 1)
    ensures r >= 0.5 ==> p.congestion == base
  {
    ParseHourLabelOf(hour);
    DrawOfTwo(r);
    HourlyPoint(HourLabel(hour), Clamp(base + FloorScaled(r, 2) - 1, 1, 5))
  }

  /** `generateHourlyData`: one bar per hour from 9 o'clock, over the base
      pattern. `draw(i)` is the `Math.random()` of the i-th bar. */
  function HourlyData(draw: nat -> RandomValue): (points: seq<HourlyPoint>)
    ensures |points| == HourCount
    ensures forall i :: 0 <= i < HourCount ==>
              && ParseHourLabel(points[i].hour) == Some(FirstHour + i)
              && 1 <= points[i].congestion <= 5
              && (points[i].congestion == BasePattern[i] || points[i].congestion == BasePattern[i] - 1)
              && (draw(i) < 0.5 ==> points[i].congestion == Max(1, BasePattern[i] - 1))
              && (draw(i) >= 0.5 ==> points[i].congestion == BasePattern[i])
  {
    var points := seq(HourCount, i requires 0 <= i < HourCount => Bar(FirstHour + i, BasePattern[i], draw(i)));
    assert forall i :: 0 <= i < HourCount ==> points[i] == Bar(FirstHour + i, BasePattern[i], draw(i));
    points
  }

  /** `Math.floor(Math.random() * 2)` is 0 below one half and 1 from it. */
  lemma DrawOfTwo(r: RandomValue)
    ensures FloorScaled(r, 2) == 0 <==> r < 0.5
  {
    if r < 0.5 {
      assert r * 2.0 < 1.0;
    } else {
      assert r * 2.0 >= 1.0;
    }
  }
}
