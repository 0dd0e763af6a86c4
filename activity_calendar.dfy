/**
 * The activity heat map (src/components/progress/ActivityCalendar.tsx): a
 * window of the last 31 calendar days, the number of recordings on each
 * day, the blank cells that align the first day in a Monday-first grid, the
 * largest count (at least 4), the month labels and the shade of each cell.
 *
 * Days are numbered consecutively in the host's local calendar, day 0 being
 * 1970-01-01. Turning a recording's `date` string into its local day (what
 * `format(new Date(date), "yyyy-MM-dd")` compares) is the parameter `dayOf`,
 * and the `"MMM"` month label of a day is the parameter `monthOf`.
 */
module ActivityCalendar {
  import opened Js
  import opened Store

  type Day = int

  /** `eachDayOfInterval({ start, end })` for `end = start + n - 1`. */
  function DaysFrom(start: Day, n: nat): (days: seq<Day>)
    decreases n
    ensures |days| == n
    ensures forall i :: 0 <= i < n ==> days[i] == start + i
  {
    if n == 0 then [] else [start] + DaysFrom(start + 1, n - 1)
  }

  /** `daysArray`: the days from `subDays(today, 30)` to `today`, both included. */
  function Window(today: Day): seq<Day> {
    DaysFrom(today - 30, 31)
  }

  /** The window holds exactly the 31 days of [today - 30, today], strictly ascending. */
  lemma WindowShape(today: Day)
    ensures |Window(today)| == 31
    ensures Window(today)[0] == today - 30 && Window(today)[30] == today
    ensures forall i, j :: 0 <= i < j < 31 ==> Window(today)[i] < Window(today)[j]
    ensures forall d :: d in Window(today) <==> today - 30 <= d <= today
  {
    var w := Window(today);
    forall d | today - 30 <= d <= today ensures d in w {
      assert w[d - (today - 30)] == d;
    }
    forall d | d in w ensures today - 30 <= d <= today {
      var i :| 0 <= i < 31 && w[i] == d;
    }
  }

  /** The filter of the source: the recording's `date` is a string on day `day`. */
  predicate OnDay(r: Recording, dayOf: string -> Day, day: Day) {
    r.date.Some? && dayOf(r.date.value) == day
  }

  /** `recordings.filter(r => OnDay(r)).length` */
  function CountOn(recs: seq<Recording>, dayOf: string -> Day, day: Day): (n: nat)
    ensures n <= |recs|
  {
    |Filter(recs, r => OnDay(r, dayOf, day))|
  }

  datatype DayCount = DayCount(day: Day, count: nat)

  /** `days.map(day => ({ date: day, count: CountOn(day) }))` */
  function Tally(days: seq<Day>, recs: seq<Recording>, dayOf: string -> Day): (data: seq<DayCount>)
    ensures |data| == |days|
    ensures forall i :: 0 <= i < |days| ==> data[i] == DayCount(days[i], CountOn(recs, dayOf, days[i]))
  {
    if days == [] then [] else [DayCount(days[0], CountOn(recs, dayOf, days[0]))] + Tally(days[1..], recs, dayOf)
  }

  /** `activityData`: one entry per day of the window, days without recordings included. */
  function ActivityData(recs: seq<Recording>, dayOf: string -> Day, today: Day): seq<DayCount> {
    Tally(Window(today), recs, dayOf)
  }

  /** Entry i of the activity data is day today - 30 + i with its count. */
  lemma ActivityDataEntries(recs: seq<Recording>, dayOf: string -> Day, today: Day, i: nat)
    requires i < 31
    ensures |ActivityData(recs, dayOf, today)| == 31
    ensures ActivityData(recs, dayOf, today)[i].day == today - 30 + i
    ensures ActivityData(recs, dayOf, today)[i].count == CountOn(recs, dayOf, today - 30 + i)
  {
  }

  function SumCounts(data: seq<DayCount>): nat {
    if data == [] then 0 else data[0].count + SumCounts(data[1..])
  }

  /** Whether the recording falls on one of the given days. */
  predicate InDays(r: Recording, dayOf: string -> Day, days: seq<Day>) {
    r.date.Some? && dayOf(r.date.value) in days
  }

  /** The number of recordings that fall on one of the given days. */
  function CountIn(recs: seq<Recording>, dayOf: string -> Day, days: seq<Day>): (n: nat)
    ensures n <= |recs|
  {
    |Filter(recs, r => InDays(r, dayOf, days))|
  }

  /** How many of the days the recording r falls on. */
  function Hits(days: seq<Day>, r: Recording, dayOf: string -> Day): nat {
    if days == [] then 0 else (if OnDay(r, dayOf, days[0]) then 1 else 0) + Hits(days[1..], r, dayOf)
  }

  predicate Distinct(days: seq<Day>) {
    forall i, j :: 0 <= i < j < |days| ==> days[i] != days[j]
  }

  /** On distinct days a recording is counted at most once: on its own day, if there. */
  lemma {:induction false} HitsDistinct(days: seq<Day>, r: Recording, dayOf: string -> Day)
    requires Distinct(days)
    ensures Hits(days, r, dayOf) == if InDays(r, dayOf, days) then 1 else 0
  {
    if days != [] {
      HitsDistinct(days[1..], r, dayOf);
      if OnDay(r, dayOf, days[0]) {
        assert dayOf(r.date.value) !in days[1..] by {
          forall k | 0 <= k < |days[1..]| ensures days[1..][k] != days[0] {
            assert days[k + 1] != days[0];
          }
        }
      } else {
        assert InDays(r, dayOf, days) <==> InDays(r, dayOf, days[1..]) by {
          assert days == [days[0]] + days[1..];
        }
      }
    }
  }

  /** Adding one recording in front adds its hits to the tally's total. */
  lemma {:induction false} SumTallyCons(days: seq<Day>, r: Recording, rest: seq<Recording>, dayOf: string -> Day)
    ensures SumCounts(Tally(days, [r] + rest, dayOf)) == Hits(days, r, dayOf) + SumCounts(Tally(days, rest, dayOf))
  {
    if days != [] {
      assert ([r] + rest)[1..] == rest;
      SumTallyCons(days[1..], r, rest, dayOf);
    }
  }

  /**
   * Over distinct days the counts add up to the number of recordings that
   * fall on one of those days: every such recording is counted exactly once
   * and no other recording is counted at all.
   */
  lemma {:induction false} SumTally(days: seq<Day>, recs: seq<Recording>, dayOf: string -> Day)
    requires Distinct(days)
    ensures SumCounts(Tally(days, recs, dayOf)) == CountIn(recs, dayOf, days)
  {
    if recs == [] {
      SumTallyEmpty(days, dayOf);
    } else {
      assert recs == [recs[0]] + recs[1..];
      SumTallyCons(days, recs[0], recs[1..], dayOf);
      HitsDistinct(days, recs[0], dayOf);
      SumTally(days, recs[1..], dayOf);
    }
  }

  lemma {:induction false} SumTallyEmpty(days: seq<Day>, dayOf: string -> Day)
    ensures SumCounts(Tally(days, [], dayOf)) == 0
  {
    if days != [] {
      SumTallyEmpty(days[1..], dayOf);
    }
  }

  /**
   * The heat map's counts add up to the number of recordings with a string
   * date inside the window, so never to more than the number of recordings.
   */
  lemma ActivityTotal(recs: seq<Recording>, dayOf: string -> Day, today: Day)
    ensures SumCounts(ActivityData(recs, dayOf, today)) == CountIn(recs, dayOf, Window(today))
    ensures SumCounts(ActivityData(recs, dayOf, today)) <= |recs|
  {
    WindowShape(today);
    SumTally(Window(today), recs, dayOf);
  }

  /** `Date.prototype.getDay()`: 0 is Sunday, 6 is Saturday; 1970-01-01 was a Thursday. */
  function Weekday(d: Day): (w: nat)
    ensures w < 7
  {
    (d + 4) % 7
  }

  /** `startDay = (getDay(first) + 6) % 7`: the blank cells before `first` in a Monday-first row. */
  function StartDay(first: Day): (k: nat)
    ensures k < 7
    ensures Weekday(first) == 1 ==> k == 0
    ensures Weekday(first) == 0 ==> k == 6
  {
    (Weekday(first) + 6) % 7
  }

  /** Numbers that differ by a multiple of 7 have the same remainder. */
  lemma SameRemainder(a: int, b: int, t: int)
    requires a == b + 7 * t
    ensures a % 7 == b % 7
  {
    var r := b % 7;
    assert b == 7 * (b / 7) + r;
    assert a == 7 * (b / 7 + t) + r;
  }

  /** The blanks before `first` reach back to a Monday. */
  lemma FirstCellIsMonday(first: Day)
    ensures Weekday(first - StartDay(first)) == 1
  {
    var w := (first + 4) % 7;
    var q := (first + 4) / 7;
    assert first + 4 == 7 * q + w;
    var k := StartDay(first);
    if w == 0 {
      assert k == 6;
      SameRemainder(first - k + 4, 1, q - 1);
    } else {
      assert k == w - 1;
      SameRemainder(first - k + 4, 1, q);
    }
  }

  /**
   * The blanks are the days since the last Monday, and after them every day
   * of the window lands in the column of its own weekday (0 = Monday).
   */
  lemma StartDayAligns(first: Day, i: nat)
    ensures Weekday(first - StartDay(first)) == 1
    ensures (StartDay(first) + i) % 7 == (Weekday(first + i) + 6) % 7
  {
    FirstCellIsMonday(first);
    var w, q := (first + 4) % 7, (first + 4) / 7;
    assert first + 4 == 7 * q + w;
    var k := StartDay(first);
    var c := (w + 6) / 7;
    assert w + 6 == 7 * c + k;
    var v, q2 := (first + i + 4) % 7, (first + i + 4) / 7;
    assert first + i + 4 == 7 * q2 + v;
    SameRemainder(k + i, v + 6, q2 - q - c);
  }

  function Max(a: nat, b: nat): nat { if a < b then b else a }

  /** `Math.max(...data.map(d => d.count), 4)` */
  function MaxCount(data: seq<DayCount>): (m: nat)
    ensures m >= 4
    ensures forall i :: 0 <= i < |data| ==> data[i].count <= m
    ensures m == 4 || exists i :: 0 <= i < |data| && data[i].count == m
  {
    if data == [] then 4
    else
      var rest := MaxCount(data[1..]);
      assert forall i :: 1 <= i < |data| ==> data[i] == data[1..][i - 1];
      Max(data[0].count, rest)
  }

  /** `Math.ceil(x)` on rationals. */
  function Ceil(x: real): int {
    -((-x).Floor)
  }

  lemma CeilBounds(x: real)
    ensures (Ceil(x) - 1) as real < x <= Ceil(x) as real
  {
  }

  /** `Math.min(Math.ceil(count / maxCount * 4), 4)`, in exact arithmetic. */
  function Level(count: nat, maxCount: nat): int
    requires maxCount > 0
  {
    var c := Ceil(count as real / maxCount as real * 4.0);
    if c < 4 then c else 4
  }

  /** The integer ceiling of 4 * count / maxCount. */
  function Quarter(count: nat, maxCount: nat): int
    requires maxCount > 0
  {
    (4 * count + maxCount - 1) / maxCount
  }

  /** 4 * count lies in the interval (q - 1) * maxCount, q * maxCount] of its ceiling q, which is at least 1 for a non-zero count. */
  lemma QuarterBounds(count: nat, maxCount: nat)
    requires maxCount > 0
    ensures var q := Quarter(count, maxCount);
      (q - 1) * maxCount < 4 * count <= q * maxCount && (count > 0 ==> q >= 1)
  {
    var q := Quarter(count, maxCount);
    assert q * maxCount <= 4 * count + maxCount - 1 < q * maxCount + maxCount;
    assert (q - 1) * maxCount == q * maxCount - maxCount;
  }

  /** A real strictly above q - 1 and at most q has ceiling q. */
  lemma CeilOfBracket(x: real, q: int)
    requires (q - 1) as real < x <= q as real
    ensures Ceil(x) == q
  {
    CeilBounds(x);
  }

  /** Multiplying by a positive factor keeps `<` and `<=`. */
  lemma ScaleOrder(a: real, b: real, m: real)
    requires m > 0.0
    ensures a < b ==> a * m < b * m
    ensures a <= b ==> a * m <= b * m
  {
    assert b * m - a * m == (b - a) * m;
  }

  /** Dividing by m and multiplying by m again cancel out. */
  lemma DivideThenMultiply(c: real, m: real)
    requires m > 0.0
    ensures c / m * 4.0 * m == 4.0 * c
  {
    assert c / m * m == c;
  }

  /** Converting a product to a real is the product of the converted factors. */
  lemma RealOfProduct(a: int, b: int)
    ensures (a * b) as real == a as real * b as real
  {
  }

  /** `Math.ceil(count / maxCount * 4)`, read in exact real arithmetic, is the integer ceiling of 4 * count / maxCount. */
  lemma CeilIsIntegerCeiling(count: nat, maxCount: nat)
    requires maxCount > 0
    ensures Ceil(count as real / maxCount as real * 4.0) == Quarter(count, maxCount)
  {
    var m := maxCount as real;
    var q := Quarter(count, maxCount);
    var x := count as real / m * 4.0;
    DivideThenMultiply(count as real, m);
    QuarterBounds(count, maxCount);
    RealOfProduct(q - 1, maxCount);
    RealOfProduct(q, maxCount);
    ScaleOrder(x, (q - 1) as real, m);
    ScaleOrder(q as real, x, m);
    CeilOfBracket(x, q);
  }

  /** The level is the ceiling of 4 * count / maxCount, clipped at 4. */
  lemma LevelIsQuarter(count: nat, maxCount: nat)
    requires maxCount > 0
    ensures Level(count, maxCount) == if Quarter(count, maxCount) < 4 then Quarter(count, maxCount) else 4
  {
    CeilIsIntegerCeiling(count, maxCount);
  }

  /** The one of the five heat-map shades a cell gets. */
  datatype Shade = Gray | Primary25 | Primary50 | Primary75 | Primary100

  /** `getColorIntensity(count)` with the window's `maxCount`. */
  function ColorIntensity(count: nat, maxCount: nat): Shade
    requires maxCount > 0
  {
    if count == 0 then Gray
    else
      match Level(count, maxCount)
      case 1 => Primary25
      case 2 => Primary50
      case 3 => Primary75
      case 4 => Primary100
      case _ => Gray
  }

  /** The shade's position on the legend, from "Less" (0) to "More" (4). */
  function Rank(s: Shade): nat {
    match s
    case Gray => 0
    case Primary25 => 1
    case Primary50 => 2
    case Primary75 => 3
    case Primary100 => 4
  }

  /**
   * A cell is gray exactly when its day has no recordings. Otherwise its
   * rank k is between 1 and 4, and it is the quarter of `maxCount` that the
   * count reaches: (k - 1) / 4 < count / maxCount, and count / maxCount
   * <= k / 4 unless the count is clipped at 4.
   */
  lemma {:induction false} IntensityLevels(count: nat, maxCount: nat)
    requires maxCount > 0
    ensures ColorIntensity(count, maxCount) == Gray <==> count == 0
    ensures var k := Rank(ColorIntensity(count, maxCount));
      count > 0 ==> 1 <= k <= 4 && (k - 1) * maxCount < 4 * count
                    && (k < 4 ==> 4 * count <= k * maxCount)
  {
    if count > 0 {
      LevelIsQuarter(count, maxCount);
      QuarterBounds(count, maxCount);
      var q := Quarter(count, maxCount);
      var k := Rank(ColorIntensity(count, maxCount));
      if q < 4 {
        assert k == q;
      } else {
        assert k == 4;
        assert 3 * maxCount <= (q - 1) * maxCount by {
          assert (q - 1) * maxCount == 3 * maxCount + (q - 4) * maxCount;
        }
      }
    }
  }

  /** A count at the maximum gets the darkest shade. */
  lemma AtMaximumDarkest(maxCount: nat)
    requires maxCount > 0
    ensures ColorIntensity(maxCount, maxCount) == Primary100
  {
    LevelIsQuarter(maxCount, maxCount);
    assert Quarter(maxCount, maxCount) == 4 by {
      assert 4 * maxCount + maxCount - 1 == 4 * maxCount + (maxCount - 1);
    }
  }

  /** More recordings never give a lighter shade. */
  lemma {:induction false} IntensityMonotone(c1: nat, c2: nat, maxCount: nat)
    requires maxCount > 0 && c1 <= c2
    ensures Rank(ColorIntensity(c1, maxCount)) <= Rank(ColorIntensity(c2, maxCount))
  {
    if c1 > 0 {
      IntensityLevels(c1, maxCount);
      IntensityLevels(c2, maxCount);
      var k1 := Rank(ColorIntensity(c1, maxCount));
      var k2 := Rank(ColorIntensity(c2, maxCount));
    }
  }

  /** The index of the first occurrence of `x` in `xs`. */
  function FirstIndex<T(==)>(xs: seq<T>, x: T): (k: nat)
    requires x in xs
    ensures k < |xs| && xs[k] == x && x !in xs[..k]
  {
    if xs[0] == x then 0
    else
      var k := 1 + FirstIndex(xs[1..], x);
      assert xs[..k] == [xs[0]] + xs[1..][..k - 1];
      k
  }

  /** `Array.from(new Set(xs))`: the distinct elements in order of first appearance. */
  function Dedup<T(==,!new)>(xs: seq<T>): (ys: seq<T>)
    ensures forall x :: x in ys <==> x in xs
    ensures forall i, j :: 0 <= i < j < |ys| ==> ys[i] != ys[j]
  {
    if xs == [] then []
    else
      var ys := Dedup(xs[..|xs| - 1]);
      var x := xs[|xs| - 1];
      assert xs == xs[..|xs| - 1] + [x];
      if x in ys then ys else ys + [x]
  }

  lemma {:induction false} FirstIndexSnoc<T>(s: seq<T>, y: T, x: T)
    requires x in s
    ensures x in s + [y] && FirstIndex(s + [y], x) == FirstIndex(s, x)
  {
    var k := FirstIndex(s, x);
    var k' := FirstIndex(s + [y], x);
    assert (s + [y])[k] == x;
    assert (s + [y])[..k] == s[..k];
  }

  /** The distinct elements come out in the order in which they first appear. */
  lemma {:induction false} DedupOrder<T(!new)>(xs: seq<T>)
    ensures forall i, j :: 0 <= i < j < |Dedup(xs)| ==>
      FirstIndex(xs, Dedup(xs)[i]) < FirstIndex(xs, Dedup(xs)[j])
  {
    if xs != [] {
      var p := xs[..|xs| - 1];
      var x := xs[|xs| - 1];
      assert xs == p + [x];
      DedupOrder(p);
      var ys := Dedup(p);
      forall y | y in ys ensures FirstIndex(xs, y) == FirstIndex(p, y) {
        FirstIndexSnoc(p, x, y);
      }
      if x !in ys {
        assert x !in p;
        assert FirstIndex(xs, x) == |p| by {
          assert xs[|p|] == x;
          assert xs[..|p|] == p;
        }
      }
    }
  }

  /** `daysArray.map(d => format(d, "MMM"))`: the month label of each window day, in order. */
  function Labels(today: Day, monthOf: Day -> string): seq<string> {
    var w := Window(today);
    seq(|w|, i requires 0 <= i < |w| => monthOf(w[i]))
  }

  /** `months`: the distinct month labels of the window's days, in order of first appearance. */
  function Months(today: Day, monthOf: Day -> string): seq<string> {
    Dedup(Labels(today, monthOf))
  }

  /** Every day's month is listed exactly once, and listed months come from window days. */
  lemma MonthsCover(today: Day, monthOf: Day -> string)
    ensures forall d :: today - 30 <= d <= today ==> monthOf(d) in Months(today, monthOf)
    ensures forall m :: m in Months(today, monthOf) ==> exists d :: today - 30 <= d <= today && monthOf(d) == m
    ensures forall i, j :: 0 <= i < j < |Months(today, monthOf)| ==> Months(today, monthOf)[i] != Months(today, monthOf)[j]
  {
    var w := Window(today);
    var labels := Labels(today, monthOf);
    forall d | today - 30 <= d <= today ensures monthOf(d) in labels {
      var i := d - (today - 30);
      assert w[i] == d && labels[i] == monthOf(d);
    }
    forall m | m in labels ensures exists d :: today - 30 <= d <= today && monthOf(d) == m {
      var i :| 0 <= i < 31 && labels[i] == m;
      assert w[i] == today - 30 + i;
    }
  }

  /** What the component renders as its grid: the blanks, then one shade per day. */
  datatype Heatmap = Heatmap(months: seq<string>, blanks: nat, cells: seq<DayCount>, shades: seq<Shade>)

  function Render(recs: seq<Recording>, dayOf: string -> Day, monthOf: Day -> string, today: Day): (h: Heatmap)
    ensures |h.cells| == 31 && |h.shades| == 31 && h.blanks < 7
  {
    var data := ActivityData(recs, dayOf, today);
    var maxCount := MaxCount(data);
    Heatmap(Months(today, monthOf), StartDay(data[0].day), data,
            seq(|data|, i requires 0 <= i < |data| => ColorIntensity(data[i].count, maxCount)))
  }

  /** Every cell's shade is gray exactly when its day has no recordings, and the busiest day is darkest. */
  lemma RenderShades(recs: seq<Recording>, dayOf: string -> Day, monthOf: Day -> string, today: Day, i: nat)
    requires i < 31
    ensures var h := Render(recs, dayOf, monthOf, today);
      (h.shades[i] == Gray <==> h.cells[i].count == 0)
      && (h.cells[i].count == MaxCount(h.cells) ==> h.shades[i] == Primary100)
  {
    var data := ActivityData(recs, dayOf, today);
    IntensityLevels(data[i].count, MaxCount(data));
    if data[i].count == MaxCount(data) {
      AtMaximumDarkest(MaxCount(data));
    }
  }
}
