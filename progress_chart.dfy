/**
 * The progress chart's data (src/components/progress/ProgressChart.tsx):
 * the recordings that carry self-assessment metrics, projected to one point
 * per recording (its day and its three scores), sorted by date with
 * `Array.prototype.sort`, which is stable.
 *
 * `localeCompare` is modelled as code-point lexicographic order, which
 * agrees with it on `YYYY-MM-DD` keys.
 */
module ProgressChart {
  import opened Js
  import opened Store

  /** `a.localeCompare(b) <= 0` */
  predicate LexLe(a: string, b: string) {
    if a == [] then true
    else if b == [] then false
    else if a[0] != b[0] then a[0] < b[0]
    else LexLe(a[1..], b[1..])
  }

  lemma {:induction false} LexLeReflexive(a: string)
    ensures LexLe(a, a)
  {
    if a != [] {
      LexLeReflexive(a[1..]);
    }
  }

  lemma {:induction false} LexLeTotal(a: string, b: string)
    ensures LexLe(a, b) || LexLe(b, a)
  {
    if a != [] && b != [] && a[0] == b[0] {
      LexLeTotal(a[1..], b[1..]);
    }
  }

  lemma {:induction false} LexLeAntisymmetric(a: string, b: string)
    requires LexLe(a, b) && LexLe(b, a)
    ensures a == b
  {
    if a != [] && b != [] {
      LexLeAntisymmetric(a[1..], b[1..]);
      assert a == [a[0]] + a[1..] && b == [b[0]] + b[1..];
    }
  }

  lemma {:induction false} LexLeTransitive(a: string, b: string, c: string)
    requires LexLe(a, b) && LexLe(b, c)
    ensures LexLe(a, c)
  {
    if a != [] && b != [] && c != [] && a[0] == b[0] && b[0] == c[0] {
      LexLeTransitive(a[1..], b[1..], c[1..]);
    }
  }

  /** The point the `.map` stage builds: the date's part before the first `T` and the three scores. */
  function PointOf(r: Recording): (p: ProgressMetric)
    requires r.metrics.Some? && r.date.Some?
    ensures 'T' !in p.date && p.date <= r.date.value
  {
    ProgressMetric(BeforeFirst(r.date.value, 'T'), r.metrics.value.tone,
          r.metrics.value.confidence, r.metrics.value.fluency)
  }

  function HasMetrics(r: Recording): bool { r.metrics.Some? }

  /** The points in input order, or None when a rated recording has no string date (`split` throws). */
  function Projected(rs: seq<Recording>): (out: Option<seq<ProgressMetric>>)
    requires forall r :: r in rs ==> r.metrics.Some?
    ensures out.Some? <==> forall r :: r in rs ==> r.date.Some?
    ensures out.Some? ==> |out.value| == |rs| && forall i :: 0 <= i < |rs| ==> out.value[i] == PointOf(rs[i])
  {
    if rs == [] then Some([])
    else if rs[0].date.None? then None
    else match Projected(rs[1..])
      case None => None
      case Some(ps) =>
        assert forall r :: r in rs[1..] ==> r in rs;
        Some([PointOf(rs[0])] + ps)
  }

  predicate Sorted(ps: seq<ProgressMetric>) {
    forall i, j :: 0 <= i < j < |ps| ==> LexLe(ps[i].date, ps[j].date)
  }

  /** Insertion into a sorted list, after every point whose date is not later (which keeps the sort stable). */
  function Insert(s: seq<ProgressMetric>, p: ProgressMetric): seq<ProgressMetric> {
    if s == [] || LexLe(s[|s| - 1].date, p.date) then s + [p]
    else Insert(s[..|s| - 1], p) + [s[|s| - 1]]
  }

  /** `.sort((a, b) => a.date.localeCompare(b.date))` */
  function SortByDate(ps: seq<ProgressMetric>): seq<ProgressMetric> {
    if ps == [] then []
    else Insert(SortByDate(ps[..|ps| - 1]), ps[|ps| - 1])
  }

  /** Insertion adds the one point and loses none. */
  lemma {:induction false} InsertPermutes(s: seq<ProgressMetric>, p: ProgressMetric)
    ensures multiset(Insert(s, p)) == multiset(s) + multiset{p}
  {
    if !(s == [] || LexLe(s[|s| - 1].date, p.date)) {
      assert s == s[..|s| - 1] + [s[|s| - 1]];
      InsertPermutes(s[..|s| - 1], p);
    }
  }

  /** The sort's output is a permutation of its input. */
  lemma {:induction false} SortPermutes(ps: seq<ProgressMetric>)
    ensures multiset(SortByDate(ps)) == multiset(ps)
  {
    if ps != [] {
      assert ps == ps[..|ps| - 1] + [ps[|ps| - 1]];
      SortPermutes(ps[..|ps| - 1]);
      InsertPermutes(SortByDate(ps[..|ps| - 1]), ps[|ps| - 1]);
    }
  }

  /** A point not earlier than every point of a sorted list can be appended to it. */
  lemma SortedSnoc(t: seq<ProgressMetric>, x: ProgressMetric)
    requires Sorted(t)
    requires forall i :: 0 <= i < |t| ==> LexLe(t[i].date, x.date)
    ensures Sorted(t + [x])
  {
    var u := t + [x];
    forall i, j | 0 <= i < j < |u| ensures LexLe(u[i].date, u[j].date) {
      assert u[i] == t[i];
      if j < |t| {
        assert u[j] == t[j];
      }
    }
  }

  /** When a bound `b` is not earlier than the point's date or any date of the list, it is not earlier than any date after the insertion. */
  lemma {:induction false} InsertBounded(s: seq<ProgressMetric>, p: ProgressMetric, b: string)
    requires forall i :: 0 <= i < |s| ==> LexLe(s[i].date, b)
    requires LexLe(p.date, b)
    ensures forall i :: 0 <= i < |Insert(s, p)| ==> LexLe(Insert(s, p)[i].date, b)
  {
    if !(s == [] || LexLe(s[|s| - 1].date, p.date)) {
      var s' := s[..|s| - 1];
      InsertBounded(s', p, b);
      var r := Insert(s', p);
      var u := r + [s[|s| - 1]];
      forall i | 0 <= i < |u| ensures LexLe(u[i].date, b) {
        if i < |r| {
          assert u[i] == r[i];
        }
      }
    }
  }

  lemma {:induction false} InsertSorted(s: seq<ProgressMetric>, p: ProgressMetric)
    requires Sorted(s)
    ensures Sorted(Insert(s, p))
  {
    if s == [] || LexLe(s[|s| - 1].date, p.date) {
      forall i | 0 <= i < |s| ensures LexLe(s[i].date, p.date) {
        if i < |s| - 1 {
          LexLeTransitive(s[i].date, s[|s| - 1].date, p.date);
        }
      }
      SortedSnoc(s, p);
    } else {
      var s' := s[..|s| - 1];
      var last := s[|s| - 1];
      assert Sorted(s');
      InsertSorted(s', p);
      LexLeTotal(last.date, p.date);
      forall i | 0 <= i < |s'| ensures LexLe(s'[i].date, last.date) {
        assert s'[i] == s[i];
      }
      InsertBounded(s', p, last.date);
      SortedSnoc(Insert(s', p), last);
    }
  }

  /** The sort's output is in ascending date order. */
  lemma {:induction false} SortSorted(ps: seq<ProgressMetric>)
    ensures Sorted(SortByDate(ps))
  {
    if ps != [] {
      SortSorted(ps[..|ps| - 1]);
      InsertSorted(SortByDate(ps[..|ps| - 1]), ps[|ps| - 1]);
    }
  }

  function SameDate(d: string): ProgressMetric -> bool {
    (p: ProgressMetric) => p.date == d
  }

  lemma FilterSingleton(x: ProgressMetric, d: string)
    ensures Filter([x], SameDate(d)) == if x.date == d then [x] else []
  {
    assert [x][1..] == [];
  }

  /** Two lists of which one is empty can be appended in either order. */
  lemma SwapEmpty(a: seq<ProgressMetric>, q: seq<ProgressMetric>, l: seq<ProgressMetric>)
    requires q == [] || l == []
    ensures a + q + l == a + l + q
  {
  }

  /** A point that goes before `last` has a different date from it. */
  lemma BeforeIsDifferent(last: ProgressMetric, p: ProgressMetric)
    requires !LexLe(last.date, p.date)
    ensures last.date != p.date
  {
    if last.date == p.date {
      LexLeReflexive(p.date);
    }
  }

  lemma {:induction false} InsertStable(s: seq<ProgressMetric>, p: ProgressMetric, d: string)
    ensures Filter(Insert(s, p), SameDate(d)) == Filter(s, SameDate(d)) + Filter([p], SameDate(d))
  {
    var keep := SameDate(d);
    if s == [] || LexLe(s[|s| - 1].date, p.date) {
      FilterAppend(s, [p], keep);
    } else {
      var s' := s[..|s| - 1];
      var last := s[|s| - 1];
      assert s == s' + [last];
      InsertStable(s', p, d);
      FilterAppend(Insert(s', p), [last], keep);
      FilterAppend(s', [last], keep);
      FilterSingleton(last, d);
      FilterSingleton(p, d);
      BeforeIsDifferent(last, p);
      SwapEmpty(Filter(s', keep), Filter([p], keep), Filter([last], keep));
    }
  }

  /**
   * The sort is stable: the points of any one date keep their input order.
   * With Sorted and the multiset equality this pins the output down.
   */
  lemma {:induction false} SortStable(ps: seq<ProgressMetric>, d: string)
    ensures Filter(SortByDate(ps), SameDate(d)) == Filter(ps, SameDate(d))
  {
    if ps != [] {
      var init := ps[..|ps| - 1];
      var p := ps[|ps| - 1];
      SortStable(init, d);
      InsertStable(SortByDate(init), p, d);
      assert ps == init + [p];
      FilterAppend(init, [p], SameDate(d));
    }
  }

  /** `progressData`, or None when the `.map` stage throws. */
  function ProgressData(recs: seq<Recording>): Option<seq<ProgressMetric>> {
    var rated := Filter(recs, HasMetrics);
    match Projected(rated)
    case None => None
    case Some(ps) => Some(SortByDate(ps))
  }

  /**
   * When every rated recording has a string date, the chart's data is the
   * projection of the rated recordings (unrated ones are dropped), as a
   * permutation, in ascending date order, stable on equal dates, and no
   * date in it contains a `T`; when one has none, the component throws.
   */
  lemma ProgressDataSpec(recs: seq<Recording>, d: string)
    ensures var rated := Filter(recs, HasMetrics);
      ProgressData(recs).Some? <==> forall r :: r in rated ==> r.date.Some?
    ensures var rated := Filter(recs, HasMetrics);
      ProgressData(recs).Some? ==>
        var out := ProgressData(recs).value;
        && |out| == |rated|
        && multiset(out) == multiset(Projected(rated).value)
        && Sorted(out)
        && Filter(out, SameDate(d)) == Filter(Projected(rated).value, SameDate(d))
        && forall p :: p in out ==> 'T' !in p.date
  {
    var rated := Filter(recs, HasMetrics);
    if ProgressData(recs).Some? {
      var ps := Projected(rated).value;
      var out := SortByDate(ps);
      SortPermutes(ps);
      SortSorted(ps);
      SortStable(ps, d);
      assert |out| == |multiset(out)| == |multiset(ps)| == |ps|;
      forall p | p in out ensures 'T' !in p.date {
        assert p in multiset(ps);
        var i :| 0 <= i < |ps| && ps[i] == p;
      }
    }
  }

  /** Every point of the projection, in whatever order, comes from one of the rated recordings. */
  lemma PointsHaveSources(rated: seq<Recording>, out: seq<ProgressMetric>)
    requires forall r :: r in rated ==> r.metrics.Some?
    requires Projected(rated).Some? && multiset(out) == multiset(Projected(rated).value)
    ensures forall p :: p in out ==> exists r :: r in rated && r.metrics.Some? && r.date.Some? && p == PointOf(r)
  {
    var ps := Projected(rated).value;
    forall p | p in out ensures exists r :: r in rated && r.metrics.Some? && r.date.Some? && p == PointOf(r) {
      assert p in multiset(ps);
      var i :| 0 <= i < |ps| && ps[i] == p;
      assert rated[i] in rated;
    }
  }

  /** Every rated recording's point is in any permutation of the projection. */
  lemma RecordingsHavePoints(rated: seq<Recording>, out: seq<ProgressMetric>)
    requires forall r :: r in rated ==> r.metrics.Some?
    requires Projected(rated).Some? && multiset(out) == multiset(Projected(rated).value)
    ensures forall r :: r in rated ==> r.date.Some? && PointOf(r) in out
  {
    var ps := Projected(rated).value;
    forall r | r in rated ensures r.date.Some? && PointOf(r) in out {
      var i :| 0 <= i < |rated| && rated[i] == r;
      assert ps[i] in multiset(out);
    }
  }

  /** Every point carries the scores of one rated recording, and every rated recording gives one. */
  lemma PointsComeFromRecordings(recs: seq<Recording>)
    ensures ProgressData(recs).Some? ==>
      (forall p :: p in ProgressData(recs).value ==>
        exists r :: r in recs && r.metrics.Some? && r.date.Some? && p == PointOf(r))
      && (forall r :: r in recs && r.metrics.Some? ==>
        r.date.Some? && PointOf(r) in ProgressData(recs).value)
  {
    var rated := Filter(recs, HasMetrics);
    if ProgressData(recs).Some? {
      var ps := Projected(rated).value;
      SortPermutes(ps);
      PointsHaveSources(rated, SortByDate(ps));
      RecordingsHavePoints(rated, SortByDate(ps));
    }
  }

  /** What the chart area shows. */
  datatype ChartView = Throws | NoProgressYet | Lines(points: seq<ProgressMetric>)

  function View(recs: seq<Recording>): ChartView {
    match ProgressData(recs)
    case None => Throws
    case Some(ps) => if |ps| == 0 then NoProgressYet else Lines(ps)
  }

  /** The "No progress yet" message shows exactly when no recording has metrics. */
  lemma NoProgressIffUnrated(recs: seq<Recording>)
    ensures View(recs) == NoProgressYet <==> forall r :: r in recs ==> r.metrics.None?
  {
    var rated := Filter(recs, HasMetrics);
    if View(recs) == NoProgressYet {
      var ps := Projected(rated).value;
      SortPermutes(ps);
      assert |rated| == |ps| == |multiset(SortByDate(ps))| == 0;
      forall r | r in recs ensures r.metrics.None? {
        FilterCounts(recs, HasMetrics, r);
      }
    }
    if forall r :: r in recs ==> r.metrics.None? {
      if rated != [] {
        FilterCounts(recs, HasMetrics, rated[0]);
        assert rated[0] in multiset(rated);
      }
    }
  }
}
