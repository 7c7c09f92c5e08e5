// check-geoservices-stats.py: today's dataset count per owner against that owner's
// mean over the thirty days before, as a ratio, a rounded change and a label.
module Trend {
  import opened Python

  /** A line of a statistics file: the day (as a day number), the owner and the
      number of datasets the owner had that day. */
  datatype Stat = Stat(date: int, owner: string, count: nat)

  /** The length of the look-back window, in days. */
  const WindowDays := 30

  // ---------------------------------------------------------------- the window

  /** MAX(DATE) over the current statistics; NULL (None) for an empty table. */
  function MaxDate(rows: seq<Stat>): (r: Option<int>)
    ensures r.None? <==> rows == []
    ensures r.Some? ==> exists i :: 0 <= i < |rows| && rows[i].date == r.value
    ensures r.Some? ==> forall i :: 0 <= i < |rows| ==> rows[i].date <= r.value
  {
    if rows == [] then None
    else
      match MaxDate(rows[1..])
      case None => Some(rows[0].date)
      case Some(d) => Some(if rows[0].date < d then d else rows[0].date)
  }

  /** DATE >= current_date - 30 days AND DATE < current_date. */
  predicate InWindow(s: Stat, current: int)
  {
    current - WindowDays <= s.date < current
  }

  /** The historic lines inside the window, in file order. */
  function Window(history: seq<Stat>, current: int): (r: seq<Stat>)
    ensures forall s :: s in r <==> s in history && InWindow(s, current)
    ensures |r| <= |history|
  {
    if history == [] then []
    else (if InWindow(history[0], current) then [history[0]] else []) + Window(history[1..], current)
  }

  /** The counts `owner` has among `rows`, in order. */
  function CountsOf(rows: seq<Stat>, owner: string): (r: seq<nat>)
    ensures r == [] <==> forall s :: s in rows ==> s.owner != owner
    ensures |r| <= |rows|
  {
    if rows == [] then []
    else (if rows[0].owner == owner then [rows[0].count] else []) + CountsOf(rows[1..], owner)
  }

  function Sum(xs: seq<nat>): nat
  {
    if xs == [] then 0 else xs[0] + Sum(xs[1..])
  }

  /** AVG over a non-empty group. */
  function Mean(xs: seq<nat>): real
    requires xs != []
  {
    Sum(xs) as real / |xs| as real
  }

  /** hist_stats: the owners with at least one line in the window, each with the
      mean of its counts there (GROUP BY OWNER). */
  function History(history: seq<Stat>, current: int): (r: map<string, real>)
    ensures forall o :: o in r <==> exists s :: s in history && InWindow(s, current) && s.owner == o
  {
    var w := Window(history, current);
    map o | o in (set s | s in w :: s.owner) :: Mean(CountsOf(w, o))
  }

  /** A mean lies between the smallest and the largest count of its group. */
  lemma {:induction false} MeanBounded(xs: seq<nat>, lo: nat, hi: nat)
    requires xs != [] && forall i :: 0 <= i < |xs| ==> lo <= xs[i] <= hi
    ensures lo as real <= Mean(xs) <= hi as real
  {
    SumBounded(xs, lo, hi);
    AverageBetween(Sum(xs), |xs|, lo, hi);
  }

  /** A total of `n` numbers between `lo` and `hi`, divided by `n`, lies between them too. */
  lemma AverageBetween(total: nat, n: nat, lo: nat, hi: nat)
    requires n > 0 && n * lo <= total <= n * hi
    ensures lo as real <= total as real / n as real <= hi as real
  {
    CastProduct(n, lo);
    CastProduct(n, hi);
    QuotientBetween(total as real, n as real, lo as real, hi as real);
  }

  lemma CastProduct(a: nat, b: nat)
    ensures (a * b) as real == b as real * a as real
  {
  }

  /** A quotient by a positive number lies between the bounds its dividend lies between, scaled. */
  lemma QuotientBetween(s: real, n: real, a: real, b: real)
    requires n > 0.0 && a * n <= s <= b * n
    ensures a <= s / n <= b
  {
    var q := s / n;
    assert q * n == s;
    ScaleOrder(a, q, n);
    ScaleOrder(q, b, n);
  }

  lemma {:induction false} SumBounded(xs: seq<nat>, lo: nat, hi: nat)
    requires forall i :: 0 <= i < |xs| ==> lo <= xs[i] <= hi
    ensures |xs| * lo <= Sum(xs) <= |xs| * hi
  {
    if xs != [] {
      SumBounded(xs[1..], lo, hi);
      assert |xs| * lo == lo + |xs[1..]| * lo;
      assert |xs| * hi == hi + |xs[1..]| * hi;
    }
  }

  // ---------------------------------------------------------------- the classification

  datatype Label = Stable | Improved | Decreased | StronglyDecreased | Suspicious

  /** The Classification column's text. */
  function Text(l: Label): string
  {
    match l
    case Stable => "Stable"
    case Improved => "Improved"
    case Decreased => "Decreased"
    case StronglyDecreased => "Strongly decreased"
    case Suspicious => "Suspicious. Maybe services endpoints have changed?"
  }

  /** The condition of each WHEN arm, read on its own. */
  predicate Band(l: Label, ratio: real)
  {
    match l
    case Stable => ratio == 100.0
    case Improved => ratio > 100.0
    case Decreased => ratio < 100.0 && ratio > 90.0
    case StronglyDecreased => ratio <= 90.0 && ratio > 80.0
    case Suspicious => ratio <= 80.0
  }

  /** The CASE expression: the first WHEN that holds. The arms do not overlap and
      leave no ratio out, so the label is the one band the ratio lies in. */
  function Classify(ratio: real): (r: Option<Label>)
    ensures r.Some?
    ensures forall l :: Band(l, ratio) <==> r == Some(l)
  {
    if ratio == 100.0 then Some(Stable)
    else if ratio > 100.0 then Some(Improved)
    else if ratio < 100.0 && ratio > 90.0 then Some(Decreased)
    else if ratio <= 90.0 && ratio > 80.0 then Some(StronglyDecreased)
    else if ratio <= 80.0 then Some(Suspicious)
    else None
  }

  /** No two labels share a text, so the label can be read back from the column. */
  lemma TextsDistinct(l: Label, m: Label)
    requires Text(l) == Text(m)
    ensures l == m
  {
  }

  // ---------------------------------------------------------------- ratio and change

  /** DATASET_COUNT / MEAN_DATASET_COUNT * 100; a zero mean gives NULL. */
  function Ratio(count: nat, mean: real): (r: Option<real>)
    ensures r.Some? <==> mean != 0.0
    ensures r.Some? ==> r.value * mean == count as real * 100.0
    ensures r.Some? && mean > 0.0 ==> r.value >= 0.0
  {
    if mean == 0.0 then None else Some(count as real / mean * 100.0)
  }

  /** ROUND(x, 1): to one decimal, halves away from zero. */
  function Round1(x: real): (r: real)
    ensures -0.05 <= r - x <= 0.05
    ensures (r * 10.0).Floor as real == r * 10.0
    ensures x >= 0.0 ==> r >= 0.0
    ensures x <= 0.0 ==> r <= 0.0
  {
    var a := if x >= 0.0 then x else -x;
    var k := (a * 10.0 + 0.5).Floor;
    assert k as real <= a * 10.0 + 0.5 < k as real + 1.0;
    var t := k as real / 10.0;
    assert t * 10.0 == k as real && (t * 10.0).Floor == k;
    assert -t * 10.0 == -k as real && (-t * 10.0).Floor == -k;
    if x >= 0.0 then t else -t
  }

  /** A change already at one decimal is kept as it is. */
  lemma {:induction false} RoundKeepsTenths(n: int)
    ensures Round1(n as real / 10.0) == n as real / 10.0
  {
    var x := n as real / 10.0;
    if x >= 0.0 {
      assert x * 10.0 + 0.5 == n as real + 0.5;
      assert (x * 10.0 + 0.5).Floor == n;
    } else {
      assert -x * 10.0 + 0.5 == -n as real + 0.5;
      assert (-x * 10.0 + 0.5).Floor == -n;
    }
  }

  /** ROUND("Dataset ratio (percent)" - 100, 1). */
  function Change(ratio: Option<real>): (r: Option<real>)
    ensures r.Some? <==> ratio.Some?
  {
    match ratio
    case None => None
    case Some(x) => Some(Round1(x - 100.0))
  }

  /** The change agrees with the label: none for Stable, up for Improved, down by at
      most ten points for Decreased, by ten to twenty for Strongly decreased, and by
      twenty or more for the suspicious drops. */
  lemma ChangeMatchesLabel(ratio: real)
    ensures var c := Change(Some(ratio)).value;
      && (Classify(ratio) == Some(Stable) ==> c == 0.0)
      && (Classify(ratio) == Some(Improved) ==> c >= 0.0)
      && (Classify(ratio) == Some(Decreased) ==> -10.0 <= c <= 0.0)
      && (Classify(ratio) == Some(StronglyDecreased) ==> -20.0 <= c <= -10.0)
      && (Classify(ratio) == Some(Suspicious) ==> c <= -20.0)
  {
    var x := ratio - 100.0;
    var c := Round1(x);
    assert Band(Classify(ratio).value, ratio);
    if x < 0.0 {
      var n := (-x * 10.0 + 0.5).Floor;
      assert c == -(n as real / 10.0);
      if x > -10.0 {
        assert n <= 100;
      } else if x > -20.0 {
        assert 100 <= n <= 200;
      } else {
        assert n >= 200;
      }
    }
  }

  /** With a positive mean, the alert label marks a current count of at most four
      fifths of the mean, and only such counts. */
  lemma SuspiciousDrop(count: nat, mean: real)
    requires mean > 0.0
    ensures var r := Ratio(count, mean).value;
      Classify(r) == Some(Suspicious) <==> count as real <= 0.8 * mean
  {
    var r := Ratio(count, mean).value;
    assert Band(Classify(r).value, r);
    assert count as real * 100.0 == r * mean;
    ScaleOrder(r, 80.0, mean);
  }

  /** Multiplying by a positive factor keeps the order. */
  lemma ScaleOrder(x: real, y: real, k: real)
    requires k > 0.0
    ensures x <= y <==> x * k <= y * k
  {
    if x <= y {
      assert (y - x) * k >= 0.0;
    } else {
      assert (x - y) * k > 0.0;
    }
  }

  // ---------------------------------------------------------------- the stats table

  /** A row of the stats table. */
  datatype Trend = Trend(owner: string, date: int, current: nat, mean: real,
                         ratio: Option<real>, change: Option<real>, classification: Option<Label>)

  /** One stats row: the ratio is the count as a percentage of the mean, the label is
      the band the ratio lies in, and the change is the ratio's distance from 100. */
  function TrendOf(s: Stat, mean: real): (r: Trend)
    ensures r.owner == s.owner && r.date == s.date && r.current == s.count && r.mean == mean
    ensures r.ratio.Some? <==> mean != 0.0
    ensures r.ratio.Some? ==> r.ratio.value * mean == s.count as real * 100.0
    ensures r.ratio.Some? ==> r.classification.Some? && Band(r.classification.value, r.ratio.value)
    ensures r.ratio.Some? ==> r.change.Some? && -0.05 <= r.change.value - (r.ratio.value - 100.0) <= 0.05
    ensures mean > 0.0 ==> (r.classification == Some(Suspicious) <==> s.count as real <= 0.8 * mean)
    ensures r.ratio.None? ==> r.change.None? && r.classification.None?
  {
    var ratio := Ratio(s.count, mean);
    var t := Trend(s.owner, s.date, s.count, mean, ratio, Change(ratio), if ratio.Some? then Classify(ratio.value) else None);
    if mean > 0.0 then SuspiciousDrop(s.count, mean); t else t
  }

  /** current_stats JOIN hist_stats ON OWNER: one row per current line whose owner
      has a historic mean, and no other row. */
  function Joined(current: seq<Stat>, hist: map<string, real>): (r: seq<Trend>)
    ensures forall t :: t in r <==> exists s :: s in current && s.owner in hist && t == TrendOf(s, hist[s.owner])
    ensures |r| <= |current|
  {
    if current == [] then []
    else
      (if current[0].owner in hist then [TrendOf(current[0], hist[current[0].owner])] else [])
      + Joined(current[1..], hist)
  }

  /** The stats table: MAX(DATE) of the current lines fixes the window; an empty
      current table leaves MAX(DATE) NULL and `None - timedelta` raises. */
  function ChangeStats(current: seq<Stat>, history: seq<Stat>): (r: Result<seq<Trend>>)
    ensures r.Err? <==> current == []
  {
    match MaxDate(current)
    case None => Err(TypeError("-"))
    case Some(d) => Ok(Joined(current, History(history, d)))
  }

  /** Every row compares a current line with the mean over the thirty days before
      the newest date; lines of that date itself never enter the mean. */
  lemma Compared(current: seq<Stat>, history: seq<Stat>, t: Trend)
    requires ChangeStats(current, history).Ok? && t in ChangeStats(current, history).value
    ensures var d := MaxDate(current).value;
      && (exists s :: s in current && s.owner == t.owner && s.date == t.date && s.count == t.current)
      && (exists s :: s in history && InWindow(s, d) && s.owner == t.owner)
      && t.mean == Mean(CountsOf(Window(history, d), t.owner))
  {
    var d := MaxDate(current).value;
    var s :| s in current && s.owner in History(history, d) && t == TrendOf(s, History(history, d)[s.owner]);
  }

  /** An owner whose count held steady over the window and today is Stable, with
      no change. */
  lemma SteadyIsStable(current: seq<Stat>, history: seq<Stat>, s: Stat)
    requires s in current && s.count > 0
    requires var d := MaxDate(current).value;
      (exists h :: h in history && InWindow(h, d) && h.owner == s.owner) &&
      forall h :: h in history && InWindow(h, d) && h.owner == s.owner ==> h.count == s.count
    ensures var d := MaxDate(current).value;
      TrendOf(s, History(history, d)[s.owner]) in ChangeStats(current, history).value
    ensures var t := TrendOf(s, History(history, MaxDate(current).value)[s.owner]);
      t.classification == Some(Stable) && t.change == Some(0.0)
  {
    var d := MaxDate(current).value;
    SteadyMean(history, d, s.owner, s.count);
    StableAtMean(s, History(history, d)[s.owner]);
  }

  /** A steady count is its own mean. */
  lemma SteadyMean(history: seq<Stat>, d: int, owner: string, n: nat)
    requires exists h :: h in history && InWindow(h, d) && h.owner == owner
    requires forall h :: h in history && InWindow(h, d) && h.owner == owner ==> h.count == n
    ensures owner in History(history, d) && History(history, d)[owner] == n as real
  {
    var w := Window(history, d);
    CountsSteady(w, owner, n);
    MeanBounded(CountsOf(w, owner), n, n);
  }

  /** Today's count equal to a positive mean is Stable, with no change. */
  lemma StableAtMean(s: Stat, mean: real)
    requires s.count > 0 && mean == s.count as real
    ensures TrendOf(s, mean).classification == Some(Stable) && TrendOf(s, mean).change == Some(0.0)
  {
    assert s.count as real / mean == 1.0;
    assert Ratio(s.count, mean) == Some(100.0);
  }

  /** The counts of an owner whose every line shows `n` are all `n`. */
  lemma {:induction false} CountsSteady(rows: seq<Stat>, owner: string, n: nat)
    requires forall s :: s in rows && s.owner == owner ==> s.count == n
    ensures forall i :: 0 <= i < |CountsOf(rows, owner)| ==> CountsOf(rows, owner)[i] == n
  {
    if rows != [] {
      CountsSteady(rows[1..], owner, n);
    }
  }
}
