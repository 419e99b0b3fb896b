/** The price forecaster: a 5-point moving average of the latest prices, plus the
    mean first difference over the latest 10 prices, plus a random offset of at
    most 2% of the latest price, all scaled by a random factor within 3% and
    rounded half up. Each `Math.random()` draw is a parameter in [0, 1), so the
    forecast is a deterministic function of the history and the two draws. */
module PricePredictor {
  import opened Common
  import opened StableSort

  /** One entry of a product's price history; the date is a timestamp. */
  datatype PricePoint = PricePoint(price: real, date: int)

  /** The fewest history entries for which a forecast is made. */
  const MinHistory := 5
  /** Window of the moving average. */
  const LevelWindow := 5
  /** Window of the trend estimate; its 10 prices give 9 differences. */
  const TrendWindow := 10

  predicate IsDraw(d: real)
  {
    0.0 <= d < 1.0
  }

  function DateKey(p: PricePoint): real
  {
    p.date as real
  }

  /** The history sorted by date, oldest first (a stable sort of a copy). */
  function SortByDate(history: seq<PricePoint>): (r: seq<PricePoint>)
    ensures multiset(r) == multiset(history)
    ensures forall i, j :: 0 <= i < j < |r| ==> r[i].date <= r[j].date
  {
    var r := SortByKey(history, DateKey);
    assert forall i, j :: 0 <= i < j < |r| ==> DateKey(r[i]) <= DateKey(r[j]);
    r
  }

  /** `sortedHistory.map(ph => ph.price)`. */
  function Prices(history: seq<PricePoint>): (r: seq<real>)
    ensures |r| == |history|
    ensures forall i :: 0 <= i < |r| ==> r[i] == history[i].price
  {
    seq(|history|, i requires 0 <= i < |history| => history[i].price)
  }

  /** `prices.slice(-5)`: the last five prices, or all of them when there are fewer. */
  function Recent(prices: seq<real>): (r: seq<real>)
    ensures |r| == if |prices| < LevelWindow then |prices| else LevelWindow
    ensures forall i :: 0 <= i < |r| ==> r[i] == prices[|prices| - |r| + i]
  {
    if |prices| < LevelWindow then prices else prices[|prices| - LevelWindow..]
  }

  /** The moving average: the mean of the recent prices. It lies between the least
      and the greatest of them. */
  function MovingAverage(prices: seq<real>): (r: real)
    requires |prices| > 0
    ensures exists i :: 0 <= i < |Recent(prices)| && Recent(prices)[i] <= r
    ensures exists j :: 0 <= j < |Recent(prices)| && r <= Recent(prices)[j]
  {
    MeanBetweenExtremes(Recent(prices));
    Mean(Recent(prices))
  }

  /** `price[i + 1] - price[i]` for every consecutive pair. */
  function Differences(s: seq<real>): (r: seq<real>)
    ensures |r| == if |s| == 0 then 0 else |s| - 1
    ensures forall i :: 0 <= i < |r| ==> r[i] == s[i + 1] - s[i]
  {
    if |s| <= 1 then [] else Differences(s[..|s| - 1]) + [s[|s| - 1] - s[|s| - 2]]
  }

  /** The differences of a series telescope to its last value minus its first. */
  lemma {:induction false} DifferencesTelescope(s: seq<real>)
    requires |s| > 0
    ensures Sum(Differences(s)) == s[|s| - 1] - s[0]
  {
    if |s| > 1 {
      var front := s[..|s| - 1];
      DifferencesTelescope(front);
      assert Differences(s) == Differences(front) + [s[|s| - 1] - s[|s| - 2]];
      assert Differences(s)[..|Differences(s)| - 1] == Differences(front);
    }
  }

  /** The trend: 0 for fewer than 10 prices, otherwise the mean of the 9
      differences of the last 10 prices, which telescopes to a single difference. */
  function Trend(prices: seq<real>): (r: real)
    ensures |prices| < TrendWindow ==> r == 0.0
    ensures |prices| >= TrendWindow ==>
      r == (prices[|prices| - 1] - prices[|prices| - TrendWindow]) / (TrendWindow - 1) as real
  {
    if |prices| < TrendWindow then 0.0
    else
      var window := prices[|prices| - TrendWindow..];
      DifferencesTelescope(window);
      Mean(Differences(window))
  }

  /** `calculateTrend`: pushes the consecutive differences of the last ten prices
      into a list, then averages the list. */
  method CalculateTrend(prices: seq<real>) returns (trend: real)
    ensures trend == Trend(prices)
  {
    if |prices| < TrendWindow {
      return 0.0;
    }
    var n := |prices|;
    var start := n - TrendWindow;
    var recentChanges: seq<real> := [];
    var i := start;
    while i < n - 1
      invariant start <= i <= n - 1
      invariant |recentChanges| == i - start
      invariant forall k :: 0 <= k < |recentChanges| ==>
        recentChanges[k] == prices[start + k + 1] - prices[start + k]
    {
      recentChanges := recentChanges + [prices[i + 1] - prices[i]];
      i := i + 1;
    }
    assert recentChanges == Differences(prices[start..]);
    var sum := 0.0;
    var k := 0;
    while k < |recentChanges|
      invariant 0 <= k <= |recentChanges|
      invariant sum == Sum(recentChanges[..k])
    {
      assert recentChanges[..k + 1][..k] == recentChanges[..k];
      sum := sum + recentChanges[k];
      k := k + 1;
    }
    assert recentChanges[..k] == recentChanges;
    trend := sum / |recentChanges| as real;
  }

  /** `calculateSeasonality`: the latest price times a draw scaled to [-2%, 2%). */
  function Seasonality(prices: seq<real>, draw: real): (r: real)
    requires |prices| > 0 && IsDraw(draw)
    ensures Abs(r) <= 0.02 * Abs(prices[|prices| - 1])
  {
    var last := prices[|prices| - 1];
    var f := draw * 0.04 - 0.02;
    AbsScaled(last, f, 0.02);
    last * f
  }

  /** The random factor `1 + (draw * 0.06 - 0.03)`. */
  function RandomFactor(draw: real): (r: real)
    requires IsDraw(draw)
    ensures 0.97 <= r < 1.03
  {
    1.0 + (draw * 0.06 - 0.03)
  }

  /** `Math.round`: the nearest integer, halves rounded toward positive infinity. */
  function Round(x: real): (r: int)
    ensures r as real - 0.5 <= x < r as real + 0.5
  {
    (x + 0.5).Floor
  }

  /** The three summands of the forecast, before the random factor. */
  datatype Basis = Basis(level: real, trend: real, seasonal: real)
  {
    function Combined(): real
    {
      level + trend + seasonal
    }
  }

  /** The components computed from a history of at least five entries. */
  function ComputeBasis(history: seq<PricePoint>, seasonDraw: real): (b: Basis)
    requires |history| >= MinHistory && IsDraw(seasonDraw)
    ensures var prices := Prices(SortByDate(history));
      |prices| == |history| &&
      b.level == Mean(Recent(prices)) && b.trend == Trend(prices) &&
      Abs(b.seasonal) <= 0.02 * Abs(prices[|prices| - 1])
  {
    var prices := Prices(SortByDate(history));
    Basis(MovingAverage(prices), Trend(prices), Seasonality(prices, seasonDraw))
  }

  /** `predictPrice`: None (the source's `null`) when the history is missing or
      shorter than five entries; otherwise the rounded, randomly scaled sum of the
      components, which differs from that sum by at most 3% of it plus the rounding
      half-unit. No clamp to zero is applied. */
  function PredictPrice(history: Option<seq<PricePoint>>, seasonDraw: real, jitterDraw: real): (r: Option<int>)
    requires IsDraw(seasonDraw) && IsDraw(jitterDraw)
    ensures r.None? <==> history.None? || |history.value| < MinHistory
    ensures r.Some? ==>
      var base := ComputeBasis(history.value, seasonDraw).Combined();
      Abs(r.value as real - base) <= 0.03 * Abs(base) + 0.5
  {
    if history.None? || |history.value| < MinHistory then None
    else Some(Perturb(ComputeBasis(history.value, seasonDraw).Combined(), jitterDraw))
  }

  /** `Math.round(prediction * randomFactor)`: within 3% of the base plus the
      rounding half-unit, on either side of the base. */
  function Perturb(base: real, draw: real): (r: int)
    requires IsDraw(draw)
    ensures Abs(r as real - base) <= 0.03 * Abs(base) + 0.5
  {
    var factor := RandomFactor(draw);
    var scaled := base * factor;
    var delta := factor - 1.0;
    var shift := base * delta;
    assert scaled == base + shift;
    AbsScaled(base, delta, 0.03);
    var rounded := Round(scaled) as real;
    assert Abs(rounded - scaled) <= 0.5;
    AbsTriangle(rounded - scaled, shift);
    assert rounded - base == (rounded - scaled) + shift;
    Round(scaled)
  }

  /** The level lies within any bounds that hold for the five latest prices (by
      date), and the seasonal offset is at most 2% of the latest price. */
  lemma BasisBounds(history: seq<PricePoint>, seasonDraw: real, lo: real, hi: real)
    requires |history| >= MinHistory && IsDraw(seasonDraw)
    requires var prices := Prices(SortByDate(history));
      forall k :: |prices| - LevelWindow <= k < |prices| ==> lo <= prices[k] <= hi
    ensures lo <= ComputeBasis(history, seasonDraw).level <= hi
    ensures var prices := Prices(SortByDate(history));
      Abs(ComputeBasis(history, seasonDraw).seasonal) <= 0.02 * Abs(prices[|prices| - 1])
  {
    var prices := Prices(SortByDate(history));
    var recent := Recent(prices);
    assert ComputeBasis(history, seasonDraw)
        == Basis(Mean(recent), Trend(prices), Seasonality(prices, seasonDraw));
    forall k | 0 <= k < |recent| ensures lo <= recent[k] <= hi {
      assert recent[k] == prices[|prices| - LevelWindow + k];
    }
    MeanWithin(recent, lo, hi);
  }

  /** Reordering the history does not change the forecast when no two entries
      share a date: the sort alone fixes the order. */
  lemma PredictionIgnoresInputOrder(a: seq<PricePoint>, b: seq<PricePoint>, seasonDraw: real, jitterDraw: real)
    requires multiset(a) == multiset(b)
    requires forall i, j :: 0 <= i < j < |a| ==> a[i].date != a[j].date
    requires IsDraw(seasonDraw) && IsDraw(jitterDraw)
    ensures PredictPrice(Some(a), seasonDraw, jitterDraw) == PredictPrice(Some(b), seasonDraw, jitterDraw)
  {
    assert forall i, j :: 0 <= i < j < |a| ==> DateKey(a[i]) != DateKey(a[j]);
    SortIgnoresInputOrder(a, b, DateKey);
    var sa, sb := SortByDate(a), SortByDate(b);
    assert sa == sb;
    assert |a| == |sa| && |b| == |sb|;
    if |a| >= MinHistory {
      var basis := ComputeBasis(a, seasonDraw);
      assert basis == ComputeBasis(b, seasonDraw);
      var v := Perturb(basis.Combined(), jitterDraw);
      assert PredictPrice(Some(a), seasonDraw, jitterDraw) == Some(v);
      assert PredictPrice(Some(b), seasonDraw, jitterDraw) == Some(v);
    }
  }

  /** A history whose dates already ascend is used in its given order. */
  lemma ChronologicalHistoryIsKept(history: seq<PricePoint>)
    requires forall i, j :: 0 <= i < j < |history| ==> history[i].date <= history[j].date
    ensures SortByDate(history) == history
  {
    assert SortedByKey(history, DateKey);
    SortSortedIsIdentity(history, DateKey);
  }

  /** A daily history, oldest first, with the given prices. */
  function Daily(prices: seq<real>): (h: seq<PricePoint>)
    ensures |h| == |prices|
    ensures forall i :: 0 <= i < |h| ==> h[i] == PricePoint(prices[i], i)
  {
    seq(|prices|, i requires 0 <= i < |prices| => PricePoint(prices[i], i))
  }

  /** The prices of a daily history come out of the sort in the order given. */
  lemma DailyPricesKept(prices: seq<real>)
    ensures Prices(SortByDate(Daily(prices))) == prices
  {
    ChronologicalHistoryIsKept(Daily(prices));
  }

  /** Prices 10, 20, 30, 40, 50 give a level of 30 and, with fewer than ten
      entries, no trend. */
  lemma FiveDayLevel(seasonDraw: real)
    requires IsDraw(seasonDraw)
    ensures ComputeBasis(Daily([10.0, 20.0, 30.0, 40.0, 50.0]), seasonDraw).level == 30.0
    ensures ComputeBasis(Daily([10.0, 20.0, 30.0, 40.0, 50.0]), seasonDraw).trend == 0.0
  {
    var prices := [10.0, 20.0, 30.0, 40.0, 50.0];
    DailyPricesKept(prices);
    assert Recent(prices) == prices;
    assert Sum(prices) == 150.0 by {
      assert [10.0] == [] + [10.0];
      assert [10.0, 20.0] == [10.0] + [20.0];
      assert [10.0, 20.0, 30.0] == [10.0, 20.0] + [30.0];
      assert [10.0, 20.0, 30.0, 40.0] == [10.0, 20.0, 30.0] + [40.0];
      assert prices == [10.0, 20.0, 30.0, 40.0] + [50.0];
      SumSnoc([], 10.0);
      SumSnoc([10.0], 20.0);
      SumSnoc([10.0, 20.0], 30.0);
      SumSnoc([10.0, 20.0, 30.0], 40.0);
      SumSnoc([10.0, 20.0, 30.0, 40.0], 50.0);
    }
    assert MovingAverage(prices) == 30.0;
  }

  /** A steep fall before a low recent level gives a negative forecast even though
      every price is positive: the forecast is not clamped at zero. */
  lemma NegativeForecastIsNotClamped()
    ensures PredictPrice(Some(Daily([1000.0, 1.0, 1.0, 1.0, 1.0, 1.0, 1.0, 1.0, 1.0, 1.0])), 0.5, 0.5) == Some(-110)
  {
    var prices := [1000.0, 1.0, 1.0, 1.0, 1.0, 1.0, 1.0, 1.0, 1.0, 1.0];
    var history := Daily(prices);
    var basis := ComputeBasis(history, 0.5);
    assert basis == Basis(1.0, -111.0, 0.0) by {
      SteepFallBasis(prices);
    }
    MiddleDrawKeepsIntegers(-110);
    assert PredictPrice(Some(history), 0.5, 0.5) == Some(Perturb(basis.Combined(), 0.5));
  }

  /** With the middle draw the random factor is 1, so an integer is kept. */
  lemma MiddleDrawKeepsIntegers(n: int)
    ensures Perturb(n as real, 0.5) == n
  {
    assert RandomFactor(0.5) == 1.0;
    assert Round(n as real) == n;
  }

  lemma SteepFallBasis(prices: seq<real>)
    requires prices == [1000.0, 1.0, 1.0, 1.0, 1.0, 1.0, 1.0, 1.0, 1.0, 1.0]
    ensures ComputeBasis(Daily(prices), 0.5) == Basis(1.0, -111.0, 0.0)
  {
    assert Prices(SortByDate(Daily(prices))) == prices by {
      DailyPricesKept(prices);
    }
    assert MovingAverage(prices) == 1.0 by {
      var recent := Recent(prices);
      assert recent == [1.0, 1.0, 1.0, 1.0, 1.0];
      MeanWithin(recent, 1.0, 1.0);
    }
    SteepFallTrend(prices);
    assert Seasonality(prices, 0.5) == 0.0 by {
      assert prices[|prices| - 1] * (0.5 * 0.04 - 0.02) == 0.0;
    }
  }

  lemma SteepFallTrend(prices: seq<real>)
    requires prices == [1000.0, 1.0, 1.0, 1.0, 1.0, 1.0, 1.0, 1.0, 1.0, 1.0]
    ensures Trend(prices) == -111.0
  {
    assert |prices| == TrendWindow;
    assert prices[|prices| - 1] - prices[|prices| - TrendWindow] == -999.0;
  }
}
