/**
 * The earlier version of the index page (backup/src/pages/index/index.tsx).
 * It keeps the same state and the same two-step fetch, without the
 * `try/catch`, and hands the whole history to the chart component once the
 * history has more than one point.
 */
module BackupIndexPage {
  import opened Nullable
  import opened Quotes
  import opened History
  import opened GoldPriceChart

  class Index {
    var goldPrices: Option<Snapshot>
    var loading: bool
    var lastUpdated: Option<string>
    var priceTrend: Option<Trend>
    var priceHistory: seq<PricePoint>

    /** The history never holds more than `Capacity` samples. */
    ghost predicate Valid()
      reads this
    {
      |priceHistory| <= Capacity
    }

    /** First render: nothing fetched yet, the loading indicator on, an empty history. */
    constructor ()
      ensures Valid()
      ensures goldPrices == None && priceTrend == None && lastUpdated == None
      ensures loading && priceHistory == []
    {
      goldPrices := None;
      loading := true;
      lastUpdated := None;
      priceTrend := None;
      priceHistory := [];
    }

    /** Start of `fetchGoldPrices`: only `loading` changes, whatever fetch may still be pending. */
    method BeginFetch()
      requires Valid()
      modifies this`loading
      ensures Valid() && loading
    {
      loading := true;
    }

    /**
     * The scheduled callback: snapshot, trend and timestamp replaced, `loading`
     * cleared, and the au9999 price at `time` appended to the history.
     */
    method CompleteFetch(prices: Snapshot, trend: Trend, stamp: string, time: string)
      requires Valid()
      modifies this
      ensures Valid()
      ensures goldPrices == Some(prices) && priceTrend == Some(trend) && lastUpdated == Some(stamp)
      ensures !loading
      ensures priceHistory == Push(old(priceHistory), PricePoint(time, prices.au9999.price))
      ensures ChartShown(priceHistory) <==> old(priceHistory) != []
    {
      goldPrices := Some(prices);
      priceTrend := Some(trend);
      lastUpdated := Some(stamp);
      loading := false;
      ChartShownAfterPush(priceHistory, PricePoint(time, prices.au9999.price));
      priceHistory := Push(priceHistory, PricePoint(time, prices.au9999.price));
    }

    /**
     * What the page passes to the chart component: the whole history when it
     * has more than one point, nothing (the placeholder) otherwise. Whatever
     * the page hands over, the component turns into the history's own labels
     * and prices; whatever it keeps back, the component would not chart.
     */
    function ChartData(): (data: Option<seq<PricePoint>>)
      reads this
      ensures data.Some? ==> ChartOptionFor(data.value) == Some(ChartOption(XAxis(priceHistory), SeriesData(priceHistory)))
      ensures data.None? ==> ChartOptionFor(priceHistory).None?
    {
      if |priceHistory| > 1 then Some(priceHistory) else None
    }
  }

  /**
   * The page's gate and the chart's gate agree: a history the page hands over
   * always gets a chart option, and draws once the canvas is ready; a history
   * the page keeps back would have drawn nothing anyway.
   */
  lemma ChartGatesAgree(history: seq<PricePoint>, ecReady: bool)
    ensures ChartShown(history) ==> ChartOptionFor(history).Some? && (ecReady ==> Renders(history, ecReady))
    ensures !ChartShown(history) ==> ChartOptionFor(history).None? && !Renders(history, ecReady)
  {
  }

  /**
   * Two completed fetches on a fresh page: after the first the placeholder is
   * shown; after the second the chart gets both points, labelled by
   * hour:minute, with the au9999 prices as values.
   */
  method FirstChart(first: Snapshot, second: Snapshot, trend: Trend, stamp: string, t1: string, t2: string)
    returns (shownAfterOne: bool, axis: seq<string>, series: seq<int>)
    ensures !shownAfterOne
    ensures axis == [AxisLabel(t1), AxisLabel(t2)]
    ensures series == [first.au9999.price, second.au9999.price]
  {
    var s1, s2 := PricePoint(t1, first.au9999.price), PricePoint(t2, second.au9999.price);
    var page := new Index();
    page.BeginFetch();
    page.CompleteFetch(first, trend, stamp, t1);
    shownAfterOne := page.ChartData().Some?;
    assert page.priceHistory == [s1];
    page.BeginFetch();
    page.CompleteFetch(second, trend, stamp, t2);
    assert page.priceHistory == [s1, s2];
    var data := page.ChartData();
    assert data == Some([s1, s2]);
    TwoPointOption(s1, s2);
    var option := ChartOptionFor([s1, s2]);
    axis, series := option.value.xAxis, option.value.series;
  }

  /** The chart option for a two-point history. */
  lemma TwoPointOption(a: PricePoint, b: PricePoint)
    ensures ChartOptionFor([a, b]) == Some(ChartOption([AxisLabel(a.time), AxisLabel(b.time)], [a.price, b.price]))
  {
    var option := ChartOptionFor([a, b]).value;
    assert option.xAxis == [AxisLabel(a.time), AxisLabel(b.time)];
    assert option.series == [a.price, b.price];
  }
}
