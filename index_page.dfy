/**
 * The index page (src/pages/index/index.tsx): the component's state and
 * the two steps of a fetch. `fetchGoldPrices` sets `loading` and schedules
 * a callback; the callback publishes a snapshot, a trend and a timestamp and
 * appends one sample to the history. Here the two halves are `BeginFetch`
 * and `CompleteFetch`; the clock strings arrive as parameters.
 */
module IndexPage {
  import opened Nullable
  import opened Quotes
  import opened History

  class Index {
    var goldPrices: Option<Snapshot>
    var loading: bool
    var lastUpdated: Option<string>
    var priceTrend: Option<Trend>
    var priceHistory: seq<PricePoint>

    /** The history never holds more than `Capacity` samples. */
    ghost predicate Valid()
      reads this
    {
      |priceHistory| <= Capacity
    }

    /** First render: nothing fetched yet, the loading indicator on, an empty history. */
    constructor ()
      ensures Valid()
      ensures goldPrices == None && priceTrend == None && lastUpdated == None
      ensures loading && priceHistory == []
    {
      goldPrices := None;
      loading := true;
      lastUpdated := None;
      priceTrend := None;
      priceHistory := [];
    }

    /**
     * Start of `fetchGoldPrices` (initial load, each 5-second tick, the refresh
     * button): only `loading` changes. There is no in-flight guard, so this may
     * run while an earlier fetch is still pending.
     */
    method BeginFetch()
      requires Valid()
      modifies this`loading
      ensures Valid() && loading
    {
      loading := true;
    }

    /**
     * The scheduled callback: the latest snapshot, trend and timestamp replace
     * the old ones wholesale, `loading` clears, and the au9999 price at the
     * local `time` is appended to the history, evicting the oldest sample once
     * ten are held. The `try/catch` around the scheduling never sees an error
     * raised here, so there is no failure path.
     */
    method CompleteFetch(prices: Snapshot, trend: Trend, stamp: string, time: string)
      requires Valid()
      modifies this
      ensures Valid()
      ensures goldPrices == Some(prices) && priceTrend == Some(trend) && lastUpdated == Some(stamp)
      ensures !loading
      ensures priceHistory == Push(old(priceHistory), PricePoint(time, prices.au9999.price))
      ensures ChartArea() <==> old(priceHistory) != []
    {
      goldPrices := Some(prices);
      priceTrend := Some(trend);
      lastUpdated := Some(stamp);
      loading := false;
      ChartShownAfterPush(priceHistory, PricePoint(time, prices.au9999.price));
      priceHistory := Push(priceHistory, PricePoint(time, prices.au9999.price));
    }

    /** The chart area replaces the placeholder exactly when the history has more than one point. */
    predicate ChartArea()
      reads this
    {
      ChartShown(priceHistory)
    }
  }

  /**
   * Two refresh taps before either callback runs: both fetches complete and
   * both append, because nothing guards against overlapping fetches, and
   * the chart area then replaces the placeholder.
   */
  method OverlappingRefreshes(first: Snapshot, second: Snapshot, trend: Trend, stamp: string, t1: string, t2: string)
    returns (history: seq<PricePoint>, chart: bool)
    ensures history == [PricePoint(t1, first.au9999.price), PricePoint(t2, second.au9999.price)]
    ensures chart
  {
    var s1, s2 := PricePoint(t1, first.au9999.price), PricePoint(t2, second.au9999.price);
    var page := new Index();
    page.BeginFetch();
    page.BeginFetch();
    page.CompleteFetch(first, trend, stamp, t1);
    PushEviction([], s1);
    assert page.priceHistory == [s1];
    page.CompleteFetch(second, trend, stamp, t2);
    PushEviction([s1], s2);
    history := page.priceHistory;
    chart := page.ChartArea();
  }

  /**
   * Twelve completed fetches with au9999 at 480.00, 481.00, ..., 491.00: the
   * history ends with the last ten prices, the first two evicted.
   */
  method TwelveFetches(prices: seq<Snapshot>, trend: Trend, stamp: string, time: string)
    returns (kept: seq<int>)
    requires |prices| == 12
    requires forall k :: 0 <= k < 12 ==> prices[k].au9999.price == 48000 + 100 * k
    ensures kept == [48200, 48300, 48400, 48500, 48600, 48700, 48800, 48900, 49000, 49100]
  {
    var page := new Index();
    var k := 0;
    ghost var samples: seq<PricePoint> := [];
    while k < 12
      invariant 0 <= k <= 12
      invariant page.Valid()
      invariant |samples| == k
      invariant forall j :: 0 <= j < k ==> samples[j] == PricePoint(time, prices[j].au9999.price)
      invariant page.priceHistory == AppendAll([], samples)
    {
      page.BeginFetch();
      page.CompleteFetch(prices[k], trend, stamp, time);
      ghost var sample := PricePoint(time, prices[k].au9999.price);
      AppendAllSnoc([], samples, sample);
      samples := samples + [sample];
      k := k + 1;
    }
    AppendAllIsLastN([], samples);
    assert [] + samples == samples;
    LastTenOfTwelve(samples);
    kept := Map((p: PricePoint) => p.price, page.priceHistory);
  }

  /** The arithmetic of the twelve-fetch run, on the samples themselves. */
  lemma LastTenOfTwelve(samples: seq<PricePoint>)
    requires |samples| == 12
    requires forall j :: 0 <= j < 12 ==> samples[j].price == 48000 + 100 * j
    ensures Map((p: PricePoint) => p.price, LastN(samples, Capacity))
         == [48200, 48300, 48400, 48500, 48600, 48700, 48800, 48900, 49000, 49100]
  {
    var history := LastN(samples, Capacity);
    assert history == samples[2..];
    var kept := Map((p: PricePoint) => p.price, history);
    forall j | 0 <= j < 10
      ensures kept[j] == 48200 + 100 * j
    {
      assert history[j] == samples[j + 2];
    }
  }
}
