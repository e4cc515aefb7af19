/**
 * The mock price provider. Every `Math.random()` draw is a parameter in
 * [0, 1) and the calendar is a parameter too; `toFixed(2)` is rounding to
 * hundredths on exact reals.
 */
module PriceService {
  import opened Quotes

  /**
   * `x.toFixed(2)` read back as a number of hundredths, for the non-negative
   * amounts the provider formats: the nearest hundredth, halves rounding up.
   * (For a negative `x`, `toFixed` rounds halves away from zero instead.)
   */
  function Round2(x: real): (cents: int)
    requires x >= 0.0
    ensures cents as real - 0.5 <= x * 100.0 < cents as real + 0.5
  {
    (x * 100.0 + 0.5).Floor
  }

  /** Adding a whole number of units before rounding adds exactly that many hundreds after it. */
  lemma Round2Shift(x: real, units: int)
    requires x >= 0.0 && units >= 0
    ensures Round2(x + units as real) == Round2(x) + 100 * units
  {
    assert (x + units as real) * 100.0 + 0.5 == (x * 100.0 + 0.5) + (100 * units) as real;
  }

  /** A draw of `Math.random()`. */
  predicate IsDraw(r: real)
  {
    0.0 <= r < 1.0
  }

  /**
   * `getCurrentPrices`: all four instruments, from one base price in
   * [480, 500) yuan per gram: au9999 is base + 5, au999 base + 2, au100 the
   * base; the international price is drawn separately in [62.5, 64.5).
   */
  function CurrentPrices(baseDraw: real, intlDraw: real): (s: Snapshot)
    requires IsDraw(baseDraw) && IsDraw(intlDraw)
    ensures s.au9999.price == s.au100.price + 500
    ensures s.au999.price == s.au100.price + 200
    ensures s.au9999.price > s.au999.price > s.au100.price
    ensures 48000 <= s.au100.price <= 50000
    ensures 6250 <= s.international.price <= 6450
    ensures s.au9999.name == "黄金9999" && s.au999.name == "黄金999" && s.au100.name == "足金"
    ensures s.international.name == "国际金价"
    ensures s.au9999.unit == "元/克" && s.au999.unit == "元/克" && s.au100.unit == "元/克"
    ensures s.international.unit == "美元/盎司"
  {
    var base := 480.0 + baseDraw * 20.0;
    Round2Shift(base, 5);
    Round2Shift(base, 2);
    Snapshot(
      Quote("黄金9999", Round2(base + 5.0), "元/克"),
      Quote("黄金999", Round2(base + 2.0), "元/克"),
      Quote("足金", Round2(base), "元/克"),
      Quote("国际金价", Round2(62.5 + intlDraw * 2.0), "美元/盎司"))
  }

  /**
   * `getPriceTrend`: up exactly when the first draw exceeds one half, a change
   * of `2 * draw` percent rounded to hundredths, and the glyph "+" exactly for
   * an upward trend, "-" otherwise.
   */
  function PriceTrend(trendDraw: real, changeDraw: real): (t: Trend)
    requires IsDraw(trendDraw) && IsDraw(changeDraw)
    ensures t.trend == Up <==> trendDraw > 0.5
    ensures t.direction == "+" <==> t.trend == Up
    ensures t.direction == "-" <==> t.trend == Down
    ensures 0 <= t.change <= 200
  {
    var trend := if trendDraw > 0.5 then Up else Down;
    Trend(trend, Round2(changeDraw * 2.0), if trend == Up then "+" else "-")
  }

  /** One mock daily price: the week's base (at least 480) plus noise of at most 2.5 either way, rounded. */
  function HistoricalPrice(base: real, noiseDraw: real): (price: int)
    requires 480.0 <= base && IsDraw(noiseDraw)
    ensures 100.0 * base - 250.5 < price as real < 100.0 * base + 250.5
  {
    Round2(base + (noiseDraw - 0.5) * 5.0)
  }

  /**
   * `getHistoricalPrices`: seven days ending today, oldest first. `today` is
   * the current day number and `dateLabel` formats a day number as
   * month-day; the base price is drawn in [480, 490).
   */
  method HistoricalPrices(baseDraw: real, noiseDraws: seq<real>, today: int, dateLabel: int -> string)
    returns (h: Historical)
    requires IsDraw(baseDraw)
    requires |noiseDraws| == 7 && forall k :: 0 <= k < 7 ==> IsDraw(noiseDraws[k])
    ensures |h.dates| == 7 && |h.prices| == |h.dates|
    ensures forall k :: 0 <= k < 7 ==> h.dates[k] == dateLabel(today - 6 + k)
    ensures forall k :: 0 <= k < 7 ==> h.prices[k] == HistoricalPrice(480.0 + baseDraw * 10.0, noiseDraws[k])
    ensures forall k :: 0 <= k < 7 ==> 47750 <= h.prices[k] <= 49250
  {
    var base := 480.0 + baseDraw * 10.0;
    var dates: seq<string> := [];
    var prices: seq<int> := [];
    var i := 6;
    while i >= 0
      invariant -1 <= i <= 6
      invariant |dates| == 6 - i && |prices| == |dates|
      invariant forall k :: 0 <= k < |dates| ==> dates[k] == dateLabel(today - 6 + k)
      invariant forall k :: 0 <= k < |prices| ==> prices[k] == HistoricalPrice(base, noiseDraws[k])
      invariant forall k :: 0 <= k < |prices| ==> 47750 <= prices[k] <= 49250
    {
      var k := 6 - i;
      dates := dates + [dateLabel(today - i)];
      prices := prices + [HistoricalPrice(base, noiseDraws[k])];
      i := i - 1;
    }
    h := Historical(dates, prices);
  }
}
