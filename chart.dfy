/**
 * The pure part of the chart component: from the price history to the
 * x-axis labels and the series values handed to the chart library, the
 * gate that decides whether anything is drawn, and the tooltip text.
 */
module GoldPriceChart {
  import opened Nullable
  import opened Text
  import opened History

  /**
   * The x-axis label of one sample: the first two `:`-separated parts of its
   * time joined by `:` ("14:23:05" gives "14:23"), or the time itself when it
   * has fewer than two parts. It is always a prefix of the time.
   */
  function AxisLabel(time: string): (tick: string)
    ensures tick <= time
    ensures ':' !in time ==> tick == time
  {
    var parts := Split(time, ':');
    SplitLabel(time);
    if |parts| >= 2 then parts[0] + ":" + parts[1] else time
  }

  /** Where a label stops: at the second colon of the time, or at its end. */
  function LabelEnd(time: string): (e: nat)
  {
    var i := IndexOf(time, ':');
    if i == |time| then |time| else i + 1 + IndexOf(time[i + 1..], ':')
  }

  /** The two split parts, joined, are the time up to the label's end. */
  lemma SplitLabel(time: string)
    ensures LabelEnd(time) <= |time|
    ensures IndexOf(time, ':') < |time| ==>
      |Split(time, ':')| >= 2 && Split(time, ':')[0] + ":" + Split(time, ':')[1] == time[..LabelEnd(time)]
    ensures IndexOf(time, ':') == |time| ==> |Split(time, ':')| == 1 && LabelEnd(time) == |time|
  {
    var i := IndexOf(time, ':');
    if i < |time| {
      var j := IndexOf(time[i + 1..], ':');
      FirstTwoParts(time, i, j);
      CutAround(time, i, j);
    } else {
      SplitUnfold(time, ':');
    }
  }

  /** The first two parts of a split at a time that has a colon. */
  lemma FirstTwoParts(time: string, i: nat, j: nat)
    requires i == IndexOf(time, ':') < |time|
    requires j == IndexOf(time[i + 1..], ':')
    ensures |Split(time, ':')| >= 2
    ensures Split(time, ':')[0] == time[..i] && Split(time, ':')[1] == time[i + 1..][..j]
  {
    SplitUnfold(time, ':');
    SplitUnfold(time[i + 1..], ':');
  }

  /** Cutting before and after a separator and gluing it back in between. */
  lemma CutAround(s: string, i: nat, j: nat)
    requires i < |s| && s[i] == ':' && i + 1 + j <= |s|
    ensures s[..i] + ":" + s[i + 1..][..j] == s[..i + 1 + j]
  {
  }

  /** A label is the time cut at `LabelEnd`. */
  lemma AxisLabelEnd(time: string)
    ensures AxisLabel(time) == time[..LabelEnd(time)]
  {
    SplitLabel(time);
  }

  /**
   * What the label keeps of the time: the first colon if there is one, no
   * second colon, and it stops at the end of the time or just before a colon.
   * Together with being a prefix this determines the label.
   */
  lemma AxisLabelShape(time: string)
    ensures ':' in time ==> ':' in AxisLabel(time)
    ensures |AxisLabel(time)| == |time| || time[|AxisLabel(time)|] == ':'
    ensures forall a, b :: 0 <= a < b < |AxisLabel(time)| ==> !(AxisLabel(time)[a] == ':' && AxisLabel(time)[b] == ':')
  {
    AxisLabelEnd(time);
    LabelEndFacts(time);
  }

  /** The time up to the label's end keeps the first colon, holds no other, and stops at the end or before a colon. */
  lemma LabelEndFacts(time: string)
    ensures LabelEnd(time) <= |time|
    ensures ':' in time ==> ':' in time[..LabelEnd(time)]
    ensures LabelEnd(time) == |time| || time[LabelEnd(time)] == ':'
    ensures forall a, b :: 0 <= a < b < LabelEnd(time) ==> !(time[a] == ':' && time[b] == ':')
  {
    var i := IndexOf(time, ':');
    if i < |time| {
      var rest := time[i + 1..];
      var j := IndexOf(rest, ':');
      var e := i + 1 + j;
      assert time[..e][i] == ':';
      forall a, b | 0 <= a < b < e
        ensures !(time[a] == ':' && time[b] == ':')
      {
        if a < i {
          assert time[a] != ':';
        } else {
          assert time[b] == rest[b - i - 1];
        }
      }
      if j < |rest| {
        assert time[e] == rest[j];
      }
    }
  }

  /** Labelling a label changes nothing. */
  lemma AxisLabelIdempotent(time: string)
    ensures AxisLabel(AxisLabel(time)) == AxisLabel(time)
  {
    var tick := AxisLabel(time);
    AxisLabelShape(time);
    AxisLabelShape(tick);
  }

  /**
   * A clock time "hh:mm" followed by nothing or by ":ss..." is labelled
   * "hh:mm", whatever the hour and minute fields hold besides colons.
   */
  lemma ClockLabel(hour: string, minute: string, rest: string)
    requires ':' !in hour && ':' !in minute
    requires rest == [] || rest[0] == ':'
    ensures AxisLabel(hour + ":" + minute + rest) == hour + ":" + minute
  {
    var time := hour + ":" + minute + rest;
    var i := |hour|;
    assert time[i] == ':';
    assert forall k :: 0 <= k < i ==> time[k] == hour[k];
    assert IndexOf(time, ':') == i;
    var after := time[i + 1..];
    assert after == minute + rest;
    assert forall k :: 0 <= k < |minute| ==> after[k] == minute[k];
    assert IndexOf(after, ':') == |minute| by {
      if rest != [] {
        assert after[|minute|] == ':';
      }
    }
    AxisLabelEnd(time);
    assert time[..i + 1 + |minute|] == hour + ":" + minute;
  }

  /** The worked examples: seconds are dropped, hour:minute is kept, a time without colons is kept. */
  lemma AxisLabelExamples()
    ensures AxisLabel("14:23:05") == "14:23"
    ensures AxisLabel("14:23") == "14:23"
    ensures AxisLabel("noon") == "noon"
  {
    assert "14" + ":" + "23" + ":05" == "14:23:05";
    ClockLabel("14", "23", ":05");
    assert "14" + ":" + "23" + "" == "14:23";
    ClockLabel("14", "23", "");
    assert ':' !in "noon";
  }

  /** `data.map(d => label)`: one label per sample, in history order. */
  function XAxis(data: seq<PricePoint>): (labels: seq<string>)
    ensures |labels| == |data|
    ensures forall k :: 0 <= k < |data| ==> labels[k] == AxisLabel(data[k].time)
  {
    Map((d: PricePoint) => AxisLabel(d.time), data)
  }

  /** `data.map(d => d.price)`: the prices unchanged, in history order. */
  function SeriesData(data: seq<PricePoint>): (values: seq<int>)
    ensures |values| == |data|
    ensures forall k :: 0 <= k < |data| ==> values[k] == data[k].price
  {
    Map((d: PricePoint) => d.price, data)
  }

  /**
   * Projection commutes with the history updater: after a fetch, the axis is
   * the old axis pushed with the new label and the series is the old series
   * pushed with the new price.
   */
  lemma ProjectionAfterPush(history: seq<PricePoint>, sample: PricePoint)
    ensures XAxis(Push(history, sample)) == Push(XAxis(history), AxisLabel(sample.time))
    ensures SeriesData(Push(history, sample)) == Push(SeriesData(history), sample.price)
  {
    MapPush((d: PricePoint) => AxisLabel(d.time), history, sample);
    MapPush((d: PricePoint) => d.price, history, sample);
  }

  /** What is passed to `chart.setOption`: categories and values, or nothing for fewer than two points. */
  datatype ChartOption = ChartOption(xAxis: seq<string>, series: seq<int>)

  function ChartOptionFor(data: seq<PricePoint>): (option: Option<ChartOption>)
    ensures option.Some? <==> |data| > 1
    ensures option.Some? ==> |option.value.xAxis| == |data| && |option.value.series| == |data|
    ensures option.Some? ==> forall k :: 0 <= k < |data| ==>
      option.value.xAxis[k] == AxisLabel(data[k].time) && option.value.series[k] == data[k].price
  {
    if |data| > 1 then Some(ChartOption(XAxis(data), SeriesData(data))) else None
  }

  /** The component returns `null` unless it has more than one point and its canvas hook is ready. */
  predicate Renders(data: seq<PricePoint>, ecReady: bool)
    ensures Renders(data, ecReady) <==> ecReady && ChartOptionFor(data).Some?
  {
    |data| > 1 && ecReady
  }

  /** Whenever the component draws, it has set a chart option; with one point or none it draws nothing. */
  lemma RendersOnlyWithOption(data: seq<PricePoint>, ecReady: bool)
    ensures Renders(data, ecReady) ==> ChartOptionFor(data).Some?
    ensures |data| <= 1 ==> !Renders(data, ecReady)
  {
  }

  /** One entry of the axis tooltip's parameter list: category name and the value's text. */
  datatype AxisParam = AxisParam(name: string, value: string)

  /** The tooltip formatter: the first entry's name and value, or the empty string when there is none. */
  function Tooltip(params: Option<seq<AxisParam>>): (text: string)
    ensures text == "" <==> params.None? || params.value == []
    ensures text != "" ==> params.value[0].name <= text
  {
    if params.Some? && params.value != [] then
      params.value[0].name + "<br/>¥" + params.value[0].value
    else
      ""
  }

  /** Reads a tooltip back into the name and value it shows. */
  function ParseTooltip(text: string): (r: Option<(string, string)>)
  {
    var i := IndexOf(text, '<');
    if i + 6 <= |text| && text[i..i + 6] == "<br/>¥" then Some((text[..i], text[i + 6..])) else None
  }

  /** The tooltip keeps both fields of the first entry recoverable, and ignores every other entry. */
  lemma TooltipRoundTrip(first: AxisParam, rest: seq<AxisParam>)
    requires '<' !in first.name
    ensures ParseTooltip(Tooltip(Some([first] + rest))) == Some((first.name, first.value))
  {
    var text := Tooltip(Some([first] + rest));
    var n := |first.name|;
    assert text[n] == '<';
    assert forall k :: 0 <= k < n ==> text[k] == first.name[k];
    assert IndexOf(text, '<') == n;
    assert text[..n] == first.name;
    assert text[n..n + 6] == "<br/>¥";
    assert text[n + 6..] == first.value;
  }
}
