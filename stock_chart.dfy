/** The series alignment of src/components/StockChart/StockChart.tsx: one
    sorted, de-duplicated time axis built from every history, and each
    record's history projected onto it with gaps where it has no point.

    Turning a timestamp into a clock-time label is the parameter `format`. */
module StockChart {
  import opened Wrappers
  import opened Records
  import opened StockTypes

  datatype Color = Color(border: string, background: string)

  /** `colors`: the five line colours, used round-robin. */
  const Palette: seq<Color> := [
    Color("rgba(0,128,0,0.8)", "rgba(0,128,0,0.2)"),
    Color("rgba(255,0,0,0.8)", "rgba(255,0,0,0.2)"),
    Color("rgba(0,0,255,0.8)", "rgba(0,0,255,0.2)"),
    Color("rgba(255,165,0,0.8)", "rgba(255,165,0,0.2)"),
    Color("rgba(128,0,128,0.8)", "rgba(128,0,128,0.2)")
  ]

  /** A line of the chart; `seriesLabel` is its `label` field, and a gap
      (`NaN` in the source) is `None`. */
  datatype Dataset = Dataset(seriesLabel: Symbol, data: seq<Option<real>>, color: Color)

  datatype Chart = Chart(labels: seq<string>, datasets: seq<Dataset>)

  ghost predicate StrictlyIncreasing(s: seq<int>) {
    forall i, j :: 0 <= i < j < |s| ==> s[i] < s[j]
  }

  /** Some point of `data` is stamped `t`. */
  ghost predicate HasPointAt(data: seq<DataPoint>, t: int) {
    exists i :: 0 <= i < |data| && data[i].timestamp == t
  }

  /** `v` is what a lookup of `t` should give: `None` when no point of
      `data` is stamped `t`, otherwise the price of the last such point. */
  ghost predicate IsLastPriceAt(data: seq<DataPoint>, t: int, v: Option<real>) {
    && (v.None? <==> !HasPointAt(data, t))
    && (v.Some? ==>
          exists i :: && 0 <= i < |data| && data[i].timestamp == t && data[i].price == v.value
                      && NoLaterPointAt(data, i, t))
  }

  /** No point after position `i` of `data` is stamped `t`. */
  ghost predicate NoLaterPointAt(data: seq<DataPoint>, i: nat, t: int) {
    forall j :: i < j < |data| ==> data[j].timestamp != t
  }

  /** Some history among `infos` has a point stamped `t`. */
  ghost predicate Occurs(infos: seq<StockInfo>, t: int) {
    exists i :: 0 <= i < |infos| && HasPointAt(infos[i].data, t)
  }

  lemma OccursCons(infos: seq<StockInfo>, t: int)
    requires infos != []
    ensures Occurs(infos, t) <==> HasPointAt(infos[0].data, t) || Occurs(infos[1..], t)
  {
    if Occurs(infos[1..], t) {
      var i :| 0 <= i < |infos| - 1 && HasPointAt(infos[1..][i].data, t);
      assert HasPointAt(infos[i + 1].data, t);
    }
    if Occurs(infos, t) {
      var i :| 0 <= i < |infos| && HasPointAt(infos[i].data, t);
      if i > 0 {
        assert HasPointAt(infos[1..][i - 1].data, t);
      }
    }
  }

  /** `s.data.map(d => d.timestamp)` */
  function Stamps(data: seq<DataPoint>): (ts: seq<int>)
    ensures forall t :: t in ts <==> HasPointAt(data, t)
  {
    var ts := seq(|data|, i requires 0 <= i < |data| => data[i].timestamp);
    assert forall i :: 0 <= i < |data| ==> ts[i] == data[i].timestamp;
    ts
  }

  /** `allSymbols.flatMap(...)`: every timestamp of every history. */
  function AllTimestamps(infos: seq<StockInfo>): (ts: seq<int>)
    ensures forall t :: t in ts <==> Occurs(infos, t)
  {
    if infos == [] then []
    else
      var rest := AllTimestamps(infos[1..]);
      assert forall t :: Occurs(infos, t) <==> HasPointAt(infos[0].data, t) || Occurs(infos[1..], t) by {
        forall t ensures Occurs(infos, t) <==> HasPointAt(infos[0].data, t) || Occurs(infos[1..], t) {
          OccursCons(infos, t);
        }
      }
      Stamps(infos[0].data) + rest
  }

  /** `t` put into its place in a strictly increasing axis, unless there. */
  function Insert(axis: seq<int>, t: int): (r: seq<int>)
    requires StrictlyIncreasing(axis)
    ensures StrictlyIncreasing(r)
    ensures forall x :: x in r <==> x in axis || x == t
  {
    if axis == [] then [t]
    else if t < axis[0] then [t] + axis
    else if t == axis[0] then axis
    else
      var rest := Insert(axis[1..], t);
      assert forall x :: x in rest ==> axis[0] < x;
      [axis[0]] + rest
  }

  /** `Array.from(new Set(ts)).sort((a, b) => a - b)` */
  function SortedUnique(ts: seq<int>): (axis: seq<int>)
    ensures StrictlyIncreasing(axis)
    ensures forall t :: t in axis <==> t in ts
  {
    if ts == [] then []
    else Insert(SortedUnique(ts[..|ts| - 1]), ts[|ts| - 1])
  }

  /** `new Map(data.map(d => [d.timestamp, d.price]))`: entries are set in
      order, so a later point overwrites an earlier one with the same time. */
  function PriceMap(data: seq<DataPoint>): (m: map<int, real>)
    ensures forall t :: IsLastPriceAt(data, t, if t in m then Some(m[t]) else None)
  {
    if data == [] then map[]
    else
      var n := |data|;
      var before := PriceMap(data[..n - 1]);
      var m := before[data[n - 1].timestamp := data[n - 1].price];
      assert forall t :: IsLastPriceAt(data, t, if t in m then Some(m[t]) else None) by {
        forall t ensures IsLastPriceAt(data, t, if t in m then Some(m[t]) else None) {
          assert IsLastPriceAt(data[..n - 1], t, if t in before then Some(before[t]) else None);
          if t == data[n - 1].timestamp {
            assert HasPointAt(data, t);
          } else if t in before {
            var i :| && 0 <= i < n - 1 && data[..n - 1][i].timestamp == t
                     && data[..n - 1][i].price == before[t]
                     && NoLaterPointAt(data[..n - 1], i, t);
            assert HasPointAt(data, t);
            assert NoLaterPointAt(data, i, t) by {
              forall j | i < j < n ensures data[j].timestamp != t {
                if j < n - 1 {
                  assert data[..n - 1][j] == data[j];
                }
              }
            }
          }
        }
      }
      m
  }

  /** `timestamps.map(t => symbolDataMap.get(t) ?? NaN)` */
  function Series(data: seq<DataPoint>, axis: seq<int>): (points: seq<Option<real>>)
    ensures |points| == |axis|
    ensures forall j :: 0 <= j < |axis| ==> IsLastPriceAt(data, axis[j], points[j])
  {
    var m := PriceMap(data);
    seq(|axis|, j requires 0 <= j < |axis| => if axis[j] in m then Some(m[axis[j]]) else None)
  }

  /** The chart's time axis. */
  function Axis(stocks: Stocks): (axis: seq<int>)
    requires Wf(stocks)
    ensures StrictlyIncreasing(axis)
  {
    SortedUnique(AllTimestamps(Values(stocks)))
  }

  /** The time axis is strictly increasing and holds exactly the timestamps
      that occur in some tracked history. */
  lemma AxisIsSortedTimestampSet(stocks: Stocks, t: int)
    requires Wf(stocks)
    ensures StrictlyIncreasing(Axis(stocks))
    ensures t in Axis(stocks) <==> exists k :: k in stocks.entries && HasPointAt(stocks.entries[k].data, t)
  {
    var infos := Values(stocks);
    if t in Axis(stocks) {
      assert Occurs(infos, t);
      var i :| 0 <= i < |infos| && HasPointAt(infos[i].data, t);
      assert stocks.keys[i] in stocks.entries;
    }
    if exists k :: k in stocks.entries && HasPointAt(stocks.entries[k].data, t) {
      var k :| k in stocks.entries && HasPointAt(stocks.entries[k].data, t);
      var i :| 0 <= i < |stocks.keys| && stocks.keys[i] == k;
      assert HasPointAt(infos[i].data, t);
      assert Occurs(infos, t);
    }
  }

  /** The `useMemo` body: the chart data for the current watch list. An
      empty watch list gives no labels and no datasets. Otherwise there is
      one label per axis point, and one dataset per record, in key order,
      labelled with the record's symbol, coloured round-robin, and holding
      for each axis point the price of the last point at that time or a gap. */
  function BuildChart(stocks: Stocks, format: int -> string): (chart: Chart)
    requires Wf(stocks)
    ensures |stocks.keys| == 0 ==> chart == Chart([], [])
    ensures |chart.labels| == |Axis(stocks)|
    ensures forall j :: 0 <= j < |Axis(stocks)| ==> chart.labels[j] == format(Axis(stocks)[j])
    ensures |chart.datasets| == |stocks.keys|
    ensures forall i :: 0 <= i < |stocks.keys| ==>
              var info := stocks.entries[stocks.keys[i]];
              var d := chart.datasets[i];
              && d.seriesLabel == info.symbol
              && d.color == Palette[i % 5]
              && |d.data| == |Axis(stocks)|
              && forall j :: 0 <= j < |Axis(stocks)| ==> IsLastPriceAt(info.data, Axis(stocks)[j], d.data[j])
  {
    if |stocks.keys| == 0 then Chart([], [])
    else
      var infos := Values(stocks);
      var axis := Axis(stocks);
      var labels := seq(|axis|, j requires 0 <= j < |axis| => format(axis[j]));
      var datasets := seq(|infos|, i requires 0 <= i < |infos| =>
        Dataset(infos[i].symbol, Series(infos[i].data, axis), Palette[i % |Palette|]));
      Chart(labels, datasets)
  }
}
