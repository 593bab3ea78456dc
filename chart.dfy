/** The `combinedData` memo of `src/components/Chart.tsx`: the original series
    and the forecast laid end to end as one indexed list, each entry carrying
    its value in the column of the series it came from and nothing in the
    other. */
module ChartData {
  import opened Types

  /** One chart entry; `None` is the `null` of the other series' column. */
  datatype ChartPoint = ChartPoint(index: nat, timestamp: string, original: Option<Num>, predicted: Option<Num>)

  /** The entry for the `i`-th original point. */
  function OriginalPoint(item: TimeSeriesData, i: nat): ChartPoint {
    ChartPoint(i, item.timestamp, Some(item.value), None)
  }

  /** The entry for the `j`-th forecast point, after `n` original points. */
  function PredictedPoint(item: TimeSeriesData, n: nat, j: nat): ChartPoint {
    ChartPoint(n + j, item.timestamp, None, Some(item.value))
  }

  /** What the memo is meant to compute: every original point in order, then
      every forecast point in order. */
  ghost predicate IsCombined(original: seq<TimeSeriesData>, predicted: seq<TimeSeriesData>, data: seq<ChartPoint>) {
    && |data| == |original| + |predicted|
    && (forall i :: 0 <= i < |original| ==> data[i] == OriginalPoint(original[i], i))
    && (forall j :: 0 <= j < |predicted| ==>
          data[|original| + j] == PredictedPoint(predicted[j], |original|, j))
  }

  /** `combinedData`: the two `forEach` loops pushing onto `data`. */
  method CombinedData(original: seq<TimeSeriesData>, predicted: seq<TimeSeriesData>)
    returns (data: seq<ChartPoint>)
    ensures IsCombined(original, predicted, data)
  {
    data := [];
    var index := 0;
    while index < |original|
      invariant 0 <= index <= |original| && |data| == index
      invariant forall i :: 0 <= i < index ==> data[i] == OriginalPoint(original[i], i)
    {
      data := data + [OriginalPoint(original[index], index)];
      index := index + 1;
    }
    index := 0;
    while index < |predicted|
      invariant 0 <= index <= |predicted| && |data| == |original| + index
      invariant forall i :: 0 <= i < |original| ==> data[i] == OriginalPoint(original[i], i)
      invariant forall j :: 0 <= j < index ==>
                  data[|original| + j] == PredictedPoint(predicted[j], |original|, j)
    {
      data := data + [PredictedPoint(predicted[index], |original|, index)];
      index := index + 1;
    }
  }

  /** The merge has only one possible result. */
  lemma CombinedUnique(original: seq<TimeSeriesData>, predicted: seq<TimeSeriesData>, a: seq<ChartPoint>, b: seq<ChartPoint>)
    requires IsCombined(original, predicted, a) && IsCombined(original, predicted, b)
    ensures a == b
  {
    forall k | 0 <= k < |a|
      ensures a[k] == b[k]
    {
      if k >= |original| {
        var j := k - |original|;
        assert a[|original| + j] == PredictedPoint(predicted[j], |original|, j);
        assert b[|original| + j] == PredictedPoint(predicted[j], |original|, j);
      }
    }
  }

  /** Every entry's index is its position, and it carries exactly one of the
      two values. */
  lemma CombinedIndexed(original: seq<TimeSeriesData>, predicted: seq<TimeSeriesData>, data: seq<ChartPoint>)
    requires IsCombined(original, predicted, data)
    ensures forall k :: 0 <= k < |data| ==> data[k].index == k
    ensures forall k :: 0 <= k < |data| ==> (data[k].original.Some? != data[k].predicted.Some?)
  {
    forall k | |original| <= k < |data|
      ensures data[k].index == k && data[k].predicted.Some? && data[k].original.None?
    {
      var j := k - |original|;
      assert data[|original| + j] == PredictedPoint(predicted[j], |original|, j);
    }
  }

  /** Original entries all come before forecast entries, and the first
      `|original|` entries are exactly the original ones. */
  lemma CombinedOrder(original: seq<TimeSeriesData>, predicted: seq<TimeSeriesData>, data: seq<ChartPoint>)
    requires IsCombined(original, predicted, data)
    ensures forall k :: 0 <= k < |data| ==> (data[k].original.Some? <==> k < |original|)
    ensures forall k, l :: 0 <= k < l < |data| && data[l].original.Some? ==> data[k].original.Some?
  {
    forall k | |original| <= k < |data|
      ensures data[k].original.None?
    {
      var j := k - |original|;
      assert data[|original| + j] == PredictedPoint(predicted[j], |original|, j);
    }
  }

  /** How many entries carry an original value. */
  function CountOriginal(data: seq<ChartPoint>): (n: nat)
    ensures n <= |data|
  {
    if data == [] then 0
    else CountOriginal(data[..|data| - 1]) + (if data[|data| - 1].original.Some? then 1 else 0)
  }

  /** How many entries carry a forecast value. */
  function CountPredicted(data: seq<ChartPoint>): (n: nat)
    ensures n <= |data|
  {
    if data == [] then 0
    else CountPredicted(data[..|data| - 1]) + (if data[|data| - 1].predicted.Some? then 1 else 0)
  }

  /** Over an original-first prefix the counts split at the boundary. */
  lemma {:induction false} CountsOfPrefix(data: seq<ChartPoint>, n: nat, p: nat)
    requires n <= p <= |data|
    requires forall k :: 0 <= k < |data| ==> (data[k].original.Some? <==> k < n)
    requires forall k :: 0 <= k < |data| ==> (data[k].original.Some? != data[k].predicted.Some?)
    ensures CountOriginal(data[..p]) == n && CountPredicted(data[..p]) == p - n
  {
    if p == n {
      CountsBelow(data, n, n);
    } else {
      CountsOfPrefix(data, n, p - 1);
      assert data[..p][..p - 1] == data[..p - 1];
    }
  }

  /** Before the boundary, every entry is an original one. */
  lemma {:induction false} CountsBelow(data: seq<ChartPoint>, n: nat, p: nat)
    requires p <= n <= |data|
    requires forall k :: 0 <= k < |data| ==> (data[k].original.Some? <==> k < n)
    requires forall k :: 0 <= k < |data| ==> (data[k].original.Some? != data[k].predicted.Some?)
    ensures CountOriginal(data[..p]) == p && CountPredicted(data[..p]) == 0
  {
    if p > 0 {
      CountsBelow(data, n, p - 1);
      assert data[..p][..p - 1] == data[..p - 1];
    }
  }

  /** The chart's two point counts are the two input lengths. */
  lemma CombinedCounts(original: seq<TimeSeriesData>, predicted: seq<TimeSeriesData>, data: seq<ChartPoint>)
    requires IsCombined(original, predicted, data)
    ensures CountOriginal(data) == |original|
    ensures CountPredicted(data) == |predicted|
  {
    CombinedOrder(original, predicted, data);
    CombinedIndexed(original, predicted, data);
    CountsOfPrefix(data, |original|, |data|);
    assert data[..|data|] == data;
  }
}
