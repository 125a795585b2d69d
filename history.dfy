/**
 * ConvertToHistoricalData (internal/api/history.go): validate that the six
 * parallel OHLCV arrays have one length, then zip them index by index.
 * Prices are carried through untouched, so a float64 is modelled as a real.
 */
module History {
  import opened Wrappers
  import opened Types

  /** Historical series as six parallel arrays, as the chart endpoint returns them. */
  datatype Ohlcv = Ohlcv(time: seq<int>, open: seq<real>, high: seq<real>, low: seq<real>, close: seq<real>, volume: seq<int>)

  /** One bar of the zipped series. */
  datatype HistoricalData = HistoricalData(time: int, open: real, high: real, low: real, close: real, volume: int)

  const InconsistentLengths := Text("inconsistent array lengths in OHLCV slices")

  /** Every array has the length of the time array. */
  predicate Consistent(s: Ohlcv) {
    |s.close| == |s.time| && |s.open| == |s.time| && |s.high| == |s.time|
    && |s.low| == |s.time| && |s.volume| == |s.time|
  }

  /** The inverse of the zip: split bars back into six parallel arrays. */
  function Unzip(bars: seq<HistoricalData>): (s: Ohlcv)
    ensures Consistent(s) && |s.time| == |bars|
  {
    Ohlcv(seq(|bars|, i requires 0 <= i < |bars| => bars[i].time),
          seq(|bars|, i requires 0 <= i < |bars| => bars[i].open),
          seq(|bars|, i requires 0 <= i < |bars| => bars[i].high),
          seq(|bars|, i requires 0 <= i < |bars| => bars[i].low),
          seq(|bars|, i requires 0 <= i < |bars| => bars[i].close),
          seq(|bars|, i requires 0 <= i < |bars| => bars[i].volume))
  }

  /** The i-th bar is made of the i-th element of each array. */
  predicate IsBarAt(s: Ohlcv, i: int, bar: HistoricalData)
    requires Consistent(s) && 0 <= i < |s.time|
  {
    bar == HistoricalData(s.time[i], s.open[i], s.high[i], s.low[i], s.close[i], s.volume[i])
  }

  method ConvertToHistoricalData(slices: Ohlcv) returns (r: Result<seq<HistoricalData>, Error>)
    ensures r.Failure? <==> !Consistent(slices)
    ensures r.Failure? ==> r.error == InconsistentLengths
    ensures r.Success? ==> |r.value| == |slices.time|
    ensures r.Success? ==> forall i :: 0 <= i < |r.value| ==> IsBarAt(slices, i, r.value[i])
    ensures r.Success? ==> Unzip(r.value) == slices
  {
    var length := |slices.time|;
    if |slices.close| != length || |slices.open| != length
       || |slices.high| != length || |slices.low| != length || |slices.volume| != length {
      return Failure(InconsistentLengths);
    }
    var data := new HistoricalData[length];
    for i := 0 to length
      invariant forall k :: 0 <= k < i ==> IsBarAt(slices, k, data[k])
    {
      data[i] := HistoricalData(slices.time[i], slices.open[i], slices.high[i],
                                slices.low[i], slices.close[i], slices.volume[i]);
    }
    ZipUnzips(slices, data[..]);
    return Success(data[..]);
  }

  /** Bars built index by index from a consistent series unzip back to that series. */
  lemma ZipUnzips(s: Ohlcv, bars: seq<HistoricalData>)
    requires Consistent(s) && |bars| == |s.time|
    requires forall i :: 0 <= i < |bars| ==> IsBarAt(s, i, bars[i])
    ensures Unzip(bars) == s
  {
    var u := Unzip(bars);
    assert u.time == s.time;
    assert u.open == s.open;
    assert u.high == s.high;
    assert u.low == s.low;
    assert u.close == s.close;
    assert u.volume == s.volume;
  }

  /** Zipping after unzipping gives the bars back: the zip and Unzip are inverse. */
  lemma UnzipZips(bars: seq<HistoricalData>, i: int)
    requires 0 <= i < |bars|
    ensures IsBarAt(Unzip(bars), i, bars[i])
  {
  }
}
