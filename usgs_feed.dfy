/**
  The rainfall extraction of the USGS gauge fetch. The HTTP request and the JSON
  decoding are not modelled: the input is the already-parsed response, in which
  every key and every list position on the path to the readings may be missing.
 */
module UsgsFeed {
  import opened Wrappers

  /** One reading of the series: its value when present and numeric, None otherwise. */
  type Reading = Option<real>

  /** The parsed response, reduced to the path data['value']['timeSeries'][0]['values'][0]['value']. */
  datatype Response = Response(value: Option<ValueBlock>)
  datatype ValueBlock = ValueBlock(timeSeries: Option<seq<TimeSeries>>)
  datatype TimeSeries = TimeSeries(values: Option<seq<ValueList>>)
  datatype ValueList = ValueList(value: Option<seq<Reading>>)

  /** What the fetch reports when anything on the way goes wrong. */
  const Fallback: real := 0.0

  /** The reading series, if the whole path exists (the first series and its first value list). */
  function Readings(data: Response): (r: Option<seq<Reading>>)
    ensures r.None? <==>
      || data.value.None?
      || data.value.value.timeSeries.None?
      || |data.value.value.timeSeries.value| == 0
      || data.value.value.timeSeries.value[0].values.None?
      || |data.value.value.timeSeries.value[0].values.value| == 0
      || data.value.value.timeSeries.value[0].values.value[0].value.None?
    ensures r.Some? ==> r == data.value.value.timeSeries.value[0].values.value[0].value
  {
    match data.value
    case None => None
    case Some(block) =>
      match block.timeSeries
      case None => None
      case Some(series) =>
        if |series| == 0 then None
        else
          match series[0].values
          case None => None
          case Some(lists) =>
            if |lists| == 0 then None else lists[0].value
  }

  /** The last reading of a series, if the series has one. */
  function LastReading(s: seq<Reading>): (r: Reading)
    ensures |s| > 0 ==> r == s[|s| - 1]
    ensures |s| == 0 ==> r.None?
  {
    if |s| == 0 then None else s[|s| - 1]
  }

  /**
    The 24-hour rainfall: the last reading of the series, or the fallback 0.0 when
    the path is missing, the series is empty or the last reading is not numeric.
    It is total: no response makes it fail.
   */
  function LatestRainfall(data: Response): (rain: real)
    ensures Readings(data).Some? && LastReading(Readings(data).value).Some?
            ==> rain == LastReading(Readings(data).value).value
    ensures Readings(data).None? || LastReading(Readings(data).value).None? ==> rain == Fallback
    ensures rain == Fallback || (Readings(data).Some? && Some(rain) in Readings(data).value)
  {
    match Readings(data)
    case None => Fallback
    case Some(s) =>
      match LastReading(s)
      case None => Fallback
      case Some(v) => v
  }

  /** A well-formed response with a single series holding the given readings. */
  function ResponseWith(s: seq<Reading>): Response
  {
    Response(Some(ValueBlock(Some([TimeSeries(Some([ValueList(Some(s))]))]))))
  }

  /** A well-formed response exposes its readings unchanged. */
  lemma ReadingsOfResponseWith(s: seq<Reading>)
    ensures Readings(ResponseWith(s)) == Some(s)
  {
  }

  /** A numeric last reading is what the fetch returns, whatever came before it. */
  lemma LatestIsLastReading(earlier: seq<Reading>, x: real)
    ensures LatestRainfall(ResponseWith(earlier + [Some(x)])) == x
  {
  }

  /** Every failure on the way to a numeric last reading gives 0.0. */
  lemma FailuresFallBack(earlier: seq<Reading>)
    ensures LatestRainfall(ResponseWith([])) == 0.0
    ensures LatestRainfall(ResponseWith(earlier + [None])) == 0.0
    ensures LatestRainfall(Response(None)) == 0.0
    ensures LatestRainfall(Response(Some(ValueBlock(None)))) == 0.0
    ensures LatestRainfall(Response(Some(ValueBlock(Some([]))))) == 0.0
    ensures LatestRainfall(Response(Some(ValueBlock(Some([TimeSeries(None)]))))) == 0.0
    ensures LatestRainfall(Response(Some(ValueBlock(Some([TimeSeries(Some([]))]))))) == 0.0
    ensures LatestRainfall(Response(Some(ValueBlock(Some([TimeSeries(Some([ValueList(None)]))]))))) == 0.0
  {
  }

  /** Only the first value list of the first series is read; later series and lists are ignored. */
  lemma OnlyFirstSeriesIsRead(block: ValueBlock, more: seq<TimeSeries>, first: TimeSeries)
    requires block.timeSeries == Some([first] + more)
    ensures LatestRainfall(Response(Some(block))) == LatestRainfall(Response(Some(ValueBlock(Some([first])))))
  {
  }

  /** Within the first series, value lists after the first one are ignored too. */
  lemma OnlyFirstValueListIsRead(first: ValueList, more: seq<ValueList>)
    ensures LatestRainfall(Response(Some(ValueBlock(Some([TimeSeries(Some([first] + more))])))))
         == LatestRainfall(Response(Some(ValueBlock(Some([TimeSeries(Some([first]))])))))
  {
  }

  /**
    The fallback cannot be told apart from a genuine dry reading: some response
    whose path is missing yields the same rainfall as a series ending in 0.0.
   */
  lemma FailureLooksLikeDryDay()
    ensures exists data :: Readings(data).None? && LatestRainfall(data) == LatestRainfall(ResponseWith([Some(0.0)]))
  {
    var broken := Response(None);
    assert Readings(broken).None? && LatestRainfall(broken) == LatestRainfall(ResponseWith([Some(0.0)]));
  }
}
