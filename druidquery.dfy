/** `DruidQueryBuilder` of the dashboard API: builds the JSON bodies of Druid
    timeseries and topN queries. A query body is a record with one field
    per JSON key; a key that only some queries carry is an `Option` field,
    present exactly when it is `Some`. A Python argument that may be `None`
    is an `Option` too, and Python's truthiness of a list (`None` and `[]`
    are false) is `NonEmpty`. */
module DruidQuery {
  import opened Wrappers

  /** The JSON values that appear inside aggregations, filters and the
      query context. */
  datatype Json =
    | JNull
    | JBool(b: bool)
    | JNum(n: int)
    | JStr(s: string)
    | JArr(items: seq<Json>)
    | JObj(fields: map<string, Json>)

  /** A query body. `dimension`, `metric` and `threshold` are the keys only
      a topN query has; `filter` and `dimensions` are the keys added on
      demand. */
  datatype Query = Query(
    queryType: string,
    dataSource: string,
    intervals: seq<string>,
    granularity: string,
    dimension: Option<string>,
    metric: Option<string>,
    threshold: Option<int>,
    aggregations: seq<Json>,
    filter: Option<Json>,
    dimensions: Option<seq<string>>,
    context: Json)

  /** The default of `granularity` in `build_timeseries_query`. */
  const DefaultGranularity: string := "hour"
  /** The default of `threshold` in `build_topn_query`. */
  const DefaultThreshold: int := 10
  /** The `context.timeout` every query carries, in milliseconds. */
  const QueryTimeoutMillis: int := 60000

  /** Python truthiness of an optional list. */
  predicate NonEmpty<T>(o: Option<seq<T>>)
  {
    o.Some? && |o.value| > 0
  }

  /** An event count named "events" and a distinct-user estimate named
      "unique_users" over the `user_id` column. */
  function DefaultAggregations(): seq<Json>
  {
    [JObj(map["type" := JStr("count"), "name" := JStr("events")]),
     JObj(map["type" := JStr("hyperUnique"), "name" := JStr("unique_users"), "fieldName" := JStr("user_id")])]
  }

  function TimeoutContext(): Json
  {
    JObj(map["timeout" := JNum(QueryTimeoutMillis)])
  }

  /** The ISO-8601 interval `start/end`. */
  function Interval(startTime: string, endTime: string): string
  {
    startTime + "/" + endTime
  }

  /** The conjunction of the given filters. */
  function AndFilter(filters: seq<Json>): Json
  {
    JObj(map["type" := JStr("and"), "fields" := JArr(filters)])
  }

  /** `build_timeseries_query`. */
  function BuildTimeseriesQuery(datasource: string, startTime: string, endTime: string, granularity: string,
                                aggregations: Option<seq<Json>>, filters: Option<seq<Json>>,
                                dimensions: Option<seq<string>>): (q: Query)
    ensures q.queryType == "timeseries" && q.dataSource == datasource && q.granularity == granularity
    ensures q.intervals == [Interval(startTime, endTime)]
    ensures q.context == TimeoutContext()
    ensures q.aggregations == if NonEmpty(aggregations) then aggregations.value else DefaultAggregations()
    ensures |q.aggregations| > 0
    ensures q.dimension.None? && q.metric.None? && q.threshold.None?
    ensures q.filter == if NonEmpty(filters) then Some(AndFilter(filters.value)) else None
    ensures FilterOf(q) == if NonEmpty(filters) then filters else None
    ensures q.dimensions.Some? <==> NonEmpty(dimensions)
    ensures q.dimensions.Some? ==> q.dimensions == dimensions
  {
    var query := Query("timeseries", datasource, [Interval(startTime, endTime)], granularity,
                       None, None, None,
                       if NonEmpty(aggregations) then aggregations.value else DefaultAggregations(),
                       None, None, TimeoutContext());
    var withFilter := if NonEmpty(filters) then query.(filter := Some(AndFilter(filters.value))) else query;
    if NonEmpty(dimensions) then withFilter.(dimensions := dimensions) else withFilter
  }

  /** `build_topn_query`. */
  function BuildTopNQuery(datasource: string, startTime: string, endTime: string, dimension: string,
                          metric: string, threshold: int, filters: Option<seq<Json>>): (q: Query)
    ensures q.queryType == "topN" && q.dataSource == datasource && q.granularity == "all"
    ensures q.intervals == [Interval(startTime, endTime)]
    ensures q.context == TimeoutContext()
    ensures q.dimension == Some(dimension) && q.metric == Some(metric) && q.threshold == Some(threshold)
    ensures q.aggregations == DefaultAggregations()
    ensures q.filter == if NonEmpty(filters) then Some(AndFilter(filters.value)) else None
    ensures FilterOf(q) == if NonEmpty(filters) then filters else None
    ensures q.dimensions.None?
  {
    var query := Query("topN", datasource, [Interval(startTime, endTime)], "all",
                       Some(dimension), Some(metric), Some(threshold),
                       DefaultAggregations(), None, None, TimeoutContext());
    if NonEmpty(filters) then query.(filter := Some(AndFilter(filters.value))) else query
  }

  /** The filters a query applies: the operands of its "and" filter, `None`
      when it has no filter. */
  function FilterOf(q: Query): Option<seq<Json>>
  {
    match q.filter
    case Some(JObj(f)) =>
      if "type" in f && f["type"] == JStr("and") && "fields" in f && f["fields"].JArr? then Some(f["fields"].items)
      else None
    case _ => None
  }

  /** The index of the first `c` in `s`, if any. */
  function FirstIndex(s: string, c: char): (r: Option<nat>)
    ensures r.None? <==> c !in s
    ensures r.Some? ==> r.value < |s| && s[r.value] == c && c !in s[..r.value]
  {
    if s == [] then None
    else if s[0] == c then Some(0)
    else match FirstIndex(s[1..], c)
      case None => None
      case Some(i) =>
        assert s[..i + 1] == [s[0]] + s[1..][..i];
        Some(i + 1)
  }

  /** Splits an interval at its first '/' into start and end. */
  function SplitInterval(s: string): (r: Option<(string, string)>)
    ensures r.Some? ==> '/' !in r.value.0 && Interval(r.value.0, r.value.1) == s
    ensures r.None? <==> '/' !in s
  {
    match FirstIndex(s, '/')
    case None => None
    case Some(i) =>
      assert s == s[..i] + "/" + s[i + 1..];
      Some((s[..i], s[i + 1..]))
  }

  /** The start and end of a query's single interval. */
  function IntervalOf(q: Query): Option<(string, string)>
  {
    if |q.intervals| == 1 then SplitInterval(q.intervals[0]) else None
  }

  /** Splitting undoes `Interval` whenever the start has no '/' (an ISO-8601
      timestamp never does). */
  lemma {:induction false} SplitIntervalInverse(startTime: string, endTime: string)
    requires '/' !in startTime
    ensures SplitInterval(Interval(startTime, endTime)) == Some((startTime, endTime))
  {
    var s := Interval(startTime, endTime);
    assert s[|startTime|] == '/';
    assert s[..|startTime|] == startTime;
    assert s[|startTime| + 1..] == endTime;
  }

  /** Both builders put exactly one interval in their query, from which the
      requested start and end read back. */
  lemma QueriesCarryInterval(datasource: string, startTime: string, endTime: string, granularity: string,
                             aggregations: Option<seq<Json>>, filters: Option<seq<Json>>,
                             dimensions: Option<seq<string>>, dimension: string, metric: string, threshold: int)
    requires '/' !in startTime
    ensures IntervalOf(BuildTimeseriesQuery(datasource, startTime, endTime, granularity, aggregations, filters, dimensions))
      == Some((startTime, endTime))
    ensures IntervalOf(BuildTopNQuery(datasource, startTime, endTime, dimension, metric, threshold, filters))
      == Some((startTime, endTime))
  {
    SplitIntervalInverse(startTime, endTime);
  }

  /** A timeseries query with default aggregations and no dimensions is the
      topN query over the same arguments without its topN keys and with the
      granularity asked for: the two builders agree on the data source, the
      interval, the aggregations, the filter and the timeout. */
  lemma BuildersAgree(datasource: string, startTime: string, endTime: string, granularity: string,
                      filters: Option<seq<Json>>, dimension: string, metric: string, threshold: int)
    ensures var ts := BuildTimeseriesQuery(datasource, startTime, endTime, granularity, None, filters, None);
      var tn := BuildTopNQuery(datasource, startTime, endTime, dimension, metric, threshold, filters);
      ts == tn.(queryType := "timeseries", granularity := granularity,
                dimension := None, metric := None, threshold := None)
  {
  }

  /** The defaulted arguments of the two builders: an hourly timeseries
      query and a top-10 query. */
  lemma DefaultArguments(datasource: string, startTime: string, endTime: string, dimension: string, metric: string)
    ensures BuildTimeseriesQuery(datasource, startTime, endTime, DefaultGranularity, None, None, None).granularity == "hour"
    ensures BuildTopNQuery(datasource, startTime, endTime, dimension, metric, DefaultThreshold, None).threshold == Some(10)
  {
  }
}
