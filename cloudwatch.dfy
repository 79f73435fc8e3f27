/**
 * The metrics endpoint (backend/cloudwatch_endpoint.py): the request
 * records with their defaults, the CloudWatch entry built for each metric,
 * and the batching of the entries into `put_metric_data` calls of at most
 * 20. The CloudWatch client is not modelled: whether it exists, the clock
 * reading and the index of a put call that raises are inputs, and the put
 * calls made (namespace and batch) are returned in order.
 */
module CloudWatchMetrics {
  import opened Wrappers
  import Dicts

  /** `MetricData`; a timestamp is a clock reading, `None` when not given. */
  datatype MetricData = MetricData(value: real, dimensions: Dicts.Dict<string>, timestamp: Option<int>, unit: string)

  /** `MetricsRequest`: the metrics by name, in the order the request lists them. */
  datatype MetricsRequest = MetricsRequest(metrics: Dicts.Dict<MetricData>, source: string, timestamp: Option<string>)

  /** `MetricData(value=v)` with every other field at its default. */
  function DefaultMetricData(value: real): MetricData {
    MetricData(value, [], None, "Count")
  }

  /** `MetricsRequest(metrics=m)` with every other field at its default. */
  function DefaultRequest(metrics: Dicts.Dict<MetricData>): MetricsRequest {
    MetricsRequest(metrics, "frontend", None)
  }

  /** One `{'Name': ..., 'Value': ...}` dimension. */
  datatype Dimension = Dimension(name: string, value: string)

  /** One `metric_entry` as sent to CloudWatch. */
  datatype MetricEntry = MetricEntry(metricName: string, value: real, unit: string, timestamp: int, dimensions: seq<Dimension>)

  /** What `receive_metrics` answers: the success body, or the HTTP error it raises. */
  datatype Response = Success(status: string, metricsSent: nat, timestamp: int) | HttpError(statusCode: int, detail: string)

  /** The arguments of one `put_metric_data` call. */
  datatype PutCall = PutCall(namespace: string, metricData: seq<MetricEntry>)

  const BatchSize: nat := 20
  const Namespace := "VoiceInsight"

  // ---------------------------------------------------------------------
  // Entries

  /** The given dimensions as Name/Value pairs, in order; `str` of a string value is the value itself. */
  function DimensionsOf(dimensions: Dicts.Dict<string>): (ds: seq<Dimension>)
    ensures |ds| == |dimensions|
    ensures forall i | 0 <= i < |ds| :: ds[i] == Dimension(dimensions[i].0, dimensions[i].1)
  {
    seq(|dimensions|, i requires 0 <= i < |dimensions| => Dimension(dimensions[i].0, dimensions[i].1))
  }

  /** The entry for one metric: the given dimensions, then the `Source` dimension; a missing timestamp is the clock reading `now`. */
  function EntryFor(name: string, info: MetricData, source: string, now: int): MetricEntry {
    var dimensions := if info.dimensions != [] then DimensionsOf(info.dimensions) else [];
    MetricEntry(name, info.value, info.unit, info.timestamp.GetOr(now), dimensions + [Dimension("Source", source)])
  }

  /** The list `metric_data`: one entry per metric, in request order. */
  function Entries(request: MetricsRequest, now: int): (es: seq<MetricEntry>)
    ensures |es| == |request.metrics|
  {
    seq(|request.metrics|, i requires 0 <= i < |request.metrics| =>
      EntryFor(request.metrics[i].0, request.metrics[i].1, request.source, now))
  }

  /**
   * Entry `i` carries metric `i`'s name, value and unit, its timestamp or
   * else `now`, and its dimensions in order followed by exactly one more,
   * `Source` = the request's source.
   */
  lemma EntriesSpec(request: MetricsRequest, now: int, i: nat)
    requires i < |request.metrics|
    ensures var e := Entries(request, now)[i];
      var (name, info) := request.metrics[i];
      e.metricName == name && e.value == info.value && e.unit == info.unit &&
      e.timestamp == (if info.timestamp.Some? then info.timestamp.value else now) &&
      |e.dimensions| == |info.dimensions| + 1 &&
      (forall k | 0 <= k < |info.dimensions| :: e.dimensions[k] == Dimension(info.dimensions[k].0, info.dimensions[k].1)) &&
      e.dimensions[|info.dimensions|] == Dimension("Source", request.source)
  {
    var info := request.metrics[i].1;
    var e := Entries(request, now)[i];
    var given := if info.dimensions != [] then DimensionsOf(info.dimensions) else [];
    assert e.dimensions == given + [Dimension("Source", request.source)];
    forall k | 0 <= k < |info.dimensions| ensures e.dimensions[k] == Dimension(info.dimensions[k].0, info.dimensions[k].1) {
      assert e.dimensions[k] == given[k];
    }
  }

  /** A metric given only its value is sent with unit "Count", the clock's time and the one `Source` dimension, "frontend" by default. */
  lemma DefaultEntry(name: string, value: real, now: int)
    ensures Entries(DefaultRequest([(name, DefaultMetricData(value))]), now) ==
      [MetricEntry(name, value, "Count", now, [Dimension("Source", "frontend")])]
  {
    var es := Entries(DefaultRequest([(name, DefaultMetricData(value))]), now);
    var source := [Dimension("Source", "frontend")];
    assert [] + source == source;
    assert es[0] == MetricEntry(name, value, "Count", now, source);
    assert es == [es[0]];
  }

  // ---------------------------------------------------------------------
  // Batches

  /** `ceil(n / 20)`: the number of start indices in `range(0, n, 20)`. */
  function NumBatches(n: nat): nat {
    (n + BatchSize - 1) / BatchSize
  }

  /** `min(a, b)` */
  function Min(a: int, b: int): int {
    if a <= b then a else b
  }

  /** `metric_data[i:i + 20]` for the `j`-th start index `i = 20 * j`. */
  function Batch<T>(entries: seq<T>, j: nat): seq<T>
    requires j < NumBatches(|entries|)
  {
    entries[BatchSize * j..Min(BatchSize * j + BatchSize, |entries|)]
  }

  /** The batches in the order the loop sends them. */
  function Batches<T>(entries: seq<T>): (bs: seq<seq<T>>)
    ensures |bs| == NumBatches(|entries|)
  {
    seq(NumBatches(|entries|), j requires 0 <= j < NumBatches(|entries|) => Batch(entries, j))
  }

  /** The concatenation of a sequence of sequences. */
  function Flatten<T>(ss: seq<seq<T>>): seq<T> {
    if ss == [] then [] else Flatten(ss[..|ss| - 1]) + ss[|ss| - 1]
  }

  /** The first `k` batches concatenate to the entries before index `20 * k`. */
  lemma {:induction false} FlattenPrefix<T>(entries: seq<T>, k: nat)
    requires k <= NumBatches(|entries|)
    ensures Flatten(Batches(entries)[..k]) == entries[..Min(BatchSize * k, |entries|)]
  {
    if k > 0 {
      var bs := Batches(entries);
      assert bs[..k][..k - 1] == bs[..k - 1];
      FlattenPrefix(entries, k - 1);
      assert bs[..k][k - 1] == Batch(entries, k - 1);
      var a := BatchSize * (k - 1);
      assert a < |entries|;
      SliceSplit(entries, a, Min(BatchSize * k, |entries|));
    }
  }

  /** A prefix splits at any point into a shorter prefix and the slice after it. */
  lemma SliceSplit<T>(s: seq<T>, a: nat, b: nat)
    requires a <= b <= |s|
    ensures s[..b] == s[..a] + s[a..b]
  {
  }

  /**
   * The batching: there are ceil(n / 20) batches, none for no entries; each
   * is non-empty and holds at most 20 entries, all but the last exactly 20;
   * and in order they concatenate to the entries.
   */
  lemma BatchesSpec<T>(entries: seq<T>)
    ensures var bs := Batches(entries);
      |bs| * BatchSize >= |entries| && (entries != [] ==> (|bs| - 1) * BatchSize < |entries|) &&
      (entries == [] <==> bs == []) &&
      (forall j | 0 <= j < |bs| :: 0 < |bs[j]| <= BatchSize) &&
      (forall j | 0 <= j < |bs| - 1 :: |bs[j]| == BatchSize) &&
      Flatten(bs) == entries
  {
    var bs := Batches(entries);
    FlattenPrefix(entries, |bs|);
    assert bs[..|bs|] == bs;
  }

  /** One `put_metric_data(Namespace='VoiceInsight', MetricData=batch)` call per batch, in order. */
  function Calls(bs: seq<seq<MetricEntry>>): (cs: seq<PutCall>)
    ensures |cs| == |bs|
    ensures forall j | 0 <= j < |cs| :: cs[j].namespace == Namespace && cs[j].metricData == bs[j]
  {
    if bs == [] then [] else Calls(bs[..|bs| - 1]) + [PutCall(Namespace, bs[|bs| - 1])]
  }

  // ---------------------------------------------------------------------
  // `receive_metrics`

  /** The 503 raised when there is no CloudWatch client. */
  function Unavailable(): Response {
    HttpError(503, "CloudWatch not available")
  }

  /** The 500 raised for an exception while sending. */
  function SendFailed(message: string): Response {
    HttpError(500, "Failed to send metrics: " + message)
  }

  /**
   * `receive_metrics`, with the existence of the client, the clock reading
   * `now` and the first put call that raises (its index among the calls and
   * its message) as inputs. Returns the response and the arguments of
   * every put call made, in order. The metrics come from a parsed dict, so
   * each name occurs once.
   */
  method ReceiveMetrics(request: MetricsRequest, clientAvailable: bool, now: int, putError: Option<(nat, string)>)
    returns (response: Response, puts: seq<PutCall>)
    requires Dicts.DistinctKeys(request.metrics)
    ensures !clientAvailable ==> response == Unavailable() && puts == []
    ensures clientAvailable && (putError.None? || putError.value.0 >= NumBatches(|request.metrics|)) ==>
      response == Success("success", |request.metrics|, now) && puts == Calls(Batches(Entries(request, now)))
    ensures clientAvailable && putError.Some? && putError.value.0 < NumBatches(|request.metrics|) ==>
      response == SendFailed(putError.value.1) && puts == Calls(Batches(Entries(request, now))[..putError.value.0 + 1])
  {
    if !clientAvailable {
      return Unavailable(), [];
    }
    var metricData := BuildEntries(request, now);
    var failure;
    puts, failure := SendBatches(metricData, putError);
    if failure.Some? {
      return SendFailed(failure.value), puts;
    }
    return Success("success", |metricData|, now), puts;
  }

  /** The loop over `request.metrics.items()` that builds `metric_data`. */
  method BuildEntries(request: MetricsRequest, now: int) returns (metricData: seq<MetricEntry>)
    ensures metricData == Entries(request, now)
  {
    metricData := [];
    for k := 0 to |request.metrics|
      invariant metricData == Entries(request, now)[..k]
    {
      var (metricName, metricInfo) := request.metrics[k];
      var dimensions: seq<Dimension> := [];
      if metricInfo.dimensions != [] {
        dimensions := DimensionsOf(metricInfo.dimensions);
      }
      dimensions := dimensions + [Dimension("Source", request.source)];
      var metricEntry := MetricEntry(metricName, metricInfo.value, metricInfo.unit, metricInfo.timestamp.GetOr(now), dimensions);
      metricData := metricData + [metricEntry];
    }
  }

  /**
   * The loop that sends the batches, the put call with index `putError.0`
   * raising `putError.1`: the calls made, and the message of the one that
   * raised.
   */
  method SendBatches(metricData: seq<MetricEntry>, putError: Option<(nat, string)>)
    returns (puts: seq<PutCall>, failure: Option<string>)
    ensures (putError.None? || putError.value.0 >= NumBatches(|metricData|)) ==>
      failure.None? && puts == Calls(Batches(metricData))
    ensures putError.Some? && putError.value.0 < NumBatches(|metricData|) ==>
      failure == Some(putError.value.1) && puts == Calls(Batches(metricData)[..putError.value.0 + 1])
  {
    ghost var all := Batches(metricData);
    puts := [];
    var i := 0;
    while i < |metricData|
      invariant i == BatchSize * |puts| && |puts| <= |all|
      invariant puts == Calls(all[..|puts|])
      invariant putError.Some? ==> putError.value.0 >= |puts|
      decreases |metricData| - i
    {
      var batch := metricData[i..Min(i + BatchSize, |metricData|)];
      assert batch == all[|puts|];
      ghost var sent := all[..|puts| + 1];
      assert sent[..|sent| - 1] == all[..|puts|] && sent[|sent| - 1] == batch;
      puts := puts + [PutCall(Namespace, batch)];
      if putError.Some? && putError.value.0 == |puts| - 1 {
        return puts, Some(putError.value.1);
      }
      i := i + BatchSize;
    }
    assert all[..|puts|] == all;
    return puts, None;
  }
}
