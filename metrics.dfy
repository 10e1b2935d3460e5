/**
 * The metrics writers. The API writer queues metric records on a bounded
 * queue that a publisher drains in batches of at most ten, submitting each
 * batch to the service and keeping the last error instead of raising it;
 * closing it enqueues a poison pill, waits for the publisher to reach it and
 * marks the writer closed. The file writer appends one record per line to a
 * file it opens on the first write.
 *
 * The publisher thread is modelled as a sequence of explicit publish
 * cycles: each call of `PublishMetrics` is one iteration of its loop. The
 * service's `batch_put_metrics` is a function of the call number and the
 * request. Timestamps arrive already normalised (`Moment`).
 */
module Metrics {
  import opened Py
  import opened BaseTypes
  import ApiTypes

  /** One metric record: the attributes of a `_RawMetricData`, which `to_record` returns. */
  type Record = map<string, Value>

  /** A normalised timestamp: the UTC datetime and its POSIX seconds (`timestamp.timestamp()`). */
  datatype Moment = Moment(datetime: Value, epochSeconds: Value)

  /**
   * `_RawMetricData(metric_name, value, timestamp, iteration_number,
   * record_type).to_record()`: the timestamp as seconds in a file record and
   * as a datetime in an API record; `IterationNumber` only when one is given,
   * and then it must be an `int`.
   */
  function MetricRecord(metricName: Value, value: Value, timestamp: Moment, iterationNumber: Value, recordType: string): (r: Result<Record>)
    ensures recordType != "File" && recordType != "API" ==> r == Failure(ValueError("Unknown record type " + recordType))
    ensures (recordType == "File" || recordType == "API") && iterationNumber != NoneV && !(iterationNumber.IntV? || iterationNumber.BoolV?)
      ==> r.Failure? && r.error.cls == "AssertionError"
    ensures r.Success? ==>
      && r.value.Keys == {"Timestamp", "MetricName", "Value"} + (if iterationNumber == NoneV then {} else {"IterationNumber"})
      && r.value["MetricName"] == metricName && r.value["Value"] == value
      && r.value["Timestamp"] == (if recordType == "File" then timestamp.epochSeconds else timestamp.datetime)
      && (iterationNumber != NoneV ==> r.value["IterationNumber"] == iterationNumber)
  {
    if recordType != "File" && recordType != "API" then Failure(ValueError("Unknown record type " + recordType))
    else
      var base := map["Timestamp" := if recordType == "File" then timestamp.epochSeconds else timestamp.datetime,
                       "MetricName" := metricName, "Value" := value];
      if iterationNumber == NoneV then Success(base)
      else if iterationNumber.IntV? || iterationNumber.BoolV? then Success(base["IterationNumber" := iterationNumber])
      else Failure(Exception("AssertionError", ""))
  }

  /** `SageMakerMetricsWriterException(message, errors)`, or any other exception. */
  datatype WriterError = WriterException(message: string, errors: seq<Value>) | OtherError(error: Exception)

  const ClosedWriter := WriterException("log_metric called on a closed writer", [])

  // ---------------------------------------------------------------------------
  // The API writer's queue and batches

  const BatchMaxSize := 10
  const QueueSize := 3 * BatchMaxSize

  /** A queued item: a metric, or the poison pill `_terminate_message` (666101999). */
  datatype QueueItem = Metric(record: Record) | Pill

  /** The items one `_get_items_from_queue` takes: the first, then up to nine more while the queue has any. */
  function TakeBatch(q: seq<QueueItem>): (r: (seq<QueueItem>, seq<QueueItem>))
    requires |q| > 0
    ensures 1 <= |r.0| <= BatchMaxSize
    ensures r.0 + r.1 == q
    ensures |r.0| < BatchMaxSize ==> r.1 == []
  {
    var n := if |q| < BatchMaxSize then |q| else BatchMaxSize;
    (q[..n], q[n..])
  }

  /** The position of the first occurrence of `x` in `xs`. */
  function IndexOf(xs: seq<QueueItem>, x: QueueItem): (i: nat)
    requires x in xs
    ensures i < |xs| && xs[i] == x && x !in xs[..i]
  {
    if xs[0] == x then 0
    else
      var j := IndexOf(xs[1..], x);
      assert xs[..j + 1] == [xs[0]] + xs[1..][..j];
      j + 1
  }

  /** `items.remove(x)`: the first occurrence of `x` removed, everything else kept in order. */
  function RemoveFirst(xs: seq<QueueItem>, x: QueueItem): (r: seq<QueueItem>)
    requires x in xs
    ensures |r| == |xs| - 1
    ensures multiset(r) + multiset{x} == multiset(xs)
  {
    var i := IndexOf(xs, x);
    assert xs == xs[..i] + [x] + xs[i + 1..];
    xs[..i] + xs[i + 1..]
  }

  /** The items of a batch after the pill is stripped (`self._terminate_message in items`, then `remove`). */
  function Stripped(batch: seq<QueueItem>): seq<QueueItem> {
    if Pill in batch then RemoveFirst(batch, Pill) else batch
  }

  /** `[item.to_record() for item in items]`; the pill has no `to_record`. */
  function Records(items: seq<QueueItem>): (r: Result<seq<Record>>)
    ensures r.Success? <==> Pill !in items
    ensures r.Success? ==> |r.value| == |items| && forall i :: 0 <= i < |items| ==> items[i] == Metric(r.value[i])
  {
    if Pill in items then Failure(AttributeError("'int' object has no attribute 'to_record'"))
    else
      assert forall i :: 0 <= i < |items| ==> items[i].Metric?;
      Success(seq(|items|, i requires 0 <= i < |items| => items[i].record))
  }

  /** The records of the metrics of a queue, in order, skipping pills. */
  function Pending(q: seq<QueueItem>): seq<Record> {
    if |q| == 0 then []
    else (if q[0].Metric? then [q[0].record] else []) + Pending(q[1..])
  }

  /** `metric_data[index]`, with Python's indexing from the end for negative indices. */
  function PyIndex(data: seq<Record>, index: Value): (r: Result<Record>)
    ensures index.IntV? && 0 <= index.i < |data| ==> r == Success(data[index.i])
    ensures index.IntV? && -|data| <= index.i < 0 ==> r == Success(data[|data| + index.i])
    ensures index.IntV? && !(-|data| <= index.i < |data|) ==> r.Failure? && r.error.cls == "IndexError"
    ensures !index.IntV? && !index.BoolV? ==> r.Failure? && r.error.cls == "TypeError"
  {
    if index.IntV? || index.BoolV? then
      var n := if index.IntV? then index.i else if index.b then 1 else 0;
      if 0 <= n < |data| then Success(data[n])
      else if -|data| <= n < 0 then Success(data[|data| + n])
      else Failure(IndexError("list index out of range"))
    else Failure(TypeError("list indices must be integers or slices"))
  }

  /**
   * One per-item error of a response: `BatchPutMetricsError.from_boto(error)`
   * with `metric_value` set to the submitted record its `metric_index` names.
   */
  function ErrorObject(codec: NameCodec, error: Value, data: seq<Record>): (r: Result<Value>)
    requires WellFormed(ApiTypes.Classes, codec)
    ensures r.Success? ==>
      && FromBoto(ApiTypes.Classes, codec, "BatchPutMetricsError", error).Success?
      && var o := FromBoto(ApiTypes.Classes, codec, "BatchPutMetricsError", error).value;
      && o.ObjV? && r.value.ObjV? && r.value.cls == o.cls
      && PyIndex(data, ApiTypes.Attr(o, "metric_index")).Success?
      && r.value.attrs == o.attrs["metric_value" := DictV(PyIndex(data, ApiTypes.Attr(o, "metric_index")).value)]
  {
    match FromBoto(ApiTypes.Classes, codec, "BatchPutMetricsError", error)
    case Failure(e) => Failure(e)
    case Success(o) =>
      if !o.ObjV? then Failure(AttributeError("object has no attribute 'metric_index'"))
      else
        match PyIndex(data, ApiTypes.Attr(o, "metric_index"))
        case Failure(e) => Failure(e)
        case Success(record) => Success(ObjV(o.cls, o.attrs["metric_value" := DictV(record)]))
  }

  /** The error objects of a response's `Errors` list, in order, failing at the first that cannot be built. */
  function ErrorObjects(codec: NameCodec, errors: seq<Value>, data: seq<Record>): (r: Result<seq<Value>>)
    requires WellFormed(ApiTypes.Classes, codec)
    ensures r.Success? <==> forall i :: 0 <= i < |errors| ==> ErrorObject(codec, errors[i], data).Success?
    ensures r.Success? ==> |r.value| == |errors| && forall i :: 0 <= i < |errors| ==> r.value[i] == ErrorObject(codec, errors[i], data).value
    ensures r.Failure? ==>
      exists i :: 0 <= i < |errors| && ErrorObject(codec, errors[i], data) == Failure(r.error) && forall j :: 0 <= j < i ==> ErrorObject(codec, errors[j], data).Success?
  {
    MapResult((e: Value) requires WellFormed(ApiTypes.Classes, codec) => ErrorObject(codec, e, data), errors)
  }

  /** The loop of `_publish_metrics` that builds the error objects of a response, one per entry, in order. */
  method CollectErrors(codec: NameCodec, errors: seq<Value>, data: seq<Record>) returns (r: Result<seq<Value>>)
    requires WellFormed(ApiTypes.Classes, codec)
    ensures r == ErrorObjects(codec, errors, data)
  {
    r := BuildEach((e: Value) requires WellFormed(ApiTypes.Classes, codec) => ErrorObject(codec, e, data), errors);
  }

  /** That loop for any way `build` of making one object: each entry in order, stopping at the first that raises. */
  method BuildEach(build: Value --> Result<Value>, entries: seq<Value>) returns (r: Result<seq<Value>>)
    requires forall i :: 0 <= i < |entries| ==> build.requires(entries[i])
    ensures r == MapResult(build, entries)
  {
    var objects: seq<Value> := [];
    var i := 0;
    while i < |entries|
      invariant 0 <= i <= |entries| && |objects| == i
      invariant forall j :: 0 <= j < i ==> build(entries[j]).Success? && objects[j] == build(entries[j]).value
    {
      var made := build(entries[i]);
      if made.Failure? {
        r := Failure(made.error);
        assert MapResult(build, entries) == r by {
          var all := MapResult(build, entries);
          assert all.Failure?;
          var k :| 0 <= k < |entries| && build(entries[k]) == Failure(all.error)
            && forall j :: 0 <= j < k ==> build(entries[j]).Success?;
          assert k == i;
        }
        return;
      }
      objects := objects + [made.value];
      i := i + 1;
    }
    r := Success(objects);
    assert MapResult(build, entries) == r by {
      var all := MapResult(build, entries);
      assert all.Success?;
      assert all.value == objects;
    }
  }

  /**
   * What a `batch_put_metrics` response means: None when its `Errors` entry
   * is falsy, else the error objects. A response that is not a dict or has
   * no `Errors` key raises.
   */
  function ResponseErrors(codec: NameCodec, result: Value, data: seq<Record>): (r: Result<Option<seq<Value>>>)
    requires WellFormed(ApiTypes.Classes, codec)
    ensures r == Success(None) <==> result.DictV? && "Errors" in result.entries && !Truthy(result.entries["Errors"])
    ensures r.Success? && r.value.Some? ==>
      && result.DictV? && "Errors" in result.entries && result.entries["Errors"].ListV?
      && ErrorObjects(codec, result.entries["Errors"].items, data) == Success(r.value.value)
      && |r.value.value| > 0
  {
    if !result.DictV? then Failure(TypeError("object is not subscriptable"))
    else if "Errors" !in result.entries then Failure(KeyError("Errors"))
    else
      var errors := result.entries["Errors"];
      if !Truthy(errors) then Success(None)
      else if !errors.ListV? then Failure(TypeError("object is not iterable"))
      else
        match ErrorObjects(codec, errors.items, data)
        case Failure(e) => Failure(e)
        case Success(os) => Success(Some(os))
  }

  /** The service's `batch_put_metrics`: the call number, the resource ARN and the metric data, to a response. */
  type BatchPut = (nat, string, seq<Record>) -> Result<Value>

  /** The API writer's state: the queue (None once closed), the last error, the terminate flag, the closed flag and the batches submitted so far. */
  datatype WriterState = WriterState(
    queue: Option<seq<QueueItem>>,
    lastException: Option<WriterError>,
    shouldTerminate: bool,
    closed: bool,
    sent: seq<seq<Record>>)

  /**
   * The states a writer goes through: closed exactly when the queue is gone;
   * while open the queue is within its bound, holds no pill and the
   * publisher has not been told to stop.
   */
  predicate Healthy(st: WriterState) {
    && (st.closed <==> st.queue.None?)
    && (!st.closed ==> |st.queue.value| <= QueueSize && Pill !in st.queue.value && !st.shouldTerminate)
  }

  /**
   * One `_publish_metrics` cycle. An empty queue blocks the publisher (the
   * state does not change); a closed writer's queue is gone and the attempt
   * to read it is stored as the last error. Every exception of the cycle is
   * stored, never raised.
   */
  function PublishCycle(st: WriterState, arn: string, client: BatchPut, codec: NameCodec): (r: WriterState)
    requires WellFormed(ApiTypes.Classes, codec)
    ensures r.closed == st.closed
    ensures st.queue.None? ==> r == st.(lastException := r.lastException) && r.lastException.Some?
    ensures st.queue.Some? ==> r.queue.Some? && |r.queue.value| <= |st.queue.value|
    ensures st.queue.Some? && |st.queue.value| > 0 ==> |r.queue.value| < |st.queue.value|
    ensures st.sent <= r.sent && |r.sent| <= |st.sent| + 1
  {
    match st.queue
    case None => st.(lastException := Some(OtherError(AttributeError("'NoneType' object has no attribute 'get'"))))
    case Some(q) =>
      if |q| == 0 then st
      else
        var (batch, rest) := TakeBatch(q);
        Deliver(st.(queue := Some(rest), shouldTerminate := Pill in batch), Stripped(batch), arn, client, codec)
  }

  /** The part of a cycle after the batch is taken: nothing to do for no items, else their records are submitted. */
  function Deliver(st: WriterState, items: seq<QueueItem>, arn: string, client: BatchPut, codec: NameCodec): (r: WriterState)
    requires WellFormed(ApiTypes.Classes, codec)
    ensures r.queue == st.queue && r.shouldTerminate == st.shouldTerminate && r.closed == st.closed
    ensures items == [] ==> r == st
    ensures Records(items).Failure? ==> r == st.(lastException := Some(OtherError(Records(items).error)))
    ensures items != [] && Records(items).Success? ==> r == Submit(st, Records(items).value, arn, client, codec)
  {
    if items == [] then st
    else
      match Records(items)
      case Failure(e) => st.(lastException := Some(OtherError(e)))
      case Success(data) => Submit(st, data, arn, client, codec)
  }

  /** The `batch_put_metrics` call for one batch and what its outcome does to the last error. */
  function Submit(st: WriterState, data: seq<Record>, arn: string, client: BatchPut, codec: NameCodec): (r: WriterState)
    requires WellFormed(ApiTypes.Classes, codec)
    ensures r == st.(sent := st.sent + [data], lastException := r.lastException)
    ensures client(|st.sent|, arn, data).Failure? ==> r.lastException == Some(OtherError(client(|st.sent|, arn, data).error))
    ensures client(|st.sent|, arn, data).Success? ==> r.lastException == Outcome(st.lastException, ResponseErrors(codec, client(|st.sent|, arn, data).value, data))
  {
    var st1 := st.(sent := st.sent + [data]);
    match client(|st.sent|, arn, data)
    case Failure(e) => st1.(lastException := Some(OtherError(e)))
    case Success(result) => st1.(lastException := Outcome(st.lastException, ResponseErrors(codec, result, data)))
  }

  /** The last error after a response: kept when it lists no errors, replaced otherwise. */
  function Outcome(last: Option<WriterError>, errors: Result<Option<seq<Value>>>): (r: Option<WriterError>)
    ensures errors == Success(None) ==> r == last
    ensures errors != Success(None) ==> r.Some?
    ensures errors.Failure? ==> r == Some(OtherError(errors.error))
    ensures errors.Success? && errors.value.Some? ==> r == Some(WriterException("Errors on batch put metrics", errors.value.value))
  {
    match errors
    case Failure(e) => Some(OtherError(e))
    case Success(None) => last
    case Success(Some(os)) => Some(WriterException("Errors on batch put metrics", os))
  }

  /**
   * `log_metric(...)` on the API writer. The queue's `put` is looked up
   * before its argument is evaluated, so a writer without a queue raises
   * first: the closed-writer error when closed, the `AttributeError` itself
   * otherwise. Then the record is built (which may raise) and put on the
   * queue; a `put` on a full queue waits for the publisher to make room.
   * Returns the new state and what the call raises.
   */
  function LogSpec(st: WriterState, metricName: Value, value: Value, timestamp: Moment, iterationNumber: Value,
                   arn: string, client: BatchPut, codec: NameCodec): (r: (WriterState, Option<WriterError>))
    requires WellFormed(ApiTypes.Classes, codec)
    ensures r.1.Some? ==> r.0 == st
    ensures st.queue.None? ==> r.1.Some? && (st.closed <==> r.1 == Some(ClosedWriter))
    ensures st.queue.Some? && MetricRecord(metricName, value, timestamp, iterationNumber, "API").Failure? ==>
      r.1 == Some(OtherError(MetricRecord(metricName, value, timestamp, iterationNumber, "API").error))
    ensures r.1.None? ==>
      && st.queue.Some? && MetricRecord(metricName, value, timestamp, iterationNumber, "API").Success?
      && r.0.queue.Some? && |r.0.queue.value| > 0 && |r.0.queue.value| <= QueueSize
      && r.0.queue.value[|r.0.queue.value| - 1] == Metric(MetricRecord(metricName, value, timestamp, iterationNumber, "API").value)
  {
    match st.queue
    case None => (st, Some(if st.closed then ClosedWriter else OtherError(AttributeError("'NoneType' object has no attribute 'put'"))))
    case Some(_) =>
      match MetricRecord(metricName, value, timestamp, iterationNumber, "API")
      case Failure(e) => (st, Some(OtherError(e)))
      case Success(record) =>
        var st1 := MakeRoom(st, arn, client, codec);
        (st1.(queue := Some(st1.queue.value + [Metric(record)])), None)
  }

  /** The publisher making room on a full queue so that a blocked `put` can proceed. */
  function MakeRoom(st: WriterState, arn: string, client: BatchPut, codec: NameCodec): (r: WriterState)
    requires WellFormed(ApiTypes.Classes, codec) && st.queue.Some?
    ensures r.queue.Some? && |r.queue.value| < QueueSize && r.closed == st.closed && st.sent <= r.sent
    decreases |st.queue.value|
  {
    if |st.queue.value| < QueueSize then st
    else MakeRoom(PublishCycle(st, arn, client, codec), arn, client, codec)
  }

  /** `join()`: the publisher runs cycles until one has taken the pill (or the queue runs dry). */
  function JoinPublisher(st: WriterState, arn: string, client: BatchPut, codec: NameCodec): (r: WriterState)
    requires WellFormed(ApiTypes.Classes, codec) && st.queue.Some?
    ensures r.queue.Some? && r.closed == st.closed && st.sent <= r.sent
    decreases |st.queue.value|
  {
    if st.shouldTerminate || |st.queue.value| == 0 then st
    else JoinPublisher(PublishCycle(st, arn, client, codec), arn, client, codec)
  }

  /**
   * `close()`: the first call puts the pill (after the publisher has made
   * room), waits for the publisher, drops the queue, marks the writer closed
   * and raises the last error when `raise_on_close` is set; later calls do
   * nothing.
   */
  function CloseSpec(st: WriterState, raiseOnClose: bool, arn: string, client: BatchPut, codec: NameCodec): (r: (WriterState, Option<WriterError>))
    requires WellFormed(ApiTypes.Classes, codec) && Healthy(st)
    ensures r.0.closed && r.0.queue.None? && Healthy(r.0) && st.sent <= r.0.sent
    ensures st.closed ==> r == (st, None)
    ensures !st.closed ==> (r.1.Some? <==> raiseOnClose && r.0.lastException.Some?)
    ensures r.1.Some? ==> r.1 == r.0.lastException
  {
    if st.closed then (st, None)
    else
      var st1 := MakeRoom(st, arn, client, codec);
      var st2 := JoinPublisher(st1.(queue := Some(st1.queue.value + [Pill])), arn, client, codec);
      var st3 := st2.(closed := true, queue := None);
      (st3, if raiseOnClose && st3.lastException.Some? then st3.lastException else None)
  }

  // ---------------------------------------------------------------------------
  // Properties of the publish cycle

  /** A queue holding at most one pill. */
  predicate AtMostOnePill(q: seq<QueueItem>) {
    multiset(q)[Pill] <= 1
  }

  function Flatten(batches: seq<seq<Record>>): seq<Record> {
    if |batches| == 0 then [] else batches[0] + Flatten(batches[1..])
  }

  lemma {:induction false} FlattenAppend(a: seq<seq<Record>>, b: seq<seq<Record>>)
    ensures Flatten(a + b) == Flatten(a) + Flatten(b)
    decreases |a|
  {
    if |a| > 0 {
      assert (a + b)[0] == a[0] && (a + b)[1..] == a[1..] + b;
      FlattenAppend(a[1..], b);
    } else {
      assert a + b == b;
    }
  }

  lemma {:induction false} PendingAppend(a: seq<QueueItem>, b: seq<QueueItem>)
    ensures Pending(a + b) == Pending(a) + Pending(b)
    decreases |a|
  {
    if |a| > 0 {
      assert (a + b)[0] == a[0] && (a + b)[1..] == a[1..] + b;
      PendingAppend(a[1..], b);
    } else {
      assert a + b == b;
    }
  }

  /** Without a pill the records of the items are the pending metrics. */
  lemma {:induction false} RecordsArePending(items: seq<QueueItem>)
    requires Pill !in items
    ensures Records(items) == Success(Pending(items))
    decreases |items|
  {
    if |items| > 0 {
      RecordsArePending(items[1..]);
      var r := Records(items).value;
      assert r == [items[0].record] + Records(items[1..]).value;
    }
  }

  /** A pill contributes no metric wherever it sits. */
  lemma PendingSkipsPill(a: seq<QueueItem>, b: seq<QueueItem>)
    ensures Pending(a + [Pill] + b) == Pending(a + b)
  {
    PendingAppend(a + [Pill], b);
    PendingAppend(a, [Pill]);
    PendingAppend(a, b);
    assert Pending([Pill]) == [];
  }

  /** Stripping a batch leaves no pill when it held at most one, and keeps its metrics. */
  lemma StrippedBatch(batch: seq<QueueItem>)
    requires AtMostOnePill(batch)
    ensures Pill !in Stripped(batch)
    ensures Pending(Stripped(batch)) == Pending(batch)
  {
    if Pill in batch {
      var i := IndexOf(batch, Pill);
      assert multiset(Stripped(batch))[Pill] == 0;
      assert batch == batch[..i] + [Pill] + batch[i + 1..];
      PendingSkipsPill(batch[..i], batch[i + 1..]);
    }
  }

  /**
   * One cycle on a non-empty queue with at most one pill: it takes the first
   * `min(10, |q|)` items, sets the terminate flag exactly when the pill is
   * among them, and submits their metrics as one batch when there are any
   * (and no call at all otherwise).
   */
  lemma CycleSubmits(st: WriterState, arn: string, client: BatchPut, codec: NameCodec)
    requires WellFormed(ApiTypes.Classes, codec)
    requires st.queue.Some? && |st.queue.value| > 0 && AtMostOnePill(st.queue.value)
    ensures var q := st.queue.value;
      var (batch, rest) := TakeBatch(q);
      var r := PublishCycle(st, arn, client, codec);
      && r.queue == Some(rest)
      && r.shouldTerminate == (Pill in batch)
      && r.sent == st.sent + (if Pending(batch) == [] then [] else [Pending(batch)])
      && (Pending(batch) == [] ==> r.lastException == st.lastException)
  {
    var (batch, rest) := TakeBatch(st.queue.value);
    assert multiset(st.queue.value) == multiset(batch) + multiset(rest);
    StrippedBatch(batch);
    DeliverPending(st.(queue := Some(rest), shouldTerminate := Pill in batch), Stripped(batch), arn, client, codec);
  }

  /** Delivering pill-free items submits exactly their metrics, and nothing when there are none. */
  lemma DeliverPending(st: WriterState, items: seq<QueueItem>, arn: string, client: BatchPut, codec: NameCodec)
    requires WellFormed(ApiTypes.Classes, codec) && Pill !in items
    ensures var r := Deliver(st, items, arn, client, codec);
      && r.sent == st.sent + (if Pending(items) == [] then [] else [Pending(items)])
      && (Pending(items) == [] ==> r == st)
      && (Pending(items) != [] ==> r == Submit(st, Pending(items), arn, client, codec))
  {
    RecordsArePending(items);
    if items != [] {
      assert Pending(items) != [] by {
        assert items[0].Metric?;
      }
    }
  }

  /** `has_error`: the last error is set. */
  predicate HasError(st: WriterState) {
    st.lastException.Some?
  }

  /**
   * An error that a cycle records: a failed call is stored as the raised
   * exception; a response listing per-item errors is stored as one writer
   * exception holding one error object per entry, in order, each carrying
   * the record its index names.
   */
  lemma CycleErrors(st: WriterState, arn: string, client: BatchPut, codec: NameCodec)
    requires WellFormed(ApiTypes.Classes, codec)
    requires st.queue.Some? && |st.queue.value| > 0 && AtMostOnePill(st.queue.value)
    ensures var batch := TakeBatch(st.queue.value).0;
      var data := Pending(batch);
      var r := PublishCycle(st, arn, client, codec);
      data != [] ==>
        && HasError(r) == (HasError(st) || !(client(|st.sent|, arn, data).Success? && ResponseErrors(codec, client(|st.sent|, arn, data).value, data) == Success(None)))
        && (client(|st.sent|, arn, data).Failure? ==> r.lastException == Some(OtherError(client(|st.sent|, arn, data).error)))
        && (client(|st.sent|, arn, data).Success? && ResponseErrors(codec, client(|st.sent|, arn, data).value, data).Success?
            && ResponseErrors(codec, client(|st.sent|, arn, data).value, data).value.Some? ==>
              && r.lastException.Some? && r.lastException.value.WriterException?
              && r.lastException.value.message == "Errors on batch put metrics"
              && var errs := client(|st.sent|, arn, data).value.entries["Errors"].items;
              && |r.lastException.value.errors| == |errs| > 0
              && forall i :: 0 <= i < |errs| ==> r.lastException.value.errors[i] == ErrorObject(codec, errs[i], data).value)
  {
    var (batch, rest) := TakeBatch(st.queue.value);
    assert multiset(st.queue.value) == multiset(batch) + multiset(rest);
    StrippedBatch(batch);
    DeliverPending(st.(queue := Some(rest), shouldTerminate := Pill in batch), Stripped(batch), arn, client, codec);
  }

  // ---------------------------------------------------------------------------
  // Properties of logging, making room, joining and closing

  /** The records submitted between two states, in submission order. */
  function Submitted(before: WriterState, after: WriterState): seq<Record>
    requires before.sent <= after.sent
  {
    Flatten(after.sent[|before.sent|..])
  }

  /** A cycle on an open, pill-free queue keeps the writer healthy. */
  lemma CycleHealthy(st: WriterState, arn: string, client: BatchPut, codec: NameCodec)
    requires WellFormed(ApiTypes.Classes, codec) && Healthy(st)
    ensures Healthy(PublishCycle(st, arn, client, codec))
  {
    if st.queue.Some? && |st.queue.value| > 0 {
      var (batch, rest) := TakeBatch(st.queue.value);
      assert multiset(st.queue.value)[Pill] == 0;
      CycleSubmits(st, arn, client, codec);
      assert Pill !in batch && Pill !in rest by {
        assert st.queue.value == batch + rest;
      }
    }
  }

  /**
   * One cycle on a non-empty queue with at most one pill moves the metrics
   * of the batch from the queue to the submitted records.
   */
  lemma CycleConserves(st: WriterState, arn: string, client: BatchPut, codec: NameCodec)
    requires WellFormed(ApiTypes.Classes, codec)
    requires st.queue.Some? && |st.queue.value| > 0 && AtMostOnePill(st.queue.value)
    ensures var r := PublishCycle(st, arn, client, codec);
      r.queue.Some? && Submitted(st, r) + Pending(r.queue.value) == Pending(st.queue.value)
  {
    var (batch, rest) := TakeBatch(st.queue.value);
    CycleSubmits(st, arn, client, codec);
    var r := PublishCycle(st, arn, client, codec);
    var delta := if Pending(batch) == [] then [] else [Pending(batch)];
    assert r.sent[|st.sent|..] == delta;
    assert Flatten(delta) == Pending(batch) by {
      if Pending(batch) != [] {
        assert delta[1..] == [];
      }
    }
    PendingAppend(batch, rest);
  }

  /** Submissions over two stretches of cycles add up. */
  lemma SubmittedChain(a: WriterState, b: WriterState, c: WriterState)
    requires a.sent <= b.sent <= c.sent
    ensures Submitted(a, c) == Submitted(a, b) + Submitted(b, c)
  {
    assert c.sent[|a.sent|..] == b.sent[|a.sent|..] + c.sent[|b.sent|..];
    FlattenAppend(b.sent[|a.sent|..], c.sent[|b.sent|..]);
  }

  /**
   * Making room on an open, pill-free queue submits what it removes from the
   * queue, and leaves the queue pill-free and the publisher running.
   */
  lemma {:induction false} MakeRoomConserves(st: WriterState, arn: string, client: BatchPut, codec: NameCodec)
    requires WellFormed(ApiTypes.Classes, codec) && st.queue.Some? && Pill !in st.queue.value && !st.shouldTerminate
    ensures var r := MakeRoom(st, arn, client, codec);
      && Submitted(st, r) + Pending(r.queue.value) == Pending(st.queue.value)
      && Pill !in r.queue.value && !r.shouldTerminate
    decreases |st.queue.value|
  {
    if |st.queue.value| >= QueueSize {
      var s1 := PublishCycle(st, arn, client, codec);
      var (batch, rest) := TakeBatch(st.queue.value);
      assert multiset(st.queue.value)[Pill] == 0;
      CycleSubmits(st, arn, client, codec);
      CycleConserves(st, arn, client, codec);
      assert Pill !in batch && Pill !in rest by {
        assert st.queue.value == batch + rest;
      }
      MakeRoomConserves(s1, arn, client, codec);
      var r := MakeRoom(s1, arn, client, codec);
      SubmittedChain(st, s1, r);
    } else {
      assert st.sent[|st.sent|..] == [];
    }
  }

  /** A queue whose only pill is its last item. */
  predicate PillLast(q: seq<QueueItem>) {
    |q| > 0 && q[|q| - 1] == Pill && Pill !in q[..|q| - 1]
  }

  /**
   * Joining a publisher whose queue ends in the pill: it runs until it takes
   * the pill, leaving the queue empty and every queued metric submitted.
   */
  lemma {:induction false} JoinConserves(st: WriterState, arn: string, client: BatchPut, codec: NameCodec)
    requires WellFormed(ApiTypes.Classes, codec) && st.queue.Some? && PillLast(st.queue.value) && !st.shouldTerminate
    ensures var r := JoinPublisher(st, arn, client, codec);
      && r.queue == Some([]) && r.shouldTerminate
      && Submitted(st, r) == Pending(st.queue.value)
    decreases |st.queue.value|
  {
    var q := st.queue.value;
    var (batch, rest) := TakeBatch(q);
    assert q == q[..|q| - 1] + [Pill];
    assert multiset(q)[Pill] == 1;
    var s1 := PublishCycle(st, arn, client, codec);
    CycleSubmits(st, arn, client, codec);
    CycleConserves(st, arn, client, codec);
    if Pill in batch {
      assert rest == [];
      assert JoinPublisher(s1, arn, client, codec) == s1;
    } else {
      assert |batch| < |q|;
      assert PillLast(rest) by {
        assert rest == q[|batch|..];
        assert rest[..|rest| - 1] == q[..|q| - 1][|batch|..];
      }
      JoinConserves(s1, arn, client, codec);
      SubmittedChain(st, s1, JoinPublisher(s1, arn, client, codec));
    }
  }

  /**
   * Logging on an open writer puts the record behind everything still
   * queued: nothing is lost and the record is the last to be submitted.
   */
  lemma LogConserves(st: WriterState, metricName: Value, value: Value, timestamp: Moment, iterationNumber: Value,
                     arn: string, client: BatchPut, codec: NameCodec)
    requires WellFormed(ApiTypes.Classes, codec) && Healthy(st) && !st.closed
    requires MetricRecord(metricName, value, timestamp, iterationNumber, "API").Success?
    ensures var r := LogSpec(st, metricName, value, timestamp, iterationNumber, arn, client, codec);
      && r.1.None? && Healthy(r.0)
      && Submitted(st, r.0) + Pending(r.0.queue.value)
         == Pending(st.queue.value) + [MetricRecord(metricName, value, timestamp, iterationNumber, "API").value]
  {
    var record := MetricRecord(metricName, value, timestamp, iterationNumber, "API").value;
    var st1 := MakeRoom(st, arn, client, codec);
    MakeRoomConserves(st, arn, client, codec);
    PendingAppend(st1.queue.value, [Metric(record)]);
    assert Pending([Metric(record)]) == [record];
  }

  /**
   * Closing an open writer submits every metric that was still queued, in
   * order, before it drops the queue.
   */
  lemma CloseSubmitsAll(st: WriterState, raiseOnClose: bool, arn: string, client: BatchPut, codec: NameCodec)
    requires WellFormed(ApiTypes.Classes, codec) && Healthy(st) && !st.closed
    ensures Submitted(st, CloseSpec(st, raiseOnClose, arn, client, codec).0) == Pending(st.queue.value)
  {
    var st1 := MakeRoom(st, arn, client, codec);
    MakeRoomConserves(st, arn, client, codec);
    var q1 := st1.queue.value + [Pill];
    assert q1[..|q1| - 1] == st1.queue.value;
    var j := st1.(queue := Some(q1));
    JoinConserves(j, arn, client, codec);
    var st2 := JoinPublisher(j, arn, client, codec);
    SubmittedChain(st, j, st2);
    PendingAppend(st1.queue.value, [Pill]);
    assert Pending([Pill]) == [];
  }

  // ---------------------------------------------------------------------------
  // The API writer as an object

  /**
   * `SageMakerMetricsWriter`. The publisher thread's work is the method
   * `PublishMetrics`, which runs one cycle; `LogMetric` and `Close` run the
   * cycles a blocked `put` or the `join` waits for.
   */
  class MetricsWriter {
    const resourceArn: string
    const client: BatchPut
    const codec: NameCodec
    const raiseOnClose: bool
    var queue: Option<seq<QueueItem>>
    var lastException: Option<WriterError>
    var shouldTerminate: bool
    var closed: bool
    var sent: seq<seq<Record>>

    function State(): WriterState
      reads this
    {
      WriterState(queue, lastException, shouldTerminate, closed, sent)
    }

    ghost predicate Valid()
      reads this
    {
      WellFormed(ApiTypes.Classes, codec) && Healthy(State())
    }

    constructor(resourceArn: string, client: BatchPut, codec: NameCodec, raiseOnClose: bool)
      requires WellFormed(ApiTypes.Classes, codec)
      ensures Valid()
      ensures this.resourceArn == resourceArn && this.client == client && this.codec == codec && this.raiseOnClose == raiseOnClose
      ensures State() == WriterState(Some([]), None, false, false, [])
    {
      this.resourceArn := resourceArn;
      this.client := client;
      this.codec := codec;
      this.raiseOnClose := raiseOnClose;
      queue := Some([]);
      lastException := None;
      shouldTerminate := false;
      closed := false;
      sent := [];
    }

    /** `_get_items_from_queue`: the first item, then up to nine more while any are queued; the pill is stripped. */
    method GetItemsFromQueue() returns (items: seq<QueueItem>)
      requires queue.Some? && |queue.value| > 0
      modifies this
      ensures var (batch, rest) := TakeBatch(old(queue.value));
        items == Stripped(batch) && queue == Some(rest) && shouldTerminate == (Pill in batch)
      ensures lastException == old(lastException) && closed == old(closed) && sent == old(sent)
    {
      items := [queue.value[0]];
      queue := Some(queue.value[1..]);
      var i := 0;
      while i < BatchMaxSize - 1
        invariant 0 <= i <= BatchMaxSize - 1
        invariant queue.Some? && |items| == i + 1 && items + queue.value == old(queue.value)
        invariant lastException == old(lastException) && closed == old(closed) && sent == old(sent)
      {
        if |queue.value| == 0 {
          break;
        }
        items := items + [queue.value[0]];
        queue := Some(queue.value[1..]);
        i := i + 1;
      }
      assert items == TakeBatch(old(queue.value)).0;
      shouldTerminate := Pill in items;
      if shouldTerminate {
        items := RemoveFirst(items, Pill);
      }
    }

    /** `_publish_metrics`: one cycle of the publisher; every exception is stored. */
    method PublishMetrics()
      requires WellFormed(ApiTypes.Classes, codec)
      modifies this
      ensures State() == PublishCycle(old(State()), resourceArn, client, codec)
    {
      if queue.None? {
        lastException := Some(OtherError(AttributeError("'NoneType' object has no attribute 'get'")));
        return;
      }
      if |queue.value| == 0 {
        // `get()` blocks until something is queued
        return;
      }
      var items := GetItemsFromQueue();
      if items == [] {
        return;
      }
      var records := Records(items);
      if records.Failure? {
        lastException := Some(OtherError(records.error));
        return;
      }
      SubmitBatch(records.value);
    }

    /** The `batch_put_metrics` call of a cycle for the records of its batch. */
    method SubmitBatch(data: seq<Record>)
      requires WellFormed(ApiTypes.Classes, codec)
      modifies this
      ensures State() == Submit(old(State()), data, resourceArn, client, codec)
    {
      var response := client(|sent|, resourceArn, data);
      sent := sent + [data];
      if response.Failure? {
        lastException := Some(OtherError(response.error));
      } else {
        RecordResponse(response.value, data);
      }
    }

    /** What a cycle does with a response: nothing when it lists no errors, else it stores one error. */
    method RecordResponse(result: Value, data: seq<Record>)
      requires WellFormed(ApiTypes.Classes, codec)
      modifies this
      ensures State() == old(State()).(lastException := Outcome(old(lastException), ResponseErrors(codec, result, data)))
    {
      if !result.DictV? {
        lastException := Some(OtherError(TypeError("object is not subscriptable")));
      } else if "Errors" !in result.entries {
        lastException := Some(OtherError(KeyError("Errors")));
      } else if Truthy(result.entries["Errors"]) {
        var errors := result.entries["Errors"];
        if !errors.ListV? {
          lastException := Some(OtherError(TypeError("object is not iterable")));
        } else {
          var objects := CollectErrors(codec, errors.items, data);
          if objects.Failure? {
            lastException := Some(OtherError(objects.error));
          } else {
            lastException := Some(WriterException("Errors on batch put metrics", objects.value));
          }
        }
      }
    }

    /** `log_metric(...)`: look up the queue, build the record, then put it, letting the publisher make room first. */
    method LogMetric(metricName: Value, value: Value, timestamp: Moment, iterationNumber: Value) returns (raised: Option<WriterError>)
      requires Valid()
      modifies this
      ensures Valid()
      ensures (State(), raised) == LogSpec(old(State()), metricName, value, timestamp, iterationNumber, resourceArn, client, codec)
    {
      if queue.None? {
        return Some(if closed then ClosedWriter else OtherError(AttributeError("'NoneType' object has no attribute 'put'")));
      }
      var record := MetricRecord(metricName, value, timestamp, iterationNumber, "API");
      if record.Failure? {
        return Some(OtherError(record.error));
      }
      ghost var st0 := State();
      WaitForRoom();
      queue := Some(queue.value + [Metric(record.value)]);
      raised := None;
      LogConserves(st0, metricName, value, timestamp, iterationNumber, resourceArn, client, codec);
    }

    /** A blocked `put`: the publisher runs cycles until the queue has room. */
    method WaitForRoom()
      requires WellFormed(ApiTypes.Classes, codec) && queue.Some?
      modifies this
      ensures State() == MakeRoom(old(State()), resourceArn, client, codec)
    {
      ghost var st0 := State();
      while |queue.value| >= QueueSize
        invariant WellFormed(ApiTypes.Classes, codec) && queue.Some?
        invariant MakeRoom(State(), resourceArn, client, codec) == MakeRoom(st0, resourceArn, client, codec)
        decreases |queue.value|
      {
        PublishMetrics();
      }
    }

    /** `join()`: the publisher runs cycles until it has taken the pill or the queue is empty. */
    method WaitForPublisher()
      requires WellFormed(ApiTypes.Classes, codec) && queue.Some?
      modifies this
      ensures State() == JoinPublisher(old(State()), resourceArn, client, codec)
    {
      ghost var st1 := State();
      while !shouldTerminate && |queue.value| > 0
        invariant WellFormed(ApiTypes.Classes, codec) && queue.Some?
        invariant JoinPublisher(State(), resourceArn, client, codec) == JoinPublisher(st1, resourceArn, client, codec)
        decreases |queue.value|
      {
        PublishMetrics();
      }
    }

    /** `close()`: put the pill, wait for the publisher to take it, drop the queue, and raise the last error if asked to. */
    method Close() returns (raised: Option<WriterError>)
      requires Valid()
      modifies this
      ensures Valid()
      ensures (State(), raised) == CloseSpec(old(State()), raiseOnClose, resourceArn, client, codec)
    {
      if closed {
        return None;
      }
      WaitForRoom();
      queue := Some(queue.value + [Pill]);
      WaitForPublisher();
      closed := true;
      queue := None;
      raised := if raiseOnClose && lastException.Some? then lastException else None;
    }
  }

  // ---------------------------------------------------------------------------
  // The file writer

  /** `os.path.join(directory, name)` for a relative `name`. */
  function PathJoin(directory: string, name: string): (p: string)
    ensures StartsWith(p, directory) && EndsWith(p, name) && |p| >= |directory| + |name|
  {
    if directory == "" || directory[|directory| - 1] == '/' then directory + name else directory + "/" + name
  }

  /** `_get_metrics_file_path`: the given path unless it is None or empty, else `<pid>.json` in the metrics directory. */
  function MetricsFilePath(given: Option<string>, metricsDir: string, pid: int): (p: string)
    ensures Given(given) ==> p == given.value
    ensures !Given(given) ==> StartsWith(p, metricsDir) && EndsWith(p, IntToString(pid) + ".json")
  {
    if Given(given) then given.value else PathJoin(metricsDir, IntToString(pid) + ".json")
  }

  /**
   * The file writer's state: whether it holds an open file, whether it is
   * closed, the records it has written (one JSON line each) and the path of
   * the file it openedPath for appending, if any.
   */
  datatype FileState = FileState(file: bool, closed: bool, lines: seq<Record>, openedPath: Option<string>)

  /** The states a file writer goes through: a file exists exactly when something was written, and it is open until the writer closes. */
  predicate FileHealthy(st: FileState) {
    && (st.openedPath.Some? <==> st.lines != [])
    && (st.file <==> st.openedPath.Some? && !st.closed)
  }

  /**
   * `log_metric(...)` on the file writer: the record (which may fail to
   * build) is written to the open file; without one, a closed writer raises
   * and an unopened one opens `path` for appending and writes there.
   */
  function FileLogSpec(st: FileState, record: Result<Record>, path: string): (r: (FileState, Option<WriterError>))
    ensures r.1.Some? ==> r.0 == st
    ensures record.Failure? ==> r.1 == Some(OtherError(record.error))
    ensures record.Success? && !st.file && st.closed ==> r.1 == Some(ClosedWriter)
    ensures r.1.None? ==> record.Success? && r.0.lines == st.lines + [record.value] && r.0.file && r.0.closed == st.closed
  {
    match record
    case Failure(e) => (st, Some(OtherError(e)))
    case Success(rec) =>
      if st.file then (st.(lines := st.lines + [rec]), None)
      else if st.closed then (st, Some(ClosedWriter))
      else (st.(file := true, lines := st.lines + [rec], openedPath := Some(path)), None)
  }

  /** `close()` on the file writer: the open file is closed and forgotten, and the writer is marked closed. */
  function FileCloseSpec(st: FileState): (r: FileState)
    ensures r.closed && r.lines == st.lines && r.openedPath == st.openedPath
    ensures !st.closed ==> !r.file
  {
    if !st.closed && st.file then st.(file := false, closed := true) else st.(closed := true)
  }

  /** A healthy open writer appends the record as one line, opening the file on the first write. */
  lemma FileLogAppends(st: FileState, rec: Record, path: string)
    requires FileHealthy(st) && !st.closed
    ensures var r := FileLogSpec(st, Success(rec), path);
      && r.1.None? && FileHealthy(r.0) && !r.0.closed
      && r.0.lines == st.lines + [rec]
      && r.0.openedPath == Some(if st.openedPath.Some? then st.openedPath.value else path)
  {
  }

  /** After `close`, logging raises the closed-writer error (or the record's own error) and writes nothing. */
  lemma FileLogAfterClose(st: FileState, record: Result<Record>, path: string)
    requires FileHealthy(st) && st.closed
    ensures var r := FileLogSpec(st, record, path);
      r.0 == st && r.1 == Some(if record.Success? then ClosedWriter else OtherError(record.error))
  {
  }

  /** Closing keeps a writer healthy, creates no file and is idempotent. */
  lemma FileCloseIdempotent(st: FileState)
    requires FileHealthy(st)
    ensures FileHealthy(FileCloseSpec(st)) && !FileCloseSpec(st).file
    ensures FileCloseSpec(FileCloseSpec(st)) == FileCloseSpec(st)
  {
  }

  /** A call on the file writer. */
  datatype FileCall = LogCall(record: Result<Record>) | CloseCall

  /** The state after a sequence of calls, whatever each of them raises. */
  function FileRun(st: FileState, path: string, calls: seq<FileCall>): FileState
    requires FileHealthy(st)
    decreases |calls|
  {
    if |calls| == 0 then st else FileRun(FileStep(st, path, calls[0]), path, calls[1..])
  }

  /** The records successfully built by the log calls before the first `close`. */
  function LoggedBeforeClose(calls: seq<FileCall>): seq<Record>
    decreases |calls|
  {
    if |calls| == 0 || calls[0].CloseCall? then []
    else (if calls[0].record.Success? then [calls[0].record.value] else []) + LoggedBeforeClose(calls[1..])
  }

  /**
   * Over any sequence of calls, a healthy file writer appends exactly the
   * records logged before it was closed, one line each, in call order; the
   * file it appends to is openedPath by the first of them, and no file is
   * created when there is none.
   */
  lemma {:induction false} FileRunLines(st: FileState, path: string, calls: seq<FileCall>)
    requires FileHealthy(st)
    ensures FileHealthy(FileRun(st, path, calls))
    ensures FileRun(st, path, calls).lines == st.lines + (if st.closed then [] else LoggedBeforeClose(calls))
    decreases |calls|
  {
    if |calls| > 0 {
      var next := FileStep(st, path, calls[0]);
      FileRunLines(next, path, calls[1..]);
      if !st.closed && calls[0].LogCall? {
        var now := if calls[0].record.Success? then [calls[0].record.value] else [];
        assert st.lines + now + LoggedBeforeClose(calls[1..]) == st.lines + (now + LoggedBeforeClose(calls[1..]));
      }
    }
  }

  /** The file a run appends to: the one already open, else the one its first write opens, else none at all. */
  lemma {:induction false} FileRunOpens(st: FileState, path: string, calls: seq<FileCall>)
    requires FileHealthy(st)
    ensures FileRun(st, path, calls).openedPath
      == if st.openedPath.Some? then st.openedPath
         else if st.closed || LoggedBeforeClose(calls) == [] then None
         else Some(path)
    decreases |calls|
  {
    if |calls| > 0 {
      var next := FileStep(st, path, calls[0]);
      FileRunOpens(next, path, calls[1..]);
    }
  }

  /** One call of a run, with what it does to a healthy writer. */
  function FileStep(st: FileState, path: string, call: FileCall): (r: FileState)
    requires FileHealthy(st)
    ensures FileHealthy(r)
    ensures r.closed == (st.closed || call.CloseCall?)
    ensures r.lines == st.lines + (if !st.closed && call.LogCall? && call.record.Success? then [call.record.value] else [])
    ensures r.openedPath == (if st.openedPath.Some? || r.lines == [] then st.openedPath else Some(path))
  {
    match call
    case LogCall(record) => FileLogSpec(st, record, path).0
    case CloseCall => FileCloseSpec(st)
  }

  /** `SageMakerFileMetricsWriter`. The process id and the metrics directory are fixed when it is made. */
  class FileMetricsWriter {
    const metricsFilePath: Option<string>
    const metricsDir: string
    const pid: int
    var file: bool
    var closed: bool
    var lines: seq<Record>
    var openedPath: Option<string>

    function State(): FileState
      reads this
    {
      FileState(file, closed, lines, openedPath)
    }

    constructor(metricsFilePath: Option<string>, metricsDir: string, pid: int)
      ensures this.metricsFilePath == metricsFilePath && this.metricsDir == metricsDir && this.pid == pid
      ensures State() == FileState(false, false, [], None) && FileHealthy(State())
    {
      this.metricsFilePath := metricsFilePath;
      this.metricsDir := metricsDir;
      this.pid := pid;
      file := false;
      closed := false;
      lines := [];
      openedPath := None;
    }

    /** `log_metric(...)`: build a file record and write it as one line, opening the file on the first write. */
    method LogMetric(metricName: Value, value: Value, timestamp: Moment, iterationNumber: Value) returns (raised: Option<WriterError>)
      modifies this
      ensures (State(), raised) == FileLogSpec(old(State()), MetricRecord(metricName, value, timestamp, iterationNumber, "File"),
                                               MetricsFilePath(metricsFilePath, metricsDir, pid))
    {
      var record := MetricRecord(metricName, value, timestamp, iterationNumber, "File");
      if record.Failure? {
        return Some(OtherError(record.error));
      }
      if file {
        lines := lines + [record.value];
      } else if closed {
        return Some(ClosedWriter);
      } else {
        openedPath := Some(MetricsFilePath(metricsFilePath, metricsDir, pid));
        file := true;
        lines := lines + [record.value];
      }
      raised := None;
    }

    /** `close()`. */
    method Close()
      modifies this
      ensures State() == FileCloseSpec(old(State()))
    {
      if !closed && file {
        file := false;
      }
      closed := true;
    }
  }
}
