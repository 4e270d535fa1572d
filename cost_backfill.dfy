/**
 * The one-shot cost backfill: two Cost Explorer queries over the last seven
 * days (daily totals, and the same days grouped by service), one
 * DailyCostHistory record per day stamped with a synthetic time spread back
 * from the current clock, one ServiceCost record per service with a positive
 * sum, and both lists sent to `put_metric_data` in chunks of at most twenty.
 * Any exception ends the run.
 */
module CostBackfill {

  import opened CostCommon
  import opened ServiceCosts
  import Calendar

  /** CloudWatch takes at most this many records per `put_metric_data` call. */
  const BatchSize: nat := 20

  /** The success reply: statusCode and the number of daily results backfilled. */
  datatype Reply = Reply(statusCode: int, days: nat)

  /** Both queries: the same seven-day window, once without grouping and once by service. */
  function Queries(today: int): (qs: seq<CostQuery>)
    ensures |qs| == 2
    ensures forall q :: q in qs ==> q.start == today - 7 && q.end == today && q.granularity == Daily
    ensures !qs[0].groupByService && qs[1].groupByService
  {
    [SevenDayWindow(today, false), SevenDayWindow(today, true)]
  }

  /** The synthetic timestamp of the i-th day: the clock reading moved back 6 - i days. */
  function HistoryTime(now: int, i: int): int {
    now - (6 - i) * Calendar.SecondsPerDay
  }

  /**
   * One DailyCostHistory record per result, in order: the i-th carries the
   * i-th amount, its start date as a Date dimension, and the synthetic time
   * of position i, whatever date the result itself is for.
   */
  function DailyHistory(total: seq<TimeResult>, now: int, project: string, environment: string)
    : (rs: seq<MetricRecord>)
    ensures |rs| == |total|
  {
    if total == [] then []
    else
      var i := |total| - 1;
      DailyHistory(total[..i], now, project, environment) +
      [Record("DailyCostHistory", total[i].amount, At(HistoryTime(now, i)),
              [Dimension("Date", total[i].start)], project, environment)]
  }

  /** The i-th record carries the i-th amount and date and the synthetic time of position i. */
  lemma {:induction false} DailyHistoryAt(total: seq<TimeResult>, now: int, project: string, environment: string)
    ensures forall i :: 0 <= i < |total| ==>
              DailyHistory(total, now, project, environment)[i] ==
              Record("DailyCostHistory", total[i].amount, At(HistoryTime(now, i)),
                     [Dimension("Date", total[i].start)], project, environment)
    decreases |total|
  {
    if total != [] {
      var p := total[..|total| - 1];
      DailyHistoryAt(p, now, project, environment);
      assert forall i :: 0 <= i < |p| ==> p[i] == total[i];
    }
  }

  /** The day timestamps step forward by exactly one day, ending at the clock reading on day 7. */
  lemma HistorySpacing(total: seq<TimeResult>, now: int, project: string, environment: string)
    ensures forall i :: 0 <= i < |total| ==>
              DailyHistory(total, now, project, environment)[i].timestamp == At(HistoryTime(now, i))
    ensures forall i :: 0 <= i < |total| - 1 ==>
              DailyHistory(total, now, project, environment)[i + 1].timestamp.seconds ==
              DailyHistory(total, now, project, environment)[i].timestamp.seconds + Calendar.SecondsPerDay
    ensures |total| >= 7 ==> DailyHistory(total, now, project, environment)[6].timestamp == At(now)
  {
    DailyHistoryAt(total, now, project, environment);
  }

  /** `metrics_to_publish` built by appending in the loop over the daily results. */
  method BuildHistory(total: seq<TimeResult>, now: int, project: string, environment: string)
    returns (metrics: seq<MetricRecord>)
    ensures metrics == DailyHistory(total, now, project, environment)
  {
    metrics := [];
    var i := 0;
    while i < |total|
      invariant 0 <= i <= |total|
      invariant metrics == DailyHistory(total[..i], now, project, environment)
    {
      assert total[..i + 1][..i] == total[..i];
      var day := total[i];
      metrics := metrics + [MetricRecord("DailyCostHistory", day.amount, UnitNone, At(HistoryTime(now, i)),
                                         BaseDimensions(project, environment) + [Dimension("Date", day.start)])];
      i := i + 1;
    }
    assert total[..i] == total;
  }

  /** `service_metrics` built by appending, one record per key of the dictionary with a positive sum. */
  method BuildServiceMetrics(names: seq<string>, totals: map<string, real>, ghost gs: seq<Group>,
                             now: int, project: string, environment: string)
    returns (metrics: seq<MetricRecord>)
    requires forall s :: s in names ==> s in totals && totals[s] == Total(gs, s)
    ensures metrics == ServiceRecords(PositiveCosts(names, gs), now, project, environment)
  {
    metrics := [];
    var j := 0;
    while j < |names|
      invariant 0 <= j <= |names|
      invariant metrics == ServiceRecords(PositiveCosts(names[..j], gs), now, project, environment)
    {
      PositiveCostsSnoc(names, j, gs);
      var service := names[j];
      var amount := totals[service];
      assert service in names;
      ghost var prev := PositiveCosts(names[..j], gs);
      if amount > 0.0 {
        var friendly := FriendlyName(service);
        assert PositiveCosts(names[..j + 1], gs) == prev + [ServiceCost(friendly, amount)];
        ServiceRecordsSnoc(prev, ServiceCost(friendly, amount), now, project, environment);
        metrics := metrics + [MetricRecord("ServiceCost", amount, UnitNone, At(now),
                                           BaseDimensions(project, environment) +
                                           [Dimension("ServiceName", friendly)])];
      } else {
        assert PositiveCosts(names[..j + 1], gs) == prev + [];
        assert prev + [] == prev;
      }
      j := j + 1;
    }
    assert names[..j] == names;
  }

  function Min(a: int, b: int): int {
    if a <= b then a else b
  }

  /** The chunks `s[i:i+20]` for i = 0, 20, 40, ... below |s|. */
  function Batches<T>(s: seq<T>): seq<seq<T>>
    decreases |s|
  {
    if s == [] then []
    else [s[..Min(BatchSize, |s|)]] + Batches(s[Min(BatchSize, |s|)..])
  }

  function Concat<T>(bs: seq<seq<T>>): seq<T> {
    if bs == [] then [] else bs[0] + Concat(bs[1..])
  }

  /** Nothing is lost, duplicated or reordered: the chunks put back together are the list. */
  lemma {:induction false} BatchesConcat<T>(s: seq<T>)
    ensures Concat(Batches(s)) == s
    decreases |s|
  {
    if s != [] {
      var n := Min(BatchSize, |s|);
      BatchesConcat(s[n..]);
      assert Batches(s)[1..] == Batches(s[n..]);
      assert s[..n] + s[n..] == s;
    }
  }

  /**
   * There are ⌈|s| / 20⌉ chunks; each holds 1 to 20 records, and every one
   * but the last holds exactly 20.
   */
  lemma {:induction false} BatchesShape<T>(s: seq<T>)
    ensures |Batches(s)| == (|s| + BatchSize - 1) / BatchSize
    ensures forall k :: 0 <= k < |Batches(s)| ==> 1 <= |Batches(s)[k]| <= BatchSize
    ensures forall k :: 0 <= k < |Batches(s)| - 1 ==> |Batches(s)[k]| == BatchSize
    decreases |s|
  {
    if s != [] {
      var n := Min(BatchSize, |s|);
      var rest := Batches(s[n..]);
      BatchesShape(s[n..]);
      assert Batches(s) == [s[..n]] + rest;
      forall k | 1 <= k < |Batches(s)| ensures Batches(s)[k] == rest[k - 1] {
      }
    }
  }

  /** For 45 records the chunks hold 20, 20 and 5. */
  lemma BatchesOf45<T>(s: seq<T>)
    requires |s| == 45
    ensures |Batches(s)| == 3
    ensures |Batches(s)[0]| == 20 && |Batches(s)[1]| == 20 && |Batches(s)[2]| == 5
    ensures Batches(s)[2] == s[40..]
  {
    var c := s[40..];
    assert Min(BatchSize, |c|) == 5;
    assert c[..5] == c && c[5..] == [];
    assert Batches(c) == [c];
    var b := s[20..];
    assert Min(BatchSize, |b|) == 20 && b[20..] == c;
    assert Batches(b) == [b[..20]] + [c];
  }

  /** The k-th chunk starts at record 20k and exists exactly when 20k is below |s|. */
  lemma {:induction false} BatchAt<T>(s: seq<T>, k: nat)
    ensures k < |Batches(s)| <==> BatchSize * k < |s|
    ensures k < |Batches(s)| ==> Batches(s)[k] == s[BatchSize * k..Min(BatchSize * k + BatchSize, |s|)]
    decreases k
  {
    if s != [] && k > 0 {
      var n := Min(BatchSize, |s|);
      var t := s[n..];
      BatchAt(t, k - 1);
      assert Batches(s)[1..] == Batches(t);
      if n == BatchSize && k - 1 < |Batches(t)| {
        var lo := BatchSize * (k - 1);
        var hi := Min(lo + BatchSize, |t|);
        assert n + lo == BatchSize * k;
        assert n + hi == Min(BatchSize * k + BatchSize, |s|);
        SliceOfSuffix(s, n, lo, hi);
      }
    }
  }

  lemma SliceOfSuffix<T>(s: seq<T>, n: nat, lo: nat, hi: nat)
    requires n <= |s| && lo <= hi <= |s| - n
    ensures s[n..][lo..hi] == s[n + lo..n + hi]
  {
    forall m | 0 <= m < hi - lo ensures s[n..][lo..hi][m] == s[n + lo..n + hi][m] {
    }
  }

  /** One `put_metric_data` call per chunk. */
  function BatchCalls(ns: string, records: seq<MetricRecord>): (calls: seq<PutCall>)
    ensures |calls| == |Batches(records)|
    ensures forall k :: 0 <= k < |calls| ==> calls[k] == PutCall(ns, Batches(records)[k])
  {
    var bs := Batches(records);
    seq(|bs|, k requires 0 <= k < |bs| => PutCall(ns, bs[k]))
  }

  /** Every call of a batch phase carries between 1 and 20 records, and all of them in order. */
  lemma BatchCallsCarry(ns: string, records: seq<MetricRecord>)
    ensures |BatchCalls(ns, records)| == (|records| + BatchSize - 1) / BatchSize
    ensures forall c :: c in BatchCalls(ns, records) ==>
              c.namespace == ns && 1 <= |c.metricData| <= BatchSize
    ensures Concat(Batches(records)) == records
  {
    BatchesShape(records);
    BatchesConcat(records);
  }

  /**
   * The loop `for i in range(0, len(records), 20)` sending `records[i:i+20]`;
   * `all` is every call the run plans, of which these come after `calls0`.
   */
  method PublishBatches(calls0: seq<PutCall>, ghost all: seq<PutCall>, ns: string,
                        records: seq<MetricRecord>, putOk: nat -> bool)
    returns (calls: seq<PutCall>, ok: bool)
    requires AllOk(calls0, putOk)
    requires calls0 + BatchCalls(ns, records) <= all
    ensures ok ==> calls == calls0 + BatchCalls(ns, records) && AllOk(calls, putOk)
    ensures !ok ==> Send(all, putOk) == Delivery(calls, false)
  {
    ghost var planned := BatchCalls(ns, records);
    calls, ok := calls0, true;
    var i := 0;
    ghost var k: nat := 0;
    while i < |records|
      invariant k <= |planned| && i == BatchSize * k
      invariant calls == calls0 + planned[..k]
      invariant AllOk(calls, putOk)
    {
      BatchAt(records, k);
      var batch := records[i..Min(i + BatchSize, |records|)];
      assert planned[..k + 1] == planned[..k] + [PutCall(ns, batch)];
      var before := calls;
      calls := calls + [PutCall(ns, batch)];
      if !putOk(|before|) {
        assert calls <= all;
        SendStopsAt(all, putOk, calls);
        return calls, false;
      }
      i := i + BatchSize;
      k := k + 1;
    }
    BatchAt(records, k);
    assert planned[..k] == planned;
  }

  /** Every call the backfill plans: the daily chunks, then the service chunks. */
  function Planned(total: seq<TimeResult>, costs: seq<ServiceCost>, now: int,
                   project: string, environment: string): seq<PutCall>
  {
    BatchCalls(Namespace(project), DailyHistory(total, now, project, environment)) +
    BatchCalls(Namespace(project), ServiceRecords(costs, now, project, environment))
  }

  /** With no positive service sum, the backfill makes no service call at all. */
  lemma QuietServices(total: seq<TimeResult>, buckets: seq<Bucket>, now: int,
                      project: string, environment: string)
    requires forall s :: s in Services(Flatten(buckets)) ==> Total(Flatten(buckets), s) <= 0.0
    ensures Planned(total, ServiceBreakdown(buckets), now, project, environment) ==
            BatchCalls(Namespace(project), DailyHistory(total, now, project, environment))
  {
    NoPositiveCosts(Services(Flatten(buckets)), Flatten(buckets));
    assert BatchCalls(Namespace(project), []) == [];
  }

  /**
   * The handler. `queries` are the Cost Explorer calls made, `calls` the
   * `put_metric_data` calls made (the last one is the one that raised, if any).
   */
  method Handler(today: int, now: int, project: string, environment: string,
                 totalAnswer: Answer<seq<TimeResult>>, serviceAnswer: Answer<seq<Bucket>>,
                 putOk: nat -> bool)
    returns (queries: seq<CostQuery>, calls: seq<PutCall>, result: JobResult<Reply>)
    ensures totalAnswer.Threw? ==> queries == Queries(today)[..1] && calls == [] && result == Raised(QueryError)
    ensures totalAnswer.Returned? && serviceAnswer.Threw? ==>
              queries == Queries(today) && calls == [] && result == Raised(QueryError)
    ensures totalAnswer.Returned? && serviceAnswer.Returned? ==>
              var d := Send(Planned(totalAnswer.results, ServiceBreakdown(serviceAnswer.results), now,
                                    project, environment), putOk);
              queries == Queries(today) && calls == d.calls &&
              result == (if d.delivered then Completed(Reply(SuccessCode, |totalAnswer.results|))
                         else Raised(PublishError))
  {
    calls := [];
    queries := [SevenDayWindow(today, false)];
    if totalAnswer.Threw? {
      return queries, calls, Raised(QueryError);
    }
    queries := queries + [SevenDayWindow(today, true)];
    if serviceAnswer.Threw? {
      return queries, calls, Raised(QueryError);
    }
    var ok: bool;
    calls, ok := Publish(totalAnswer.results, serviceAnswer.results, now, project, environment, putOk);
    if ok {
      result := Completed(Reply(SuccessCode, |totalAnswer.results|));
    } else {
      result := Raised(PublishError);
    }
  }

  /** Everything after the queries: build both lists and send them in chunks. */
  method Publish(total: seq<TimeResult>, buckets: seq<Bucket>, now: int,
                 project: string, environment: string, putOk: nat -> bool)
    returns (calls: seq<PutCall>, ok: bool)
    ensures Send(Planned(total, ServiceBreakdown(buckets), now, project, environment), putOk) == Delivery(calls, ok)
  {
    var ns := Namespace(project);
    ghost var all := Planned(total, ServiceBreakdown(buckets), now, project, environment);
    var metrics := BuildHistory(total, now, project, environment);
    calls, ok := PublishBatches([], all, ns, metrics, putOk);
    if ok {
      calls, ok := PublishServiceList(calls, all, ns, buckets, now, project, environment, putOk);
    }
  }

  /** The service half: aggregate, build the positive records, and send them in chunks if there are any. */
  method PublishServiceList(calls0: seq<PutCall>, ghost all: seq<PutCall>, ns: string, buckets: seq<Bucket>,
                            now: int, project: string, environment: string, putOk: nat -> bool)
    returns (calls: seq<PutCall>, ok: bool)
    requires AllOk(calls0, putOk)
    requires all == calls0 + BatchCalls(ns, ServiceRecords(ServiceBreakdown(buckets), now, project, environment))
    ensures Send(all, putOk) == Delivery(calls, ok)
  {
    var names, totals := Aggregate(buckets);
    var serviceMetrics := BuildServiceMetrics(names, totals, Flatten(buckets), now, project, environment);
    calls, ok := calls0, true;
    if |serviceMetrics| > 0 {
      calls, ok := PublishBatches(calls, all, ns, serviceMetrics, putOk);
      if !ok {
        return;
      }
    } else {
      assert BatchCalls(ns, serviceMetrics) == [];
    }
    SendAll(all, putOk);
  }
}
