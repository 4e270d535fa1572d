/**
 * The scheduled cost exporter: three Cost Explorer queries (seven days of
 * daily totals, the same seven days grouped by service, month to date), then
 * one `put_metric_data` call per record, in this order: the latest day's
 * TotalCost, MonthToDateCost, one TotalCost per day stamped with its own
 * date, and one ServiceCost per service with a positive sum. Any exception
 * ends the run; an empty seven-day answer leaves `total_amount` unbound, so
 * the run raises at its return even after everything else was published.
 */
module CostExporter {

  import opened CostCommon
  import opened ServiceCosts
  import Calendar

  /** The success reply: statusCode and the TotalCost value the body reports. */
  datatype Reply = Reply(statusCode: int, total: real)

  /** The month-to-date window, from the first of the current month to `today`. */
  function MonthToDateWindow(today: int): (q: CostQuery)
    ensures q.end == today && q.granularity == Monthly && !q.groupByService
    ensures q.start == Calendar.FirstOfMonth(today)
  {
    Query(Calendar.FirstOfMonth(today), today, Monthly, false)
  }

  /** The queries in the order the handler sends them. */
  function Queries(today: int): seq<CostQuery> {
    [SevenDayWindow(today, false), SevenDayWindow(today, true), MonthToDateWindow(today)]
  }

  /** The standalone TotalCost: the last (most recent) entry of the seven-day answer. */
  function LatestRecords(total: seq<TimeResult>, now: int, project: string, environment: string)
    : seq<MetricRecord>
  {
    if total == [] then []
    else [Record("TotalCost", total[|total| - 1].amount, At(now), [], project, environment)]
  }

  /** MonthToDateCost: the first entry of the monthly answer. */
  function MonthToDateRecords(mtd: seq<TimeResult>, now: int, project: string, environment: string)
    : seq<MetricRecord>
  {
    if mtd == [] then []
    else [Record("MonthToDateCost", mtd[0].amount, At(now), [], project, environment)]
  }

  /** One TotalCost per day, stamped with midnight of that day's own start date. */
  function DailyRecords(total: seq<TimeResult>, project: string, environment: string)
    : seq<MetricRecord>
  {
    if total == [] then []
    else
      DailyRecords(total[..|total| - 1], project, environment) +
      [Record("TotalCost", total[|total| - 1].amount, StartOfDate(total[|total| - 1].start), [],
              project, environment)]
  }

  /**
   * Every record the handler publishes when no call raises, in publishing
   * order; `costs` is the service breakdown.
   */
  function Planned(total: seq<TimeResult>, costs: seq<ServiceCost>, mtd: seq<TimeResult>,
                   now: int, project: string, environment: string): seq<MetricRecord>
  {
    LatestRecords(total, now, project, environment) +
    MonthToDateRecords(mtd, now, project, environment) +
    DailyRecords(total, project, environment) +
    ServiceRecords(costs, now, project, environment)
  }

  /** The i-th daily record carries the i-th result's amount and its own start date. */
  lemma {:induction false} DailyRecordsAt(total: seq<TimeResult>, project: string, environment: string)
    ensures |DailyRecords(total, project, environment)| == |total|
    ensures forall i :: 0 <= i < |total| ==>
              DailyRecords(total, project, environment)[i] ==
              Record("TotalCost", total[i].amount, StartOfDate(total[i].start), [], project, environment)
    decreases |total|
  {
    if total != [] {
      var p := total[..|total| - 1];
      DailyRecordsAt(p, project, environment);
      assert forall i :: 0 <= i < |p| ==> p[i] == total[i];
    }
  }

  /** How many records come before the daily series: the latest day and the month to date. */
  function HeadCount(total: seq<TimeResult>, mtd: seq<TimeResult>): nat {
    (if total == [] then 0 else 1) + (if mtd == [] then 0 else 1)
  }

  /**
   * What a run publishes when nothing raises: the latest day first, then the
   * month to date, then each day in order with its own date, then each
   * service of the breakdown.
   */
  lemma PlannedLayout(total: seq<TimeResult>, costs: seq<ServiceCost>, mtd: seq<TimeResult>,
                      now: int, project: string, environment: string)
    ensures |Planned(total, costs, mtd, now, project, environment)| == HeadCount(total, mtd) + |total| + |costs|
    ensures total != [] ==>
              Planned(total, costs, mtd, now, project, environment)[0] ==
              Record("TotalCost", total[|total| - 1].amount, At(now), [], project, environment)
    ensures mtd != [] ==>
              Planned(total, costs, mtd, now, project, environment)[HeadCount(total, mtd) - 1] ==
              Record("MonthToDateCost", mtd[0].amount, At(now), [], project, environment)
    ensures forall i :: 0 <= i < |total| ==>
              Planned(total, costs, mtd, now, project, environment)[HeadCount(total, mtd) + i] ==
              Record("TotalCost", total[i].amount, StartOfDate(total[i].start), [], project, environment)
    ensures forall j :: 0 <= j < |costs| ==>
              Planned(total, costs, mtd, now, project, environment)[HeadCount(total, mtd) + |total| + j] ==
              Record("ServiceCost", costs[j].amount, At(now),
                     [Dimension("ServiceName", costs[j].friendlyName)], project, environment)
  {
    PlannedHeadAt(total, costs, mtd, now, project, environment);
    PlannedDailyAt(total, costs, mtd, now, project, environment);
    PlannedServicesAt(total, costs, mtd, now, project, environment);
  }

  lemma PlannedHeadAt(total: seq<TimeResult>, costs: seq<ServiceCost>, mtd: seq<TimeResult>,
                      now: int, project: string, environment: string)
    ensures |Planned(total, costs, mtd, now, project, environment)| == HeadCount(total, mtd) + |total| + |costs|
    ensures total != [] ==>
              Planned(total, costs, mtd, now, project, environment)[0] ==
              Record("TotalCost", total[|total| - 1].amount, At(now), [], project, environment)
    ensures mtd != [] ==>
              Planned(total, costs, mtd, now, project, environment)[HeadCount(total, mtd) - 1] ==
              Record("MonthToDateCost", mtd[0].amount, At(now), [], project, environment)
  {
    var head := LatestRecords(total, now, project, environment) + MonthToDateRecords(mtd, now, project, environment);
    var p := Planned(total, costs, mtd, now, project, environment);
    DailyRecordsAt(total, project, environment);
    var rest := DailyRecords(total, project, environment) + ServiceRecords(costs, now, project, environment);
    assert p == head + rest;
    if total != [] {
      assert p[0] == head[0];
    }
    if mtd != [] {
      assert p[|head| - 1] == head[|head| - 1];
    }
  }

  lemma PlannedDailyAt(total: seq<TimeResult>, costs: seq<ServiceCost>, mtd: seq<TimeResult>,
                       now: int, project: string, environment: string)
    ensures |Planned(total, costs, mtd, now, project, environment)| == HeadCount(total, mtd) + |total| + |costs|
    ensures forall i :: 0 <= i < |total| ==>
              Planned(total, costs, mtd, now, project, environment)[HeadCount(total, mtd) + i] ==
              Record("TotalCost", total[i].amount, StartOfDate(total[i].start), [], project, environment)
  {
    var head := LatestRecords(total, now, project, environment) + MonthToDateRecords(mtd, now, project, environment);
    var daily := DailyRecords(total, project, environment);
    var p := Planned(total, costs, mtd, now, project, environment);
    DailyRecordsAt(total, project, environment);
    var services := ServiceRecords(costs, now, project, environment);
    assert p == (head + daily) + services;
    assert |head| == HeadCount(total, mtd);
    forall i | 0 <= i < |total|
      ensures p[HeadCount(total, mtd) + i] ==
              Record("TotalCost", total[i].amount, StartOfDate(total[i].start), [], project, environment)
    {
      assert p[|head| + i] == (head + daily)[|head| + i] == daily[i];
    }
  }

  lemma PlannedServicesAt(total: seq<TimeResult>, costs: seq<ServiceCost>, mtd: seq<TimeResult>,
                          now: int, project: string, environment: string)
    ensures |Planned(total, costs, mtd, now, project, environment)| == HeadCount(total, mtd) + |total| + |costs|
    ensures forall j :: 0 <= j < |costs| ==>
              Planned(total, costs, mtd, now, project, environment)[HeadCount(total, mtd) + |total| + j] ==
              Record("ServiceCost", costs[j].amount, At(now),
                     [Dimension("ServiceName", costs[j].friendlyName)], project, environment)
  {
    var front := LatestRecords(total, now, project, environment) + MonthToDateRecords(mtd, now, project, environment) +
                 DailyRecords(total, project, environment);
    var services := ServiceRecords(costs, now, project, environment);
    var p := Planned(total, costs, mtd, now, project, environment);
    DailyRecordsAt(total, project, environment);
    ServiceRecordsAt(costs, now, project, environment);
    assert p == front + services;
    assert |front| == HeadCount(total, mtd) + |total|;
    forall j | 0 <= j < |costs|
      ensures p[HeadCount(total, mtd) + |total| + j] ==
              Record("ServiceCost", costs[j].amount, At(now),
                     [Dimension("ServiceName", costs[j].friendlyName)], project, environment)
    {
      assert p[|front| + j] == services[j];
    }
  }

  /** The latest-day and month-to-date records lead with the fixed dimensions. */
  lemma HeadBase(total: seq<TimeResult>, mtd: seq<TimeResult>, now: int, project: string, environment: string)
    ensures var head := LatestRecords(total, now, project, environment) + MonthToDateRecords(mtd, now, project, environment);
            forall i :: 0 <= i < |head| ==> HasBase(head[i], project, environment)
  {
    if total != [] {
      RecordShape("TotalCost", total[|total| - 1].amount, At(now), [], project, environment);
    }
    if mtd != [] {
      RecordShape("MonthToDateCost", mtd[0].amount, At(now), [], project, environment);
    }
  }

  /** Every daily record leads with the fixed dimensions. */
  lemma DailyBase(total: seq<TimeResult>, project: string, environment: string)
    ensures forall i :: 0 <= i < |DailyRecords(total, project, environment)| ==>
              HasBase(DailyRecords(total, project, environment)[i], project, environment)
  {
    DailyRecordsAt(total, project, environment);
    forall i | 0 <= i < |total|
      ensures HasBase(DailyRecords(total, project, environment)[i], project, environment)
    {
      RecordShape("TotalCost", total[i].amount, StartOfDate(total[i].start), [], project, environment);
    }
  }

  /** Every published record starts with the Project and Environment dimensions. */
  lemma PlannedDimensions(total: seq<TimeResult>, costs: seq<ServiceCost>, mtd: seq<TimeResult>,
                          now: int, project: string, environment: string)
    ensures forall r :: r in Planned(total, costs, mtd, now, project, environment) ==> HasBase(r, project, environment)
  {
    var head := LatestRecords(total, now, project, environment) + MonthToDateRecords(mtd, now, project, environment);
    var daily := DailyRecords(total, project, environment);
    var services := ServiceRecords(costs, now, project, environment);
    HeadBase(total, mtd, now, project, environment);
    DailyBase(total, project, environment);
    ServiceRecordsBase(costs, now, project, environment);
    var p := head + daily + services;
    forall k | 0 <= k < |p| ensures HasBase(p[k], project, environment) {
      if k < |head| {
        assert p[k] == head[k];
      } else if k < |head| + |daily| {
        assert p[k] == daily[k - |head|];
      } else {
        assert p[k] == services[k - |head| - |daily|];
      }
    }
  }

  /** A ServiceCost record is only ever published with a positive value. */
  lemma OnlyPositiveServiceCosts(total: seq<TimeResult>, buckets: seq<Bucket>, mtd: seq<TimeResult>,
                                 now: int, project: string, environment: string)
    ensures forall r :: (r in Planned(total, ServiceBreakdown(buckets), mtd, now, project, environment) &&
                         r.metricName == "ServiceCost") ==> r.value > 0.0
  {
    DailyRecordsAt(total, project, environment);
    ServiceRecordsPositive(Services(Flatten(buckets)), Flatten(buckets), now, project, environment);
    var head := LatestRecords(total, now, project, environment) + MonthToDateRecords(mtd, now, project, environment);
    var daily := DailyRecords(total, project, environment);
    var services := ServiceRecords(ServiceBreakdown(buckets), now, project, environment);
    var p := head + daily + services;
    forall k | 0 <= k < |p| ensures p[k].metricName == "ServiceCost" ==> p[k].value > 0.0 {
      if k < |head| {
        assert p[k] == head[k];
      } else if k < |head| + |daily| {
        assert p[k] == daily[k - |head|];
      } else {
        assert p[k] == services[k - |head| - |daily|];
      }
    }
  }

  /**
   * `publish_metric` and `publish_metric_with_timestamp`: one record with
   * the fixed dimensions followed by the metric's own, sent in a single call;
   * `ok` is false when that call raised.
   */
  method PublishMetric(calls0: seq<PutCall>, ns: string, name: string, value: real,
                       extra: seq<Dimension>, ts: Timestamp, project: string, environment: string,
                       putOk: nat -> bool)
    returns (calls: seq<PutCall>, ok: bool)
    ensures calls == calls0 + [PutCall(ns, [Record(name, value, ts, extra, project, environment)])]
    ensures ok == putOk(|calls0|)
  {
    var dimensions := BaseDimensions(project, environment);
    dimensions := dimensions + extra;
    var data := MetricRecord(name, value, UnitNone, ts, dimensions);
    calls := calls0 + [PutCall(ns, [data])];
    ok := putOk(|calls0|);
  }

  /**
   * `publish_metric` for the next planned record, with what the run has
   * sent so far: a success extends it, a raise ends the run right there.
   */
  method PublishNext(calls0: seq<PutCall>, ghost sent: seq<MetricRecord>, ghost all: seq<MetricRecord>,
                     ns: string, name: string, value: real, extra: seq<Dimension>, ts: Timestamp,
                     project: string, environment: string, putOk: nat -> bool)
    returns (calls: seq<PutCall>, ok: bool)
    requires SentSoFar(calls0, ns, sent, putOk)
    requires sent + [Record(name, value, ts, extra, project, environment)] <= all
    ensures ok ==> SentSoFar(calls, ns, sent + [Record(name, value, ts, extra, project, environment)], putOk)
    ensures !ok ==> Send(Singles(ns, all), putOk) == Delivery(calls, false)
  {
    calls, ok := PublishMetric(calls0, ns, name, value, extra, ts, project, environment, putOk);
    if !ok {
      StoppedAt(calls0, ns, sent, Record(name, value, ts, extra, project, environment), all, putOk);
    } else {
      StillSent(calls0, ns, sent, Record(name, value, ts, extra, project, environment), putOk);
    }
  }

  /** The daily loop: one TotalCost per result, stamped with the result's start date. */
  method PublishDaily(calls0: seq<PutCall>, ghost done: seq<MetricRecord>, ghost all: seq<MetricRecord>,
                      ns: string, total: seq<TimeResult>, project: string, environment: string,
                      putOk: nat -> bool)
    returns (calls: seq<PutCall>, ok: bool)
    requires SentSoFar(calls0, ns, done, putOk)
    requires done + DailyRecords(total, project, environment) <= all
    ensures ok ==> SentSoFar(calls, ns, done + DailyRecords(total, project, environment), putOk)
    ensures !ok ==> Send(Singles(ns, all), putOk) == Delivery(calls, false)
  {
    calls, ok := calls0, true;
    assert done + DailyRecords(total[..0], project, environment) == done;
    var i := 0;
    while i < |total|
      invariant 0 <= i <= |total|
      invariant SentSoFar(calls, ns, done + DailyRecords(total[..i], project, environment), putOk)
    {
      calls, ok := PublishDay(calls, done, all, ns, total, i, project, environment, putOk);
      if !ok {
        return;
      }
      i := i + 1;
    }
    assert total[..i] == total;
  }

  /** One turn of the daily loop. */
  method PublishDay(calls0: seq<PutCall>, ghost done: seq<MetricRecord>, ghost all: seq<MetricRecord>,
                    ns: string, total: seq<TimeResult>, i: nat, project: string, environment: string,
                    putOk: nat -> bool)
    returns (calls: seq<PutCall>, ok: bool)
    requires i < |total|
    requires done + DailyRecords(total, project, environment) <= all
    requires SentSoFar(calls0, ns, done + DailyRecords(total[..i], project, environment), putOk)
    ensures ok ==> SentSoFar(calls, ns, done + DailyRecords(total[..i + 1], project, environment), putOk)
    ensures !ok ==> Send(Singles(ns, all), putOk) == Delivery(calls, false)
  {
    ghost var sent := done + DailyRecords(total[..i], project, environment);
    var day := total[i];
    ghost var r := Record("TotalCost", day.amount, StartOfDate(day.start), [], project, environment);
    DailySnoc(total, i, project, environment);
    assert sent + [r] == done + DailyRecords(total[..i + 1], project, environment);
    RecordsPrefix(done, total, i, project, environment);
    calls, ok := PublishNext(calls0, sent, all, ns, "TotalCost", day.amount, [], StartOfDate(day.start),
                             project, environment, putOk);
  }

  /** One more day appends its record. */
  lemma DailySnoc(total: seq<TimeResult>, i: nat, project: string, environment: string)
    requires i < |total|
    ensures DailyRecords(total[..i + 1], project, environment) ==
            DailyRecords(total[..i], project, environment) +
            [Record("TotalCost", total[i].amount, StartOfDate(total[i].start), [], project, environment)]
  {
    assert total[..i + 1][..i] == total[..i];
  }

  lemma RecordsPrefix(done: seq<MetricRecord>, total: seq<TimeResult>, i: nat, project: string, environment: string)
    requires i < |total|
    ensures done + DailyRecords(total[..i + 1], project, environment) <= done + DailyRecords(total, project, environment)
  {
    DailyPrefix(total[..i + 1], total[i + 1..], project, environment);
    assert total[..i + 1] + total[i + 1..] == total;
  }

  lemma {:induction false} DailyPrefix(a: seq<TimeResult>, b: seq<TimeResult>, project: string, environment: string)
    ensures DailyRecords(a, project, environment) <= DailyRecords(a + b, project, environment)
    decreases |b|
  {
    if b == [] {
      assert a + b == a;
    } else {
      assert (a + b)[..|a + b| - 1] == a + b[..|b| - 1];
      DailyPrefix(a, b[..|b| - 1], project, environment);
    }
  }

  /** The service loop: one ServiceCost per service whose sum is positive. */
  method PublishServices(calls0: seq<PutCall>, ghost done: seq<MetricRecord>, ghost all: seq<MetricRecord>,
                         ns: string, names: seq<string>, totals: map<string, real>, ghost gs: seq<Group>,
                         now: int, project: string, environment: string, putOk: nat -> bool)
    returns (calls: seq<PutCall>, ok: bool)
    requires forall s :: s in names ==> s in totals && totals[s] == Total(gs, s)
    requires SentSoFar(calls0, ns, done, putOk)
    requires done + ServiceRecords(PositiveCosts(names, gs), now, project, environment) <= all
    ensures ok ==> SentSoFar(calls, ns, done + ServiceRecords(PositiveCosts(names, gs), now, project, environment), putOk)
    ensures !ok ==> Send(Singles(ns, all), putOk) == Delivery(calls, false)
  {
    calls, ok := calls0, true;
    assert done + ServiceRecords(PositiveCosts(names[..0], gs), now, project, environment) == done;
    var j := 0;
    while j < |names|
      invariant 0 <= j <= |names|
      invariant SentSoFar(calls, ns, done + ServiceRecords(PositiveCosts(names[..j], gs), now, project, environment), putOk)
    {
      calls, ok := PublishService(calls, done, all, ns, names, totals, gs, j, now, project, environment, putOk);
      if !ok {
        return;
      }
      j := j + 1;
    }
    assert names[..j] == names;
  }

  /** One turn of the service loop. */
  method PublishService(calls0: seq<PutCall>, ghost done: seq<MetricRecord>, ghost all: seq<MetricRecord>,
                        ns: string, names: seq<string>, totals: map<string, real>, ghost gs: seq<Group>,
                        j: nat, now: int, project: string, environment: string, putOk: nat -> bool)
    returns (calls: seq<PutCall>, ok: bool)
    requires j < |names| && names[j] in totals && totals[names[j]] == Total(gs, names[j])
    requires done + ServiceRecords(PositiveCosts(names, gs), now, project, environment) <= all
    requires SentSoFar(calls0, ns, done + ServiceRecords(PositiveCosts(names[..j], gs), now, project, environment), putOk)
    ensures ok ==> SentSoFar(calls, ns, done + ServiceRecords(PositiveCosts(names[..j + 1], gs), now, project, environment), putOk)
    ensures !ok ==> Send(Singles(ns, all), putOk) == Delivery(calls, false)
  {
    ghost var posted := PositiveCosts(names[..j], gs);
    ghost var sent := done + ServiceRecords(posted, now, project, environment);
    var service := names[j];
    var amount := totals[service];
    PositiveCostsSnoc(names, j, gs);
    ServicePrefix(done, names, j, gs, now, project, environment);
    calls, ok := calls0, true;
    if amount > 0.0 {
      var friendly := FriendlyName(service);
      ghost var c := ServiceCost(friendly, amount);
      ghost var r := Record("ServiceCost", amount, At(now), [Dimension("ServiceName", friendly)], project, environment);
      ServiceRecordsSnoc(posted, c, now, project, environment);
      assert sent + [r] == done + ServiceRecords(PositiveCosts(names[..j + 1], gs), now, project, environment);
      calls, ok := PublishNext(calls0, sent, all, ns, "ServiceCost", amount, [Dimension("ServiceName", friendly)],
                               At(now), project, environment, putOk);
    } else {
      assert posted + [] == posted;
    }
  }

  lemma ServicePrefix(done: seq<MetricRecord>, names: seq<string>, j: nat, gs: seq<Group>,
                      now: int, project: string, environment: string)
    requires j < |names|
    ensures done + ServiceRecords(PositiveCosts(names[..j + 1], gs), now, project, environment) <=
            done + ServiceRecords(PositiveCosts(names, gs), now, project, environment)
  {
    PositiveCostsPrefix(names[..j + 1], names[j + 1..], gs);
    assert names[..j + 1] + names[j + 1..] == names;
    var a, b := PositiveCosts(names[..j + 1], gs), PositiveCosts(names, gs);
    ServiceRecordsPrefix(a, b, now, project, environment);
  }

  /**
   * The handler. `queries` are the Cost Explorer calls made, `calls` the
   * `put_metric_data` calls made (the last one is the one that raised, if any).
   */
  method Handler(today: int, now: int, project: string, environment: string,
                 totalAnswer: Answer<seq<TimeResult>>, serviceAnswer: Answer<seq<Bucket>>,
                 mtdAnswer: Answer<seq<TimeResult>>, putOk: nat -> bool)
    returns (queries: seq<CostQuery>, calls: seq<PutCall>, result: JobResult<Reply>)
    ensures totalAnswer.Threw? ==> queries == Queries(today)[..1] && calls == [] && result == Raised(QueryError)
    ensures totalAnswer.Returned? && serviceAnswer.Threw? ==>
              queries == Queries(today)[..2] && calls == [] && result == Raised(QueryError)
    ensures totalAnswer.Returned? && serviceAnswer.Returned? && mtdAnswer.Threw? ==>
              queries == Queries(today) && calls == [] && result == Raised(QueryError)
    ensures totalAnswer.Returned? && serviceAnswer.Returned? && mtdAnswer.Returned? ==>
              var total := totalAnswer.results;
              var d := Send(Singles(Namespace(project),
                                    Planned(total, ServiceBreakdown(serviceAnswer.results), mtdAnswer.results,
                                            now, project, environment)), putOk);
              queries == Queries(today) && calls == d.calls &&
              result == (if !d.delivered then Raised(PublishError)
                         else if total == [] then Raised(TotalUnbound)
                         else Completed(Reply(SuccessCode, total[|total| - 1].amount)))
  {
    calls := [];
    queries := [SevenDayWindow(today, false)];
    if totalAnswer.Threw? {
      return queries, calls, Raised(QueryError);
    }
    queries := queries + [SevenDayWindow(today, true)];
    if serviceAnswer.Threw? {
      return queries, calls, Raised(QueryError);
    }
    queries := queries + [MonthToDateWindow(today)];
    if mtdAnswer.Threw? {
      return queries, calls, Raised(QueryError);
    }
    var total := totalAnswer.results;
    var ok: bool;
    calls, ok := PublishAll(total, serviceAnswer.results, mtdAnswer.results, now, project, environment, putOk);
    if !ok {
      result := Raised(PublishError);
    } else if |total| == 0 {
      result := Raised(TotalUnbound);
    } else {
      result := Completed(Reply(SuccessCode, total[|total| - 1].amount));
    }
  }

  /** Everything after the queries: the records published one call at a time. */
  method PublishAll(total: seq<TimeResult>, buckets: seq<Bucket>, mtd: seq<TimeResult>,
                    now: int, project: string, environment: string, putOk: nat -> bool)
    returns (calls: seq<PutCall>, ok: bool)
    ensures Send(Singles(Namespace(project), Planned(total, ServiceBreakdown(buckets), mtd, now, project, environment)),
                 putOk) == Delivery(calls, ok)
  {
    var ns := Namespace(project);
    ghost var all := Planned(total, ServiceBreakdown(buckets), mtd, now, project, environment);
    ghost var latest := LatestRecords(total, now, project, environment);
    ghost var head := latest + MonthToDateRecords(mtd, now, project, environment);
    ghost var daily := DailyRecords(total, project, environment);
    assert all == head + daily + ServiceRecords(ServiceBreakdown(buckets), now, project, environment);
    calls := [];

    if |total| > 0 {
      ghost var r := Record("TotalCost", total[|total| - 1].amount, At(now), [], project, environment);
      assert [] + [r] <= all;
      calls, ok := PublishMetric(calls, ns, "TotalCost", total[|total| - 1].amount, [], At(now),
                                 project, environment, putOk);
      if !ok {
        StoppedAt([], ns, [], r, all, putOk);
        return;
      }
      StillSent([], ns, [], r, putOk);
    }
    assert SentSoFar(calls, ns, latest, putOk);

    if |mtd| > 0 {
      ghost var r := Record("MonthToDateCost", mtd[0].amount, At(now), [], project, environment);
      assert latest + [r] == head;
      var before := calls;
      calls, ok := PublishMetric(calls, ns, "MonthToDateCost", mtd[0].amount, [], At(now),
                                 project, environment, putOk);
      if !ok {
        StoppedAt(before, ns, latest, r, all, putOk);
        return;
      }
      StillSent(before, ns, latest, r, putOk);
    }
    assert SentSoFar(calls, ns, head, putOk);

    calls, ok := PublishDaily(calls, head, all, ns, total, project, environment, putOk);
    if !ok {
      return;
    }

    var names, totals := Aggregate(buckets);
    calls, ok := PublishServices(calls, head + daily, all, ns, names, totals, Flatten(buckets),
                                 now, project, environment, putOk);
    if ok {
      SendAll(Singles(ns, all), putOk);
    }
  }
}
