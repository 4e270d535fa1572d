/**
 * What the cost exporter and the cost backfill share: the CloudWatch metric
 * record, the two fixed dimensions every record starts with, the namespace,
 * the Cost Explorer query, the friendly service names, and the fail-fast way
 * `put_metric_data` calls are issued (the first call that raises ends the job).
 */
module CostCommon {

  import Calendar

  datatype Dimension = Dimension(name: string, value: string)

  /** A record's timestamp: a clock reading in seconds, or midnight of a query date. */
  datatype Timestamp = At(seconds: int) | StartOfDate(date: string)

  datatype MetricRecord = MetricRecord(
    metricName: string,
    value: real,
    unit: string,
    timestamp: Timestamp,
    dimensions: seq<Dimension>)

  /** One `put_metric_data` call. */
  datatype PutCall = PutCall(namespace: string, metricData: seq<MetricRecord>)

  /** One entry of `ResultsByTime` without grouping: its start date and total amount. */
  datatype TimeResult = TimeResult(start: string, amount: real)

  datatype Granularity = Daily | Monthly

  /** One `get_cost_and_usage` call; dates are day numbers, `end` is exclusive. */
  datatype CostQuery = CostQuery(
    start: int,
    end: int,
    granularity: Granularity,
    groupByService: bool,
    excludedRecordTypes: seq<string>)

  /** What a Cost Explorer call gave back: its `ResultsByTime`, or an exception. */
  datatype Answer<T> = Returned(results: T) | Threw

  /** Why a cost job raised. */
  datatype JobError = QueryError | PublishError | TotalUnbound

  datatype JobResult<T> = Completed(reply: T) | Raised(error: JobError)

  const UnitNone: string := "None"
  const SuccessCode: int := 200
  const ExcludedRecordTypes: seq<string> := ["Credit", "Refund", "Tax"]

  /** The Cost Explorer query both jobs send, over [start, end). */
  function Query(start: int, end: int, g: Granularity, byService: bool): (q: CostQuery)
    ensures q.excludedRecordTypes == ["Credit", "Refund", "Tax"]
  {
    CostQuery(start, end, g, byService, ExcludedRecordTypes)
  }

  /** The window of the last seven days before `today`. */
  function SevenDayWindow(today: int, byService: bool): (q: CostQuery)
    ensures q.end == today && q.start == today - 7 && q.granularity == Daily
  {
    Query(today - 7, today, Daily, byService)
  }

  function BaseDimensions(project: string, environment: string): seq<Dimension> {
    [Dimension("Project", project), Dimension("Environment", environment)]
  }

  /** A record with the fixed Project and Environment dimensions followed by `extra`. */
  function Record(name: string, value: real, ts: Timestamp, extra: seq<Dimension>,
                  project: string, environment: string): MetricRecord
  {
    MetricRecord(name, value, UnitNone, ts, BaseDimensions(project, environment) + extra)
  }

  /** A record leads with the Project and Environment dimensions. */
  predicate HasBase(r: MetricRecord, project: string, environment: string) {
    |r.dimensions| >= 2 && r.dimensions[..2] == BaseDimensions(project, environment)
  }

  /** The fixed dimensions come first, the metric's own after them, and the unit is "None". */
  lemma RecordShape(name: string, value: real, ts: Timestamp, extra: seq<Dimension>,
                    project: string, environment: string)
    ensures var r := Record(name, value, ts, extra, project, environment);
            && |r.dimensions| == 2 + |extra|
            && r.dimensions[0] == Dimension("Project", project)
            && r.dimensions[1] == Dimension("Environment", environment)
            && r.dimensions[2..] == extra
            && HasBase(r, project, environment)
            && r.metricName == name && r.value == value && r.timestamp == ts && r.unit == UnitNone
  {
    var r := Record(name, value, ts, extra, project, environment);
    assert r.dimensions[..2] == BaseDimensions(project, environment);
    assert r.dimensions[2..] == extra;
  }

  function UpperChar(c: char): char {
    if 'a' <= c <= 'z' then (c as int - 32) as char else c
  }

  /** ASCII upper case, as `str.upper()` does on ASCII text. */
  function Upper(s: string): (u: string)
    ensures |u| == |s|
    ensures forall i :: 0 <= i < |s| ==> u[i] == UpperChar(s[i])
  {
    if s == [] then [] else [UpperChar(s[0])] + Upper(s[1..])
  }

  /** `f'{PROJECT_NAME.upper()}/Costs'`. */
  function Namespace(project: string): (ns: string)
    ensures |ns| == |project| + 6
    ensures ns[|project|..] == "/Costs"
    ensures forall i :: 0 <= i < |project| ==> ns[i] == UpperChar(project[i])
  {
    Upper(project) + "/Costs"
  }

  /** The static table from Cost Explorer service names to dashboard names. */
  const ServiceMapping: map<string, string> := map[
    "Amazon Elastic Container Service" := "ECS",
    "Amazon Relational Database Service" := "RDS",
    "Amazon Elastic Compute Cloud - Compute" := "EC2",
    "Amazon Simple Storage Service" := "S3",
    "AWS Amplify" := "Amplify",
    "Amazon Virtual Private Cloud" := "VPC",
    "AmazonCloudWatch" := "CloudWatch",
    "AWS Lambda" := "Lambda",
    "Amazon CloudFront" := "CloudFront"
  ]

  /** `service_mapping.get(name, name)`. */
  function FriendlyName(service: string): string {
    if service in ServiceMapping then ServiceMapping[service] else service
  }

  /** A name the table does not know passes through; a renamed name came from the table. */
  lemma FriendlyNameCases(service: string)
    ensures service !in ServiceMapping ==> FriendlyName(service) == service
    ensures service in ServiceMapping ==> FriendlyName(service) == ServiceMapping[service]
    ensures FriendlyName(service) != service ==>
              service in ServiceMapping && FriendlyName(service) in ServiceMapping.Values
  {
  }

  lemma FriendlyNameExamples()
    ensures FriendlyName("Amazon Elastic Container Service") == "ECS"
    ensures FriendlyName("AWS Lambda") == "Lambda"
    ensures FriendlyName("Tax Service") == "Tax Service"
  {
  }

  /**
   * The index of the first failing `put_metric_data` call among calls
   * `from` to `n - 1`, or `n` when all of them succeed.
   */
  function FirstFailure(putOk: nat -> bool, from: nat, n: nat): (f: nat)
    requires from <= n
    ensures from <= f <= n
    ensures forall k :: from <= k < f ==> putOk(k)
    ensures f < n ==> !putOk(f)
    decreases n - from
  {
    if from == n then n
    else if !putOk(from) then from
    else FirstFailure(putOk, from + 1, n)
  }

  /** The calls actually made when a job plans `planned` and stops at the first that raises. */
  datatype Delivery = Delivery(calls: seq<PutCall>, delivered: bool)

  /** Every one of `calls` succeeded. */
  predicate AllOk(calls: seq<PutCall>, putOk: nat -> bool) {
    forall k :: 0 <= k < |calls| ==> putOk(k)
  }

  function Send(planned: seq<PutCall>, putOk: nat -> bool): (d: Delivery)
    ensures d.calls <= planned
    ensures d.delivered <==> (d.calls == planned && AllOk(planned, putOk))
    ensures !d.delivered ==>
              |d.calls| > 0 && !putOk(|d.calls| - 1) &&
              forall k :: 0 <= k < |d.calls| - 1 ==> putOk(k)
  {
    var f := FirstFailure(putOk, 0, |planned|);
    if f < |planned| then Delivery(planned[..f + 1], false) else Delivery(planned, true)
  }

  /** Every planned call succeeded: all of them were made. */
  lemma SendAll(planned: seq<PutCall>, putOk: nat -> bool)
    requires AllOk(planned, putOk)
    ensures Send(planned, putOk) == Delivery(planned, true)
  {
  }

  /** The calls made so far end with the first one that raised: the job stops there. */
  lemma SendStopsAt(planned: seq<PutCall>, putOk: nat -> bool, calls: seq<PutCall>)
    requires calls <= planned && |calls| > 0
    requires !putOk(|calls| - 1) && forall k :: 0 <= k < |calls| - 1 ==> putOk(k)
    ensures Send(planned, putOk) == Delivery(calls, false)
  {
  }

  /** So far `calls` sent `records` one per call, and every one of them succeeded. */
  predicate SentSoFar(calls: seq<PutCall>, ns: string, records: seq<MetricRecord>, putOk: nat -> bool) {
    calls == Singles(ns, records) && AllOk(calls, putOk)
  }

  /** The record just sent raised: the run ends with these calls. */
  lemma StoppedAt(calls: seq<PutCall>, ns: string, done: seq<MetricRecord>, r: MetricRecord,
                  all: seq<MetricRecord>, putOk: nat -> bool)
    requires SentSoFar(calls, ns, done, putOk) && done + [r] <= all && !putOk(|calls|)
    ensures Send(Singles(ns, all), putOk) == Delivery(calls + [PutCall(ns, [r])], false)
  {
    SinglesAppend(ns, done, [r]);
    assert Singles(ns, [r]) == [PutCall(ns, [r])];
    var planned := Singles(ns, all);
    var sent := calls + [PutCall(ns, [r])];
    assert sent == Singles(ns, done + [r]);
    assert sent <= planned;
    SendStopsAt(planned, putOk, sent);
  }

  /** The record just sent succeeded. */
  lemma StillSent(calls: seq<PutCall>, ns: string, done: seq<MetricRecord>, r: MetricRecord, putOk: nat -> bool)
    requires SentSoFar(calls, ns, done, putOk) && putOk(|calls|)
    ensures SentSoFar(calls + [PutCall(ns, [r])], ns, done + [r], putOk)
  {
    SinglesAppend(ns, done, [r]);
    assert Singles(ns, [r]) == [PutCall(ns, [r])];
  }

  /** One call per record: how `publish_metric` sends. */
  function Singles(ns: string, records: seq<MetricRecord>): (calls: seq<PutCall>)
    ensures |calls| == |records|
    ensures forall i :: 0 <= i < |records| ==> calls[i] == PutCall(ns, [records[i]])
  {
    if records == [] then [] else [PutCall(ns, [records[0]])] + Singles(ns, records[1..])
  }

  lemma {:induction false} SinglesAppend(ns: string, a: seq<MetricRecord>, b: seq<MetricRecord>)
    ensures Singles(ns, a + b) == Singles(ns, a) + Singles(ns, b)
  {
    var l, r := Singles(ns, a + b), Singles(ns, a) + Singles(ns, b);
    assert |l| == |r|;
    forall i | 0 <= i < |l| ensures l[i] == r[i] {
      if i < |a| {
        assert (a + b)[i] == a[i];
      } else {
        assert (a + b)[i] == b[i - |a|];
      }
    }
  }
}
