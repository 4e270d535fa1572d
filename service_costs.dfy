/**
 * The per-service cost breakdown both cost jobs compute: the `service_costs`
 * dictionary filled in place over every time bucket and every group of a
 * GroupBy=SERVICE query, then the positive totals under their friendly names.
 */
module ServiceCosts {

  import opened CostCommon

  /** One entry of a bucket's `Groups`: its first key and its UnblendedCost amount. */
  datatype Group = Group(service: string, amount: real)

  /** One entry of `ResultsByTime`; a missing `Groups` list is the empty one. */
  datatype Bucket = Bucket(groups: seq<Group>)

  /** A service to publish: its friendly name and its summed cost. */
  datatype ServiceCost = ServiceCost(friendlyName: string, amount: real)

  /** All groups of all buckets, in the order the nested loops visit them. */
  function Flatten(bs: seq<Bucket>): seq<Group> {
    if bs == [] then [] else Flatten(bs[..|bs| - 1]) + bs[|bs| - 1].groups
  }

  predicate Mentions(gs: seq<Group>, s: string) {
    exists i :: 0 <= i < |gs| && gs[i].service == s
  }

  /** Sum of the amounts of the groups of service s. */
  function Total(gs: seq<Group>, s: string): real {
    if gs == [] then 0.0
    else Total(gs[..|gs| - 1], s) + (if gs[|gs| - 1].service == s then gs[|gs| - 1].amount else 0.0)
  }

  /** The services of gs, each once, in the order of their first appearance. */
  function Services(gs: seq<Group>): seq<string> {
    if gs == [] then []
    else
      var prev := Services(gs[..|gs| - 1]);
      var last := gs[|gs| - 1].service;
      if last in prev then prev else prev + [last]
  }

  /** Grouping by a prefix: a service occurs in gs iff it occurs before the last group or is the last. */
  lemma MentionsSnoc(gs: seq<Group>, s: string)
    requires gs != []
    ensures Mentions(gs, s) <==> Mentions(gs[..|gs| - 1], s) || s == gs[|gs| - 1].service
  {
    if Mentions(gs, s) && s != gs[|gs| - 1].service {
      var i :| 0 <= i < |gs| && gs[i].service == s;
      assert i < |gs| - 1 && gs[..|gs| - 1][i] == gs[i];
    }
    if Mentions(gs[..|gs| - 1], s) {
      var i :| 0 <= i < |gs| - 1 && gs[..|gs| - 1][i].service == s;
      assert gs[i].service == s;
    }
  }

  /** Each service is listed once, and exactly the services that occur are listed. */
  lemma {:induction false} ServicesSpec(gs: seq<Group>)
    ensures forall i, j :: 0 <= i < j < |Services(gs)| ==> Services(gs)[i] != Services(gs)[j]
    ensures forall s :: s in Services(gs) <==> Mentions(gs, s)
    decreases |gs|
  {
    if gs != [] {
      ServicesSpec(gs[..|gs| - 1]);
      forall s ensures s in Services(gs) <==> Mentions(gs, s) {
        MentionsSnoc(gs, s);
      }
    }
  }

  /** Summing over a concatenation adds the two sums. */
  lemma {:induction false} TotalAppend(a: seq<Group>, b: seq<Group>, s: string)
    ensures Total(a + b, s) == Total(a, s) + Total(b, s)
    decreases |b|
  {
    if b != [] {
      var b' := b[..|b| - 1];
      assert (a + b)[..|a + b| - 1] == a + b';
      TotalAppend(a, b', s);
    } else {
      assert a + b == a;
    }
  }

  /** A service summed over all groups of all buckets is the sum of its per-bucket sums. */
  function BucketTotals(bs: seq<Bucket>, s: string): real {
    if bs == [] then 0.0 else BucketTotals(bs[..|bs| - 1], s) + Total(bs[|bs| - 1].groups, s)
  }

  lemma {:induction false} TotalOverBuckets(bs: seq<Bucket>, s: string)
    ensures Total(Flatten(bs), s) == BucketTotals(bs, s)
    decreases |bs|
  {
    if bs != [] {
      TotalOverBuckets(bs[..|bs| - 1], s);
      TotalAppend(Flatten(bs[..|bs| - 1]), bs[|bs| - 1].groups, s);
    }
  }

  /** A service that never appears sums to zero. */
  lemma {:induction false} TotalOfAbsent(gs: seq<Group>, s: string)
    requires !Mentions(gs, s)
    ensures Total(gs, s) == 0.0
    decreases |gs|
  {
    if gs != [] {
      var p := gs[..|gs| - 1];
      forall i | 0 <= i < |p| ensures p[i].service != s {
        assert p[i] == gs[i];
      }
      TotalOfAbsent(p, s);
    }
  }

  /** What one more group does to the services seen and to every sum. */
  lemma GroupStep(a: seq<Group>, g: Group)
    ensures Services(a + [g]) == if g.service in Services(a) then Services(a) else Services(a) + [g.service]
    ensures forall s :: Total(a + [g], s) == Total(a, s) + (if g.service == s then g.amount else 0.0)
  {
    assert (a + [g])[..|a + [g]| - 1] == a;
  }

  /**
   * Later groups never reorder the services already seen: the services of a
   * prefix of the groups are a prefix of the services of all of them.
   */
  lemma {:induction false} ServicesPrefix(a: seq<Group>, b: seq<Group>)
    ensures Services(a) <= Services(a + b)
    decreases |b|
  {
    if b == [] {
      assert a + b == a;
    } else {
      var b' := b[..|b| - 1];
      assert (a + b)[..|a + b| - 1] == a + b';
      ServicesPrefix(a, b');
    }
  }

  /** The dictionary state after the groups `seen`: its keys in order and their sums. */
  ghost predicate Tracks(seen: seq<Group>, names: seq<string>, totals: map<string, real>) {
    && names == Services(seen)
    && (forall s :: s in totals <==> s in names)
    && (forall s :: s in totals ==> totals[s] == Total(seen, s))
  }

  /**
   * Builds the `service_costs` dictionary: the keys in insertion order and
   * the map from key to accumulated amount.
   */
  method Aggregate(bs: seq<Bucket>) returns (names: seq<string>, totals: map<string, real>)
    ensures names == Services(Flatten(bs))
    ensures forall s :: s in totals <==> s in names
    ensures forall s :: s in totals ==> totals[s] == Total(Flatten(bs), s)
  {
    names, totals := [], map[];
    var i := 0;
    while i < |bs|
      invariant 0 <= i <= |bs|
      invariant Tracks(Flatten(bs[..i]), names, totals)
    {
      assert bs[..i + 1][..i] == bs[..i];
      names, totals := AddBucket(Flatten(bs[..i]), names, totals, bs[i].groups);
      i := i + 1;
    }
    assert bs[..i] == bs;
  }

  /** The inner loop of `Aggregate`: one bucket's groups added to the dictionary. */
  method AddBucket(ghost seen: seq<Group>, names0: seq<string>, totals0: map<string, real>, groups: seq<Group>)
    returns (names: seq<string>, totals: map<string, real>)
    requires Tracks(seen, names0, totals0)
    ensures Tracks(seen + groups, names, totals)
  {
    names, totals := names0, totals0;
    var j := 0;
    assert seen + groups[..0] == seen;
    while j < |groups|
      invariant 0 <= j <= |groups|
      invariant Tracks(seen + groups[..j], names, totals)
    {
      ghost var acc := seen + groups[..j];
      names, totals := AddGroup(acc, names, totals, groups[j]);
      assert acc + [groups[j]] == seen + groups[..j + 1];
      j := j + 1;
    }
    assert groups[..j] == groups;
  }

  /** One group added: a new service is appended to the keys with the value 0, then its amount is added. */
  method AddGroup(ghost seen: seq<Group>, names0: seq<string>, totals0: map<string, real>, g: Group)
    returns (names: seq<string>, totals: map<string, real>)
    requires Tracks(seen, names0, totals0)
    ensures Tracks(seen + [g], names, totals)
  {
    GroupStep(seen, g);
    names, totals := names0, totals0;
    if g.service !in totals {
      ServicesSpec(seen);
      TotalOfAbsent(seen, g.service);
      names := names + [g.service];
      totals := totals[g.service := 0.0];
    }
    totals := totals[g.service := totals[g.service] + g.amount];
  }

  /** The positive totals among `names`, in order, under their friendly names. */
  function PositiveCosts(names: seq<string>, gs: seq<Group>): (r: seq<ServiceCost>)
    ensures |r| <= |names|
    ensures forall c :: c in r ==> c.amount > 0.0
  {
    if names == [] then []
    else
      var s := names[|names| - 1];
      var t := Total(gs, s);
      PositiveCosts(names[..|names| - 1], gs) + (if t > 0.0 then [ServiceCost(FriendlyName(s), t)] else [])
  }

  /** One more service considered: its cost is appended exactly when its sum is positive. */
  lemma PositiveCostsSnoc(names: seq<string>, j: nat, gs: seq<Group>)
    requires j < |names|
    ensures PositiveCosts(names[..j + 1], gs) ==
            PositiveCosts(names[..j], gs) +
            (if Total(gs, names[j]) > 0.0 then [ServiceCost(FriendlyName(names[j]), Total(gs, names[j]))] else [])
  {
    assert names[..j + 1][..j] == names[..j];
  }

  /** What a job publishes as ServiceCost: one per service with a positive sum. */
  function ServiceBreakdown(bs: seq<Bucket>): seq<ServiceCost> {
    PositiveCosts(Services(Flatten(bs)), Flatten(bs))
  }

  /**
   * Every service in `names` whose sum is positive is reported with its
   * friendly name and its sum, and everything reported is one of those.
   */
  lemma {:induction false} PositiveCostsExact(names: seq<string>, gs: seq<Group>)
    ensures forall s :: s in names && Total(gs, s) > 0.0 ==>
              ServiceCost(FriendlyName(s), Total(gs, s)) in PositiveCosts(names, gs)
    ensures forall c :: c in PositiveCosts(names, gs) ==>
              exists s :: s in names && Total(gs, s) > 0.0 && c == ServiceCost(FriendlyName(s), Total(gs, s))
    decreases |names|
  {
    if names != [] {
      var p := names[..|names| - 1];
      PositiveCostsExact(p, gs);
      assert names == p + [names[|names| - 1]];
    }
  }

  /** With no positive sum there is nothing to report. */
  lemma {:induction false} NoPositiveCosts(names: seq<string>, gs: seq<Group>)
    requires forall s :: s in names ==> Total(gs, s) <= 0.0
    ensures PositiveCosts(names, gs) == []
    decreases |names|
  {
    if names != [] {
      var p := names[..|names| - 1];
      assert forall s :: s in p ==> s in names;
      NoPositiveCosts(p, gs);
    }
  }

  /**
   * Reported services keep the order of first appearance: the costs of a
   * prefix of the services are a prefix of the costs of all of them.
   */
  lemma {:induction false} PositiveCostsPrefix(a: seq<string>, b: seq<string>, gs: seq<Group>)
    ensures PositiveCosts(a, gs) <= PositiveCosts(a + b, gs)
    decreases |b|
  {
    if b == [] {
      assert a + b == a;
    } else {
      var b' := b[..|b| - 1];
      assert (a + b)[..|a + b| - 1] == a + b';
      PositiveCostsPrefix(a, b', gs);
    }
  }

  /** The ServiceCost records for a breakdown, stamped with the clock reading `now`. */
  function ServiceRecords(costs: seq<ServiceCost>, now: int, project: string, environment: string)
    : (rs: seq<MetricRecord>)
    ensures |rs| == |costs|
  {
    if costs == [] then []
    else
      ServiceRecords(costs[..|costs| - 1], now, project, environment) +
      [Record("ServiceCost", costs[|costs| - 1].amount, At(now),
              [Dimension("ServiceName", costs[|costs| - 1].friendlyName)], project, environment)]
  }

  /** The i-th record carries the i-th cost and its friendly name. */
  lemma {:induction false} ServiceRecordsAt(costs: seq<ServiceCost>, now: int, project: string, environment: string)
    ensures forall i :: 0 <= i < |costs| ==>
              ServiceRecords(costs, now, project, environment)[i] ==
              Record("ServiceCost", costs[i].amount, At(now),
                     [Dimension("ServiceName", costs[i].friendlyName)], project, environment)
    decreases |costs|
  {
    if costs != [] {
      var p := costs[..|costs| - 1];
      ServiceRecordsAt(p, now, project, environment);
      assert forall i :: 0 <= i < |p| ==> p[i] == costs[i];
    }
  }

  /** Appending one cost appends its record. */
  lemma ServiceRecordsSnoc(costs: seq<ServiceCost>, c: ServiceCost, now: int, project: string, environment: string)
    ensures ServiceRecords(costs + [c], now, project, environment) ==
            ServiceRecords(costs, now, project, environment) +
            [Record("ServiceCost", c.amount, At(now), [Dimension("ServiceName", c.friendlyName)], project, environment)]
  {
    assert (costs + [c])[..|costs|] == costs;
  }

  /** A prefix of the costs gives a prefix of the records. */
  lemma ServiceRecordsPrefix(a: seq<ServiceCost>, b: seq<ServiceCost>, now: int, project: string, environment: string)
    requires a <= b
    ensures ServiceRecords(a, now, project, environment) <= ServiceRecords(b, now, project, environment)
  {
    ServiceRecordsAt(a, now, project, environment);
    ServiceRecordsAt(b, now, project, environment);
    var ra, rb := ServiceRecords(a, now, project, environment), ServiceRecords(b, now, project, environment);
    forall i | 0 <= i < |ra| ensures ra[i] == rb[i] {
      assert a[i] == b[i];
    }
  }

  /** Every ServiceCost record leads with the fixed dimensions. */
  lemma ServiceRecordsBase(costs: seq<ServiceCost>, now: int, project: string, environment: string)
    ensures forall i :: 0 <= i < |costs| ==> HasBase(ServiceRecords(costs, now, project, environment)[i], project, environment)
  {
    ServiceRecordsAt(costs, now, project, environment);
    forall i | 0 <= i < |costs|
      ensures HasBase(ServiceRecords(costs, now, project, environment)[i], project, environment)
    {
      RecordShape("ServiceCost", costs[i].amount, At(now), [Dimension("ServiceName", costs[i].friendlyName)],
                  project, environment);
    }
  }

  /** Only positive amounts ever become ServiceCost records. */
  lemma ServiceRecordsPositive(names: seq<string>, gs: seq<Group>, now: int, project: string, environment: string)
    ensures forall r :: r in ServiceRecords(PositiveCosts(names, gs), now, project, environment) ==>
              r.metricName == "ServiceCost" && r.value > 0.0
  {
    var costs := PositiveCosts(names, gs);
    var rs := ServiceRecords(costs, now, project, environment);
    ServiceRecordsAt(costs, now, project, environment);
    forall r | r in rs ensures r.metricName == "ServiceCost" && r.value > 0.0 {
      var k :| 0 <= k < |rs| && rs[k] == r;
      assert costs[k] in costs;
    }
  }
}
