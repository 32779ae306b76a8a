/**
 * The node store (internal/node/store.go): nodes keyed by name, listed in
 * name order with an age and usage percentages, looked up by name for the
 * detail view.
 *
 * The CPU and memory figures are float64 in Go; here they are `real`, so the
 * percentage is computed exactly where Go would round each operation.
 */
module Nodes {
  import opened Wrappers
  import opened Text
  import opened Sorting
  import opened Clock
  import opened Maps

  datatype Error = NotFound

  type StringMap = map<string, string>

  datatype UsageMetric = UsageMetric(used: real, capacity: real, unit: string, percentage: real)

  datatype PodSummary = PodSummary(running: int, pending: int, capacity: int)

  datatype Condition = Condition(conditionType: string, status: string, message: string,
                                 lastHeartbeat: string, lastTransition: string)

  datatype Summary = Summary(name: string, status: string, roles: seq<string>, age: string,
                             kubeletVersion: string, cpu: UsageMetric, memory: UsageMetric, pods: PodSummary)

  datatype Detail = Detail(summary: Summary, architecture: string, osImage: string, kernelVersion: string,
                           containerRuntime: string, labels: StringMap, taints: seq<string>,
                           conditions: seq<Condition>)

  datatype ConditionRecord = ConditionRecord(conditionType: string, status: string, message: string,
                                             lastHeartbeat: Instant, lastTransition: Instant)

  datatype Record = Record(
    name: string, status: string, roles: seq<string>, createdAt: Instant, kubeletVersion: string,
    cpuUsed: real, cpuCapacity: real, memoryUsed: real, memoryCapacity: real,
    podRunning: int, podPending: int, podCapacity: int,
    architecture: string, osImage: string, kernelVersion: string, containerRuntime: string,
    labels: StringMap, taints: seq<string>, conditions: seq<ConditionRecord>)

  // ---------------------------------------------------------------------------
  // Percentages
  // ---------------------------------------------------------------------------

  /** 10 to the power `power`, 1 for a power of zero or less. */
  function Pow10(power: int): (r: real)
    ensures r >= 1.0
    decreases if power > 0 then power else 0
  {
    if power <= 0 then 1.0 else 10.0 * Pow10(power - 1)
  }

  /** mathPow10: multiplies by ten once per unit of the power. */
  method MathPow10(power: int) returns (result: real)
    ensures result == Pow10(power)
  {
    result := 1.0;
    var p := power;
    while p > 0
      invariant result * Pow10(p) == Pow10(power)
      decreases p
    {
      result := result * 10.0;
      p := p - 1;
    }
  }

  /** Conversion to int64: truncation toward zero. */
  function Trunc(x: real): int {
    if x >= 0.0 then x.Floor else -((-x).Floor)
  }

  /** round: add a half unit of the last decimal and truncate. */
  function Round(value: real, decimals: int): real {
    var base := Pow10(decimals);
    (Trunc(value * base + 0.5) as real) / base
  }

  /**
   * percentage: zero for a non-positive capacity, otherwise used/capacity as
   * a percentage clamped to 0..100 and rounded to one decimal.
   */
  function Percentage(used: real, capacity: real): (p: real)
    ensures 0.0 <= p <= 100.0
    ensures capacity <= 0.0 ==> p == 0.0
    ensures capacity > 0.0 && used / capacity * 100.0 < 0.0 ==> p == 0.0
    ensures capacity > 0.0 && used / capacity * 100.0 > 100.0 ==> p == 100.0
    ensures capacity > 0.0 && 0.0 <= used / capacity * 100.0 <= 100.0 ==>
              -0.05 < p - used / capacity * 100.0 <= 0.05
  {
    if capacity <= 0.0 then 0.0
    else
      var pct := used / capacity * 100.0;
      if pct < 0.0 then 0.0
      else if pct > 100.0 then 100.0
      else
        RoundOneDecimal(pct);
        Round(pct, 1)
  }

  /** Rounding a percentage to one decimal stays in 0..100 and moves it by at most a twentieth. */
  lemma RoundOneDecimal(pct: real)
    requires 0.0 <= pct <= 100.0
    ensures 0.0 <= Round(pct, 1) <= 100.0
    ensures -0.05 < Round(pct, 1) - pct <= 0.05
  {
    assert Pow10(1) == 10.0;
    var f := (pct * 10.0 + 0.5).Floor;
    assert f as real <= pct * 10.0 + 0.5 < f as real + 1.0;
    assert 0 <= f <= 1000;
    assert Round(pct, 1) == f as real / 10.0;
  }

  // ---------------------------------------------------------------------------
  // Views
  // ---------------------------------------------------------------------------

  /** toSummary: the record's fields, its age for `now`, and usage in cores and GiB. */
  function SummaryOf(rec: Record, now: Instant): (s: Summary)
    ensures s.name == rec.name && s.status == rec.status && s.roles == rec.roles
    ensures s.kubeletVersion == rec.kubeletVersion && s.age == FormatAge(now - rec.createdAt)
    ensures s.pods == PodSummary(rec.podRunning, rec.podPending, rec.podCapacity)
    ensures s.cpu.unit == "cores" && s.memory.unit == "GiB"
    ensures 0.0 <= s.cpu.percentage <= 100.0 && 0.0 <= s.memory.percentage <= 100.0
  {
    Summary(rec.name, rec.status, rec.roles, FormatAge(now - rec.createdAt), rec.kubeletVersion,
            UsageMetric(rec.cpuUsed, rec.cpuCapacity, "cores", Percentage(rec.cpuUsed, rec.cpuCapacity)),
            UsageMetric(rec.memoryUsed, rec.memoryCapacity, "GiB", Percentage(rec.memoryUsed, rec.memoryCapacity)),
            PodSummary(rec.podRunning, rec.podPending, rec.podCapacity))
  }

  function ConvertCondition(c: ConditionRecord, fmt: Formatter): Condition {
    Condition(c.conditionType, c.status, c.message, fmt(c.lastHeartbeat), fmt(c.lastTransition))
  }

  /**
   * The detail view toDetail builds: the summary, the host facts, and every
   * condition with its type, status and message, and its two instants
   * formatted, in order.
   */
  function DetailOf(rec: Record, now: Instant, fmt: Formatter): (d: Detail)
    ensures d.summary == SummaryOf(rec, now)
    ensures d.labels == rec.labels && d.taints == rec.taints
    ensures |d.conditions| == |rec.conditions|
    ensures forall i :: 0 <= i < |rec.conditions| ==>
              d.conditions[i].conditionType == rec.conditions[i].conditionType
              && d.conditions[i].status == rec.conditions[i].status
              && d.conditions[i].message == rec.conditions[i].message
              && d.conditions[i].lastHeartbeat == fmt(rec.conditions[i].lastHeartbeat)
              && d.conditions[i].lastTransition == fmt(rec.conditions[i].lastTransition)
  {
    Detail(SummaryOf(rec, now), rec.architecture, rec.osImage, rec.kernelVersion, rec.containerRuntime,
           rec.labels, rec.taints,
           seq(|rec.conditions|, i requires 0 <= i < |rec.conditions| => ConvertCondition(rec.conditions[i], fmt)))
  }

  /**
   * toDetail: the summary plus the host facts; conditions converted one for
   * one in order, labels copied entry by entry, taints copied.
   */
  method ToDetail(rec: Record, now: Instant, fmt: Formatter) returns (d: Detail)
    ensures d == DetailOf(rec, now, fmt)
  {
    var summary := SummaryOf(rec, now);
    var conditions: seq<Condition> := [];
    for i := 0 to |rec.conditions|
      invariant |conditions| == i
      invariant forall j :: 0 <= j < i ==> conditions[j] == ConvertCondition(rec.conditions[j], fmt)
    {
      conditions := conditions + [ConvertCondition(rec.conditions[i], fmt)];
    }
    var labels: StringMap := map[];
    var todo := rec.labels.Keys;
    while todo != {}
      invariant todo <= rec.labels.Keys
      invariant labels.Keys == rec.labels.Keys - todo
      invariant forall k :: k in labels ==> labels[k] == rec.labels[k]
      decreases |todo|
    {
      var k :| k in todo;
      labels := labels[k := rec.labels[k]];
      todo := todo - {k};
    }
    d := Detail(summary, rec.architecture, rec.osImage, rec.kernelVersion, rec.containerRuntime,
                labels, rec.taints, conditions);
  }

  /** The order of List: by name. */
  predicate ByName(a: Summary, b: Summary) {
    LessEq(a.name, b.name)
  }

  // ---------------------------------------------------------------------------
  // Seed data
  // ---------------------------------------------------------------------------

  function Seed(now: Instant): seq<Record> {
    var base := now - 72 * Hour;
    [
      Record("node-1", "Ready", ["control-plane", "master"], base, "v1.28.3",
             6.5, 16.0, 48.0, 128.0, 45, 2, 110,
             "amd64", "Ubuntu 22.04 LTS", "5.15.0-78-generic", "containerd://1.7.8",
             map["kubernetes.io/hostname" := "node-1", "topology.kubernetes.io/zone" := "cn-shanghai-a"],
             ["node-role.kubernetes.io/control-plane:NoSchedule"],
             [ConditionRecord("Ready", "True", "Node is ready", now, base)]),
      Record("node-2", "Ready", ["worker"], base + 6 * Hour, "v1.28.3",
             9.0, 32.0, 72.0, 256.0, 68, 5, 150,
             "amd64", "Ubuntu 22.04 LTS", "5.15.0-78-generic", "containerd://1.7.8",
             map["kubernetes.io/hostname" := "node-2", "topology.kubernetes.io/zone" := "cn-shanghai-b",
                 "nodepool" := "blue"],
             [],
             [ConditionRecord("Ready", "True", "Node is ready", now, base + 2 * Hour),
              ConditionRecord("DiskPressure", "False", "No disk pressure", now - 10 * Minute, base + 12 * Hour)]),
      Record("node-3", "NotReady", ["worker"], base + 12 * Hour, "v1.28.3",
             2.0, 16.0, 24.0, 128.0, 12, 8, 110,
             "amd64", "Ubuntu 22.04 LTS", "5.15.0-78-generic", "containerd://1.7.8",
             map["kubernetes.io/hostname" := "node-3", "topology.kubernetes.io/zone" := "cn-shanghai-c",
                 "nodepool" := "green"],
             ["maintenance=true:NoSchedule"],
             [ConditionRecord("Ready", "False", "Kubelet stopped posting node status", now - 30 * Minute, now - 30 * Minute),
              ConditionRecord("NetworkUnavailable", "True", "Cilium agent not ready", now - 45 * Minute, now - 45 * Minute)])
    ]
  }

  // ---------------------------------------------------------------------------
  // The store
  // ---------------------------------------------------------------------------

  /** The two facts NewStore leaves behind: every seed node under its name, and nothing else. */
  predicate Seeded(items: map<string, Record>, now: Instant) {
    && (forall rec :: rec in Seed(now) ==> rec.name in items && items[rec.name] == rec)
    && (forall k :: k in items ==> items[k] in Seed(now))
  }

  class Store {
    var items: map<string, Record>

    /** Every node sits under its own name. */
    ghost predicate Valid()
      reads this
    {
      forall k :: k in items ==> items[k].name == k
    }

    /** NewStore: the three seed nodes. */
    constructor (now: Instant)
      ensures Valid()
      ensures |items| == |Seed(now)|
      ensures Seeded(items, now)
    {
      var m := Index(Seed(now), (rec: Record) => rec.name);
      items := m;
    }

    /** List: one summary per node, sorted by name. */
    method List(now: Instant) returns (r: seq<Summary>)
      requires Valid()
      ensures |r| == |items|
      ensures SortedBy(r, ByName)
      ensures Distinct(r)
      ensures forall k :: k in items ==> SummaryOf(items[k], now) in r
      ensures forall s :: s in r ==> exists k :: k in items && s == SummaryOf(items[k], now)
    {
      var view := (rec: Record) => SummaryOf(rec, now);
      var out, keys := Collect(items, view);
      CollectMembers(items, view, keys, out);
      CollectDistinct(items, view, (s: Summary) => s.name, keys, out);
      r := SortBy(out, ByName);
      KeyOrderTotal(ByName, (s: Summary) => s.name);
      SortBySorted(out, ByName);
      DistinctPermutation(out, r);
      assert forall s :: s in r <==> s in out by {
        forall s ensures s in r <==> s in out {
          assert s in r <==> s in multiset(r);
          assert s in out <==> s in multiset(out);
        }
      }
    }

    /** Get: NotFound for an absent name, otherwise the detail of the node under that name. */
    method Get(name: string, now: Instant, fmt: Formatter) returns (r: Result<Detail, Error>)
      requires Valid()
      ensures name !in items <==> r == Failure(NotFound)
      ensures name in items ==> r == Success(DetailOf(items[name], now, fmt)) && r.value.summary.name == name
    {
      if name !in items {
        return Failure(NotFound);
      }
      var d := ToDetail(items[name], now, fmt);
      return Success(d);
    }
  }

  /** The seed node-2 reports two conditions, the first of them Ready. */
  lemma SeedNodeTwo(now: Instant, rec: Record)
    requires rec in Seed(now) && rec.name == "node-2"
    ensures |rec.conditions| == 2 && rec.conditions[0].conditionType == "Ready"
  {
  }

  /** The seed names its nodes node-1, node-2 and node-3 and nothing else. */
  lemma SeedNames(now: Instant, rec: Record)
    requires rec in Seed(now)
    ensures rec.name in {"node-1", "node-2", "node-3"}
  {
  }

  /** A map of seed nodes under their names holds no other name. */
  lemma SeedNamesOnly(now: Instant, m: map<string, Record>, name: string)
    requires forall k :: k in m ==> m[k].name == k && m[k] in Seed(now)
    requires name !in {"node-1", "node-2", "node-3"}
    ensures name !in m
  {
    if name in m {
      SeedNames(now, m[name]);
    }
  }

  /**
   * The Go test's lookups: node-2 has conditions, the first with a heartbeat
   * timestamp (given a timestamp format that never yields the empty text, as
   * RFC 3339 does not), and "missing" is not found.
   */
  method GetScenario(t0: Instant, fmt: Formatter)
    requires forall t :: fmt(t) != ""
  {
    var store := new Store(t0);
    assert Seed(t0)[1].name == "node-2";
    var found := store.Get("node-2", t0, fmt);
    assert found.Success? && found.value.summary.name == "node-2";
    SeedNodeTwo(t0, store.items["node-2"]);
    assert |found.value.conditions| == 2 && found.value.conditions[0].lastHeartbeat != "";
    var missing := store.Get("missing", t0, fmt);
    SeedNamesOnly(t0, store.items, "missing");
    assert missing == Failure(NotFound);
  }

  /** A store filled from the seed holds the three seed nodes and no other. */
  lemma SeedStoreNames(now: Instant, items: map<string, Record>)
    requires Seeded(items, now) && |items| == |Seed(now)|
    requires forall k :: k in items ==> items[k].name == k
    ensures items.Keys == {"node-1", "node-2", "node-3"} && |items| == 3
  {
    var seed := Seed(now);
    assert seed[0] in seed && seed[1] in seed && seed[2] in seed;
    forall k | k in items ensures k in {"node-1", "node-2", "node-3"} {
      SeedNames(now, items[k]);
    }
    assert items.Keys == {"node-1", "node-2", "node-3"};
  }

  /** In a list sorted by name whose names are node-1, node-2 or node-3, node-1 comes first if it is there. */
  lemma NodeOneFirst(r: seq<Summary>, j: nat)
    requires SortedBy(r, ByName)
    requires forall s :: s in r ==> s.name in {"node-1", "node-2", "node-3"}
    requires j < |r| && r[j].name == "node-1"
    ensures r[0].name == "node-1"
  {
    if j > 0 {
      assert ByName(r[0], r[j]);
      assert r[0] in r;
      NodeOneLeast();
    }
  }

  /** A list of summaries of nodes named node-1, node-2 and node-3 shows no other name. */
  lemma ListedNames(now: Instant, items: map<string, Record>, r: seq<Summary>)
    requires items.Keys == {"node-1", "node-2", "node-3"}
    requires forall k :: k in items ==> items[k].name == k
    requires forall s :: s in r ==> exists k :: k in items && s == SummaryOf(items[k], now)
    ensures forall s :: s in r ==> s.name in {"node-1", "node-2", "node-3"}
  {
  }

  /** node-1 sorts before node-2 and node-3: the names first differ in their last character. */
  lemma NodeOneLeast()
    ensures Less("node-1", "node-2") && Less("node-1", "node-3")
  {
    assert "node-1"[5..] == "1" && "node-2"[5..] == "2" && "node-3"[5..] == "3";
  }

  /** Every seed node has room for pods. */
  lemma SeedCapacities(now: Instant, items: map<string, Record>)
    requires Seeded(items, now)
    ensures forall k :: k in items ==> items[k].podCapacity > 0
  {
  }

  /** Every summary List returns for nodes with room for pods reports CPU in cores and a positive pod capacity. */
  lemma ListedMetrics(now: Instant, items: map<string, Record>, r: seq<Summary>)
    requires forall k :: k in items ==> items[k].podCapacity > 0
    requires forall s :: s in r ==> exists k :: k in items && s == SummaryOf(items[k], now)
    ensures forall s :: s in r ==> s.cpu.unit == "cores" && s.pods.capacity > 0
  {
    forall s | s in r ensures s.cpu.unit == "cores" && s.pods.capacity > 0 {
      var k :| k in items && s == SummaryOf(items[k], now);
    }
  }

  /** What List shows for the seed nodes: three summaries, node-1 among them, each with CPU in cores and room for pods. */
  lemma SeedListed(now: Instant, items: map<string, Record>, r: seq<Summary>)
    requires items.Keys == {"node-1", "node-2", "node-3"} && |items| == 3
    requires forall k :: k in items ==> items[k].name == k && items[k].podCapacity > 0
    requires |r| == |items|
    requires forall k :: k in items ==> SummaryOf(items[k], now) in r
    requires forall s :: s in r ==> exists k :: k in items && s == SummaryOf(items[k], now)
    ensures |r| == 3 && exists j :: 0 <= j < |r| && r[j].name == "node-1"
    ensures forall s :: s in r ==> s.name in {"node-1", "node-2", "node-3"}
    ensures forall s :: s in r ==> s.cpu.unit == "cores" && s.pods.capacity > 0
  {
    ListedNames(now, items, r);
    ListedMetrics(now, items, r);
    assert SummaryOf(items["node-1"], now) in r;
  }

  /** The Go test's listing: three nodes, node-1 first with CPU in cores, the second with pod capacity. */
  method ListScenario(t0: Instant)
  {
    var store := new Store(t0);
    var r := store.List(t0);
    SeedStoreNames(t0, store.items);
    SeedCapacities(t0, store.items);
    SeedListed(t0, store.items, r);
    var j :| 0 <= j < |r| && r[j].name == "node-1";
    NodeOneFirst(r, j);
    assert r[0] in r && r[1] in r;
    assert |r| == 3 && r[0].name == "node-1" && r[0].cpu.unit == "cores" && r[1].pods.capacity > 0;
  }
}
