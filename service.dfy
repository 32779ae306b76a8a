/**
 * The service store (internal/service/store.go): services keyed by their
 * bare name, listed by namespace then name, with a detail view that adds the
 * selector, endpoints, related pods and creation time.
 */
module Services {
  import opened Wrappers
  import opened Text
  import opened Sorting
  import opened Clock
  import opened Maps

  datatype Error = NotFound

  type StringMap = map<string, string>

  /** A port mapping; the node port is optional (a nil pointer in Go). */
  datatype Port = Port(name: string, protocol: string, port: int, targetPort: int, nodePort: Option<int>)

  datatype RelatedPod = RelatedPod(name: string, namespace: string, status: string, node: string)

  datatype Summary = Summary(name: string, namespace: string, serviceType: string, clusterIP: string,
                             externalIPs: seq<string>, ports: seq<Port>, status: string, age: string)

  datatype Detail = Detail(summary: Summary, selector: StringMap, endpoints: seq<string>,
                           relatedPods: seq<RelatedPod>, createdAt: string, description: string)

  datatype Record = Record(summary: Summary, createdAt: Instant, selector: StringMap,
                           endpoints: seq<string>, relatedPods: seq<RelatedPod>, description: string)

  /** The zero Port that `make` fills a fresh slice with. */
  const ZeroPort := Port("", "", 0, 0, None)

  /**
   * copyPorts: a fresh slice of the same length whose every slot holds the
   * corresponding port, its node port (when present) copied by value.
   */
  method CopyPorts(ports: seq<Port>) returns (out: seq<Port>)
    ensures |out| == |ports|
    ensures forall i :: 0 <= i < |ports| ==>
              && out[i].name == ports[i].name && out[i].protocol == ports[i].protocol
              && out[i].port == ports[i].port && out[i].targetPort == ports[i].targetPort
              && (out[i].nodePort.Some? <==> ports[i].nodePort.Some?)
              && (ports[i].nodePort.Some? ==> out[i].nodePort.value == ports[i].nodePort.value)
    ensures out == ports
  {
    var a := new Port[|ports|](_ => ZeroPort);
    for i := 0 to |ports|
      invariant forall j :: 0 <= j < i ==> a[j] == ports[j]
    {
      var p := ports[i];
      var item := p;
      if p.nodePort.Some? {
        var np := p.nodePort.value;
        item := item.(nodePort := Some(np));
      }
      a[i] := item;
    }
    out := a[..];
  }

  /** copyMap: always a map (never nil) holding exactly the entries of `src`. */
  method CopyMap(src: StringMap) returns (dst: StringMap)
    ensures dst.Keys == src.Keys
    ensures forall k :: k in src ==> dst[k] == src[k]
    ensures dst == src
  {
    if |src| == 0 {
      return map[];
    }
    dst := map[];
    var todo := src.Keys;
    while todo != {}
      invariant todo <= src.Keys
      invariant dst.Keys == src.Keys - todo
      invariant forall k :: k in dst ==> dst[k] == src[k]
      decreases |todo|
    {
      var k :| k in todo;
      dst := dst[k := src[k]];
      todo := todo - {k};
    }
  }

  /** The summary decorateSummary returns: the age for `now`; everything else keeps its content. */
  function DecorateSummary(sum: Summary, createdAt: Instant, now: Instant): (r: Summary)
    ensures r.(age := sum.age) == sum
    ensures r.age == FormatAge(now - createdAt)
  {
    sum.(age := FormatAge(now - createdAt))
  }

  /** decorateSummary: copies the external IPs and the ports, and sets the age. */
  method Decorate(sum: Summary, createdAt: Instant, now: Instant) returns (out: Summary)
    ensures out == DecorateSummary(sum, createdAt, now)
  {
    out := sum;
    out := out.(age := FormatAge(now - createdAt));
    var ips := [] + sum.externalIPs;
    out := out.(externalIPs := ips);
    var ports := CopyPorts(sum.ports);
    out := out.(ports := ports);
  }

  /** The detail Get returns for a record. */
  function DetailOf(rec: Record, now: Instant, fmt: Formatter): (d: Detail)
    ensures d.summary == DecorateSummary(rec.summary, rec.createdAt, now)
    ensures d.selector == rec.selector && d.endpoints == rec.endpoints && d.relatedPods == rec.relatedPods
    ensures d.createdAt == fmt(rec.createdAt) && d.description == rec.description
  {
    Detail(DecorateSummary(rec.summary, rec.createdAt, now), rec.selector, rec.endpoints,
           rec.relatedPods, fmt(rec.createdAt), rec.description)
  }

  /** The order of List: by namespace, then by name. */
  predicate ByNamespaceName(a: Summary, b: Summary) {
    LessEqPair(a.namespace, a.name, b.namespace, b.name)
  }

  /** In a list sorted by namespace, an entry with a smaller namespace sits at a smaller index. */
  lemma SortedByNamespace(r: seq<Summary>, i: nat, j: nat)
    requires SortedBy(r, ByNamespaceName) && i < |r| && j < |r|
    requires Less(r[i].namespace, r[j].namespace)
    ensures i < j
  {
    LessIrreflexive(r[i].namespace);
    LessAsymmetric(r[i].namespace, r[j].namespace);
    assert j < i ==> ByNamespaceName(r[j], r[i]);
  }

  /**
   * In a sorted list of three entries, three members of strictly increasing
   * namespaces appear in that order.
   */
  lemma SortedThree(r: seq<Summary>, a: Summary, b: Summary, c: Summary)
    requires SortedBy(r, ByNamespaceName) && |r| == 3
    requires a in r && b in r && c in r
    requires Less(a.namespace, b.namespace) && Less(b.namespace, c.namespace)
    ensures r == [a, b, c]
  {
    var ia :| 0 <= ia < 3 && r[ia] == a;
    var ib :| 0 <= ib < 3 && r[ib] == b;
    var ic :| 0 <= ic < 3 && r[ic] == c;
    SortedByNamespace(r, ia, ib);
    SortedByNamespace(r, ib, ic);
  }

  // ---------------------------------------------------------------------------
  // Seed data
  // ---------------------------------------------------------------------------

  function Seed(now: Instant): seq<Record> {
    var base := now - 48 * Hour;
    [
      Record(Summary("frontend", "default", "ClusterIP", "10.96.10.21", [],
                     [Port("http", "TCP", 80, 8080, None), Port("metrics", "TCP", 9000, 9000, None)],
                     "Active", ""),
             base,
             map["app" := "frontend", "tier" := "web"],
             ["10.0.0.11:8080", "10.0.0.12:8080"],
             [RelatedPod("frontend-7d8fdc9f7c-abc12", "default", "Running", "node-2"),
              RelatedPod("frontend-7d8fdc9f7c-def34", "default", "Running", "node-3")],
             "核心入口流量的前端服务"),
      Record(Summary("edge-gateway", "prod", "LoadBalancer", "10.96.20.5", ["203.0.113.24"],
                     [Port("http", "TCP", 80, 8080, Some(30080)), Port("https", "TCP", 443, 8443, Some(30443))],
                     "Pending", ""),
             base + 12 * Hour,
             map["app" := "edge-gateway", "component" := "ingress"],
             ["34.87.18.4:80", "34.87.18.4:443"],
             [RelatedPod("edge-gateway-7d8fdc9f7c-9012a", "prod", "Running", "node-1"),
              RelatedPod("edge-gateway-7d8fdc9f7c-9012b", "prod", "Pending", "")],
             "对外暴露的流量入口，等待负载均衡器分配公网 IP"),
      Record(Summary("batch-metrics", "batch", "NodePort", "10.96.35.42", [],
                     [Port("http", "TCP", 8080, 8080, Some(32045))],
                     "Active", ""),
             base + 30 * Hour,
             map["job" := "metrics"],
             ["10.0.12.5:8080"],
             [RelatedPod("batch-metrics-7c5d6f6b4d-xk9p2", "batch", "Running", "node-2")],
             "批处理作业指标对接 Prometheus 的临时 NodePort 服务")
    ]
  }

  /** The seed names are distinct. */
  lemma SeedNamesDistinct(now: Instant)
    ensures forall j, l :: 0 <= j < l < |Seed(now)| ==> Seed(now)[j].summary.name != Seed(now)[l].summary.name
  {
    var s := Seed(now);
    assert s[0].summary.name[0] == 'f' && s[1].summary.name[0] == 'e' && s[2].summary.name[0] == 'b';
  }

  // ---------------------------------------------------------------------------
  // The store
  // ---------------------------------------------------------------------------

  class Store {
    var items: map<string, Record>

    /** Every service sits under its own name. */
    ghost predicate Valid()
      reads this
    {
      forall k :: k in items ==> k == items[k].summary.name
    }

    /** NewStore: the three seed services. */
    constructor (now: Instant)
      ensures Valid()
      ensures |items| == |Seed(now)|
      ensures forall rec :: rec in Seed(now) ==> rec.summary.name in items && items[rec.summary.name] == rec
      ensures forall k :: k in items ==> items[k] in Seed(now)
    {
      SeedNamesDistinct(now);
      var m := Index(Seed(now), (rec: Record) => rec.summary.name);
      items := m;
    }

    /** List: one decorated summary per service, sorted by namespace then name. */
    method List(now: Instant) returns (r: seq<Summary>)
      requires Valid()
      ensures |r| == |items|
      ensures SortedBy(r, ByNamespaceName)
      ensures Distinct(r)
      ensures forall k :: k in items ==> DecorateSummary(items[k].summary, items[k].createdAt, now) in r
      ensures forall s :: s in r ==> exists k :: k in items && s == DecorateSummary(items[k].summary, items[k].createdAt, now)
    {
      var view := (rec: Record) => DecorateSummary(rec.summary, rec.createdAt, now);
      var out, keys := Collect(items, view);
      CollectMembers(items, view, keys, out);
      CollectDistinct(items, view, (s: Summary) => s.name, keys, out);
      r := SortBy(out, ByNamespaceName);
      PairOrderTotal(ByNamespaceName, (s: Summary) => s.namespace, (s: Summary) => s.name);
      SortBySorted(out, ByNamespaceName);
      DistinctPermutation(out, r);
      assert forall s :: s in r <==> s in out by {
        forall s ensures s in r <==> s in out {
          assert s in r <==> s in multiset(r);
          assert s in out <==> s in multiset(out);
        }
      }
    }

    /** Get: the detail of the service with this name; NotFound when there is none. */
    method Get(name: string, now: Instant, fmt: Formatter) returns (r: Result<Detail, Error>)
      requires Valid()
      ensures name !in items <==> r == Failure(NotFound)
      ensures name in items ==> r == Success(DetailOf(items[name], now, fmt))
      ensures r.Success? ==> r.value.summary.name == name
    {
      if name in items {
        var rec := items[name];
        var summary := Decorate(rec.summary, rec.createdAt, now);
        var selector := CopyMap(rec.selector);
        var endpoints := [] + rec.endpoints;
        var related := [] + rec.relatedPods;
        assert endpoints == rec.endpoints && related == rec.relatedPods;
        return Success(Detail(summary, selector, endpoints, related, fmt(rec.createdAt), rec.description));
      }
      return Failure(NotFound);
    }
  }

  /** The seed's edge gateway: pending, selected by app=edge-gateway, with endpoints, created 36 hours before `now`. */
  lemma SeedEdgeGateway(now: Instant, rec: Record)
    requires rec in Seed(now) && rec.summary.name == "edge-gateway"
    ensures rec.summary.status == "Pending"
    ensures "app" in rec.selector && rec.selector["app"] == "edge-gateway"
    ensures |rec.endpoints| > 0
    ensures rec.createdAt == now - 36 * Hour
  {
  }

  /** The only seed names are frontend, edge-gateway and batch-metrics. */
  lemma SeedNames(now: Instant, rec: Record)
    requires rec in Seed(now)
    ensures rec.summary.name in {"frontend", "edge-gateway", "batch-metrics"}
  {
  }

  /** The Go test's lookups: edge-gateway is found pending, aged "1d12h"; "ghost" is not found. */
  method GetScenario(t0: Instant, fmt: Formatter)
  {
    var store := new Store(t0);
    var edge := Seed(t0)[1];
    assert edge.summary.name in store.items;
    var found := store.Get("edge-gateway", t0, fmt);
    SeedEdgeGateway(t0, store.items["edge-gateway"]);
    var d := found.value;
    assert d.summary.name == "edge-gateway" && d.summary.status == "Pending";
    assert d.selector["app"] == "edge-gateway" && |d.endpoints| > 0;
    assert d.createdAt == fmt(t0 - 36 * Hour);
    FormatAgeThirtySixHours();
    assert d.summary.age == "1d12h";

    var missing := store.Get("ghost", t0, fmt);
    if "ghost" in store.items {
      SeedNames(t0, store.items["ghost"]);
    }
    assert missing == Failure(NotFound);
  }

  /** A store built from the seed holds exactly the three seed services. */
  lemma SeedStoreSize(now: Instant, items: map<string, Record>)
    requires forall rec :: rec in Seed(now) ==> rec.summary.name in items && items[rec.summary.name] == rec
    requires forall k :: k in items ==> items[k] in Seed(now) && k == items[k].summary.name
    ensures |items| == 3
  {
    var seed := Seed(now);
    assert seed[0] in seed && seed[1] in seed && seed[2] in seed;
    forall k | k in items ensures k in {"frontend", "edge-gateway", "batch-metrics"} {
      SeedNames(now, items[k]);
    }
    assert items.Keys == {"frontend", "edge-gateway", "batch-metrics"};
  }

  /** What List shows for the seed: batch-metrics, then frontend, then edge-gateway. */
  lemma SeedListOrder(now: Instant, items: map<string, Record>, r: seq<Summary>)
    requires forall rec :: rec in Seed(now) ==> rec.summary.name in items && items[rec.summary.name] == rec
    requires forall k :: k in items ==> items[k] in Seed(now) && k == items[k].summary.name
    requires |r| == |items| && SortedBy(r, ByNamespaceName)
    requires forall k :: k in items ==> DecorateSummary(items[k].summary, items[k].createdAt, now) in r
    ensures |r| == 3
    ensures r[0].name == "batch-metrics" && r[0].namespace == "batch"
    ensures r[1].name == "frontend" && r[1].namespace == "default"
    ensures r[2].name == "edge-gateway" && r[2].namespace == "prod"
  {
    SeedStoreSize(now, items);
    var seed := Seed(now);
    assert seed[0] in seed && seed[1] in seed && seed[2] in seed;
    var front := DecorateSummary(seed[0].summary, seed[0].createdAt, now);
    var edge := DecorateSummary(seed[1].summary, seed[1].createdAt, now);
    var batch := DecorateSummary(seed[2].summary, seed[2].createdAt, now);
    assert front in r && edge in r && batch in r by {
      assert "frontend" in items && "edge-gateway" in items && "batch-metrics" in items;
    }
    assert Less("batch", "default") && Less("default", "prod");
    SortedThree(r, batch, front, edge);
  }

  /** Every summary List returns carries an age. */
  lemma ListedAges(now: Instant, items: map<string, Record>, r: seq<Summary>)
    requires forall s :: s in r ==> exists k :: k in items && s == DecorateSummary(items[k].summary, items[k].createdAt, now)
    ensures forall s :: s in r ==> s.age != ""
  {
    forall s | s in r ensures s.age != "" {
      var k :| k in items && s == DecorateSummary(items[k].summary, items[k].createdAt, now);
    }
  }

  /** The Go test's listing: batch-metrics, then frontend, then edge-gateway, each with an age. */
  method ListScenario(t0: Instant)
  {
    var store := new Store(t0);
    var r := store.List(t0);
    SeedListOrder(t0, store.items, r);
    ListedAges(t0, store.items, r);
    assert r[0].name == "batch-metrics" && r[1].name == "frontend" && r[2].name == "edge-gateway";
    assert r[0].age != "";
  }
}
