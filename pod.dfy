/**
 * The pod store (internal/pod/store.go): pods keyed by "namespace/name",
 * listed by namespace then name, and looked up by bare name for the detail
 * view with containers, log lines and events.
 */
module Pods {
  import opened Wrappers
  import opened Text
  import opened Sorting
  import opened Clock
  import opened Maps

  datatype Error = NotFound

  datatype Summary = Summary(name: string, namespace: string, status: string, readyContainers: string,
                             restarts: int, age: string, node: string, images: seq<string>)

  datatype Container = Container(name: string, image: string, ready: bool, restartCount: int)

  datatype Event = Event(eventType: string, reason: string, message: string, timestamp: string)

  datatype Detail = Detail(summary: Summary, containers: seq<Container>, logs: seq<string>, events: seq<Event>)

  datatype Record = Record(summary: Summary, createdAt: Instant, containers: seq<Container>,
                           events: seq<Event>, logs: seq<string>)

  /** key: namespace and name joined by a slash. */
  function Key(namespace: string, name: string): string {
    namespace + "/" + name
  }

  function KeyOf(rec: Record): string {
    Key(rec.summary.namespace, rec.summary.name)
  }

  /** decorateSummary: the summary with its age for `now`; nothing else changes. */
  function DecorateSummary(sum: Summary, createdAt: Instant, now: Instant): (r: Summary)
    ensures r.(age := sum.age) == sum
    ensures r.age == FormatAge(now - createdAt)
  {
    sum.(age := FormatAge(now - createdAt))
  }

  /** One event as decorateEvents leaves it: an empty timestamp is filled with `stamp`, nothing else changes. */
  function DecorateEvent(ev: Event, stamp: string): (r: Event)
    ensures r.(timestamp := ev.timestamp) == ev
    ensures ev.timestamp != "" ==> r == ev
    ensures ev.timestamp == "" ==> r.timestamp == stamp
  {
    if ev.timestamp == "" then ev.(timestamp := stamp) else ev
  }

  /** The events as decorateEvents returns them. */
  function DecoratedEvents(events: seq<Event>, stamp: string): (r: seq<Event>)
    ensures |r| == |events| && forall i :: 0 <= i < |events| ==> r[i] == DecorateEvent(events[i], stamp)
  {
    seq(|events|, i requires 0 <= i < |events| => DecorateEvent(events[i], stamp))
  }

  /**
   * decorateEvents: the same events in the same order; an event without a
   * timestamp gets the formatted `now`, every other event is unchanged.
   */
  method DecorateEvents(events: seq<Event>, now: Instant, fmt: Formatter) returns (out: seq<Event>)
    ensures out == DecoratedEvents(events, fmt(now))
    ensures |out| == |events|
    ensures forall i :: 0 <= i < |events| ==>
              out[i].(timestamp := events[i].timestamp) == events[i]
              && (events[i].timestamp == "" ==> out[i].timestamp == fmt(now))
              && (events[i].timestamp != "" ==> out[i] == events[i])
  {
    out := [];
    for i := 0 to |events|
      invariant |out| == i
      invariant forall j :: 0 <= j < i ==> out[j] == DecorateEvent(events[j], fmt(now))
    {
      var item := events[i];
      if item.timestamp == "" {
        item := item.(timestamp := fmt(now));
      }
      out := out + [item];
    }
  }

  /** Decorating twice is decorating once, and with a non-empty stamp no event is left without a timestamp. */
  lemma DecoratedEventsIdempotent(events: seq<Event>, stamp: string)
    ensures DecoratedEvents(DecoratedEvents(events, stamp), stamp) == DecoratedEvents(events, stamp)
    ensures stamp != "" ==> forall ev :: ev in DecoratedEvents(events, stamp) ==> ev.timestamp != ""
  {
    var once := DecoratedEvents(events, stamp);
    var twice := DecoratedEvents(once, stamp);
    assert |twice| == |once|;
    forall i | 0 <= i < |once| ensures twice[i] == once[i] {
    }
  }

  /**
   * The detail Get returns for a record: the decorated summary, the
   * containers and log lines as stored, and one event per stored event, all
   * of them timestamped when the formatted `now` is not empty.
   */
  function DetailOf(rec: Record, now: Instant, fmt: Formatter): (d: Detail)
    ensures d.summary == DecorateSummary(rec.summary, rec.createdAt, now)
    ensures d.containers == rec.containers && d.logs == rec.logs
    ensures |d.events| == |rec.events|
    ensures fmt(now) != "" ==> forall ev :: ev in d.events ==> ev.timestamp != ""
  {
    DecoratedEventsIdempotent(rec.events, fmt(now));
    Detail(DecorateSummary(rec.summary, rec.createdAt, now), rec.containers, rec.logs,
           DecoratedEvents(rec.events, fmt(now)))
  }

  /** The order of List: by namespace, then by name. */
  predicate ByNamespaceName(a: Summary, b: Summary) {
    LessEqPair(a.namespace, a.name, b.namespace, b.name)
  }

  ghost predicate HasName(items: map<string, Record>, name: string) {
    exists k :: k in items && items[k].summary.name == name
  }

  // ---------------------------------------------------------------------------
  // Seed data
  // ---------------------------------------------------------------------------

  function Seed(now: Instant): seq<Record> {
    var base := now - 6 * Hour;
    [
      Record(Summary("frontend-7d8fdc9f7c-abc12", "default", "Running", "2/2", 1, "", "node-2",
                     ["nginx:1.25", "busybox:1.36"]),
             base,
             [Container("frontend", "nginx:1.25", true, 1), Container("sidecar", "busybox:1.36", true, 0)],
             [Event("Normal", "Pulled", "Successfully pulled image nginx:1.25", ""),
              Event("Normal", "Started", "Started container frontend", "")],
             ["[INFO] 10:15:01 request handled /", "[INFO] 10:15:02 request handled /healthz",
              "[WARN] 10:16:12 upstream latency 240ms"]),
      Record(Summary("backend-76c4d5f6d6-xyz89", "prod", "Running", "1/1", 0, "", "node-3", ["golang:1.21"]),
             base - 2 * Hour,
             [Container("backend", "golang:1.21", true, 0)],
             [Event("Normal", "ScalingReplicaSet", "Scaled up replica set backend-76c4d5f6d6 to 3", "")],
             ["[INFO] 09:10:04 processed job 2384", "[INFO] 09:12:51 processed job 2385",
              "[INFO] 09:15:13 cache warmup complete"]),
      Record(Summary("jobs-runner-bb7d67f4f6-123zt", "batch", "Pending", "0/1", 0, "", "", ["python:3.12"]),
             base - 30 * Minute,
             [Container("worker", "python:3.12", false, 0)],
             [Event("Warning", "FailedScheduling", "0/3 nodes available: insufficient memory.", "")],
             ["[INFO] job queued"])
    ]
  }

  /** The seed keys are distinct. */
  lemma SeedKeysDistinct(now: Instant)
    ensures forall j, l :: 0 <= j < l < |Seed(now)| ==> KeyOf(Seed(now)[j]) != KeyOf(Seed(now)[l])
  {
    var s := Seed(now);
    assert KeyOf(s[0])[0] == 'd' && KeyOf(s[1])[0] == 'p' && KeyOf(s[2])[0] == 'b';
  }

  // ---------------------------------------------------------------------------
  // The store
  // ---------------------------------------------------------------------------

  /** The map NewStore builds: every seed pod under its key, and nothing else. */
  predicate Seeded(items: map<string, Record>, now: Instant) {
    && (forall rec :: rec in Seed(now) ==> KeyOf(rec) in items && items[KeyOf(rec)] == rec)
    && (forall k :: k in items ==> items[k] in Seed(now))
  }

  class Store {
    var items: map<string, Record>

    /** Every pod sits under its own key. */
    ghost predicate Valid()
      reads this
    {
      forall k :: k in items ==> k == KeyOf(items[k])
    }

    /** NewStore: the three seed pods. */
    constructor (now: Instant)
      ensures Valid()
      ensures |items| == |Seed(now)|
      ensures Seeded(items, now)
    {
      SeedKeysDistinct(now);
      var m := Index(Seed(now), KeyOf);
      items := m;
    }

    /** List: one decorated summary per pod, sorted by namespace then name. */
    method List(now: Instant) returns (r: seq<Summary>)
      requires Valid()
      ensures |r| == |items|
      ensures SortedBy(r, ByNamespaceName)
      ensures Distinct(r)
      ensures forall k :: k in items ==> DecorateSummary(items[k].summary, items[k].createdAt, now) in r
      ensures forall s :: s in r ==> exists k :: k in items && s == DecorateSummary(items[k].summary, items[k].createdAt, now)
    {
      var view := (rec: Record) => DecorateSummary(rec.summary, rec.createdAt, now);
      var out, keys := Collect(items, view);
      CollectMembers(items, view, keys, out);
      CollectDistinct(items, view, (s: Summary) => Key(s.namespace, s.name), keys, out);
      r := SortBy(out, ByNamespaceName);
      PairOrderTotal(ByNamespaceName, (s: Summary) => s.namespace, (s: Summary) => s.name);
      SortBySorted(out, ByNamespaceName);
      DistinctPermutation(out, r);
      assert forall s :: s in r <==> s in out by {
        forall s ensures s in r <==> s in out {
          assert s in r <==> s in multiset(r);
          assert s in out <==> s in multiset(out);
        }
      }
    }

    /**
     * Get: scans the pods for one with this name, whatever its namespace,
     * and returns its detail; NotFound when no pod has the name.
     */
    method Get(name: string, now: Instant, fmt: Formatter) returns (r: Result<Detail, Error>)
      ensures r.Failure? <==> !HasName(items, name)
      ensures r.Failure? ==> r.error == NotFound
      ensures r.Success? ==> exists k :: k in items && items[k].summary.name == name
                                         && r.value == DetailOf(items[k], now, fmt)
      ensures r.Success? ==> r.value.summary.name == name
    {
      var todo := items.Keys;
      while todo != {}
        invariant todo <= items.Keys
        invariant forall k :: k in items && k !in todo ==> items[k].summary.name != name
        decreases |todo|
      {
        var k :| k in todo;
        var rec := items[k];
        if rec.summary.name == name {
          var summary := DecorateSummary(rec.summary, rec.createdAt, now);
          var events := DecorateEvents(rec.events, now, fmt);
          return Success(Detail(summary, rec.containers, rec.logs, events));
        }
        todo := todo - {k};
      }
      return Failure(NotFound);
    }
  }

  /** The seed's frontend pod: namespace default, two containers, some log lines. */
  lemma SeedFrontend(now: Instant, rec: Record)
    requires rec in Seed(now) && rec.summary.name == "frontend-7d8fdc9f7c-abc12"
    ensures rec.summary.namespace == "default" && |rec.containers| == 2 && |rec.logs| > 0
  {
  }

  /** The seed uses three namespaces, batch the smallest. */
  lemma SeedNamespaces(now: Instant, rec: Record)
    requires rec in Seed(now)
    ensures rec.summary.namespace in {"batch", "default", "prod"}
    ensures rec.summary.name != "missing"
  {
  }

  /** In a list sorted by namespace whose namespaces are batch, default or prod, a batch entry comes first if there is one. */
  lemma BatchFirst(r: seq<Summary>, j: nat)
    requires SortedBy(r, ByNamespaceName)
    requires forall s :: s in r ==> s.namespace in {"batch", "default", "prod"}
    requires j < |r| && r[j].namespace == "batch"
    ensures r[0].namespace == "batch"
  {
    if j > 0 {
      assert ByNamespaceName(r[0], r[j]);
      assert r[0] in r;
      assert Less("batch", "default") && Less("batch", "prod");
    }
  }

  /** The Go test's lookups: the frontend pod is found with its containers and logs; "missing" is not. */
  method GetScenario(t0: Instant, fmt: Formatter)
  {
    var store := new Store(t0);
    var front := Seed(t0)[0];
    assert KeyOf(front) in store.items;
    var found := store.Get("frontend-7d8fdc9f7c-abc12", t0, fmt);
    assert found.Success?;
    var k :| k in store.items && store.items[k].summary.name == "frontend-7d8fdc9f7c-abc12"
             && found.value == DetailOf(store.items[k], t0, fmt);
    SeedFrontend(t0, store.items[k]);
    assert found.value.summary.namespace == "default";
    assert |found.value.containers| == 2 && |found.value.logs| > 0;

    var missing := store.Get("missing", t0, fmt);
    assert !HasName(store.items, "missing") by {
      forall k' | k' in store.items ensures store.items[k'].summary.name != "missing" {
        SeedNamespaces(t0, store.items[k']);
      }
    }
    assert missing == Failure(NotFound);
  }

  /** Listing the seed map, as List promises to, puts a batch pod first. */
  lemma SeedListBatchFirst(now: Instant, items: map<string, Record>, r: seq<Summary>)
    requires Seeded(items, now)
    requires SortedBy(r, ByNamespaceName)
    requires forall k :: k in items ==> DecorateSummary(items[k].summary, items[k].createdAt, now) in r
    requires forall s :: s in r ==> exists k :: k in items && s == DecorateSummary(items[k].summary, items[k].createdAt, now)
    ensures |r| > 0 && r[0].namespace == "batch"
  {
    var batch := Seed(now)[2];
    assert KeyOf(batch) in items;
    var s := DecorateSummary(batch.summary, batch.createdAt, now);
    assert s in r;
    var j :| 0 <= j < |r| && r[j] == s;
    forall x | x in r ensures x.namespace in {"batch", "default", "prod"} {
      var k :| k in items && x == DecorateSummary(items[k].summary, items[k].createdAt, now);
      SeedNamespaces(now, items[k]);
    }
    BatchFirst(r, j);
  }

  /** Every summary List returns shows an age. */
  lemma ListedAges(now: Instant, items: map<string, Record>, r: seq<Summary>)
    requires forall s :: s in r ==> exists k :: k in items && s == DecorateSummary(items[k].summary, items[k].createdAt, now)
    ensures forall s :: s in r ==> s.age != ""
  {
    forall s | s in r ensures s.age != "" {
      var k :| k in items && s == DecorateSummary(items[k].summary, items[k].createdAt, now);
    }
  }

  /** The Go test's listing: three pods, a batch one first. */
  method ListScenario(t0: Instant)
  {
    var store := new Store(t0);
    var r := store.List(t0);
    SeedListBatchFirst(t0, store.items, r);
    ListedAges(t0, store.items, r);
    assert |r| == 3 && r[0].namespace == "batch" && r[0].age != "";
  }
}
