/**
 * The deployment store (internal/deploy/store.go): a map of deployment
 * records keyed by "namespace/name", listed sorted by namespace then name,
 * looked up by name, and scaled through the one bounded state transition of
 * the backend.
 */
module Deploy {
  import opened Wrappers
  import opened Text
  import opened Sorting
  import opened Clock
  import opened Maps

  /** Scale accepts replica counts in 0..MaxReplicas. */
  const MaxReplicas: int := 200

  datatype Error = NotFound | InvalidReplicas

  datatype Summary = Summary(
    name: string,
    namespace: string,
    readyReplicas: int,
    updatedReplicas: int,
    desiredReplicas: int,
    strategy: string,
    images: seq<string>,
    age: string,
    status: string)

  datatype Container = Container(name: string, image: string, ports: seq<int>)

  datatype Condition = Condition(
    conditionType: string,
    status: string,
    message: string,
    lastUpdate: string,
    lastTransition: string)

  datatype ConditionRecord = ConditionRecord(
    conditionType: string,
    status: string,
    message: string,
    lastUpdate: Instant,
    lastTransition: Instant)

  /** A Go map that may be nil: None is nil. */
  type StringMap = map<string, string>

  datatype Detail = Detail(
    summary: Summary,
    labels: Option<StringMap>,
    selector: Option<StringMap>,
    containers: seq<Container>,
    conditions: seq<Condition>,
    revision: int,
    lastUpdated: string)

  datatype Record = Record(
    summary: Summary,
    createdAt: Instant,
    revision: int,
    labels: StringMap,
    selector: StringMap,
    containers: seq<Container>,
    conditions: seq<ConditionRecord>,
    lastUpdate: Instant)

  function Key(namespace: string, name: string): string {
    namespace + "/" + name
  }

  function KeyOf(rec: Record): string {
    Key(rec.summary.namespace, rec.summary.name)
  }

  // ---------------------------------------------------------------------------
  // Derived views
  // ---------------------------------------------------------------------------

  /** The health label: Healthy when all desired replicas are ready (0 == 0 included), Down when none is, else Updating. */
  function DeriveStatus(ready: int, desired: int): (status: string)
    ensures status == "Healthy" <==> ready == desired
    ensures status == "Down" <==> ready != desired && ready == 0
    ensures status == "Updating" <==> ready != desired && ready != 0
  {
    if ready == desired then "Healthy"
    else if ready == 0 then "Down"
    else "Updating"
  }

  /** decorateSummary: fills in Age and Status from the record, nothing else changes. */
  function DecorateSummary(sum: Summary, created: Instant, now: Instant): (r: Summary)
    ensures r.(age := sum.age, status := sum.status) == sum
    ensures r.age == FormatAge(now - created)
    ensures r.status == DeriveStatus(sum.readyReplicas, sum.desiredReplicas)
  {
    sum.(age := FormatAge(now - created),
         status := DeriveStatus(sum.readyReplicas, sum.desiredReplicas))
  }

  function ConvertCondition(c: ConditionRecord, fmt: Formatter): Condition {
    Condition(c.conditionType, c.status, c.message, fmt(c.lastUpdate), fmt(c.lastTransition))
  }

  /** What copyMap returns: nil for an empty map, otherwise a map with the same entries. */
  function NilIfEmpty(m: StringMap): Option<StringMap> {
    if |m| == 0 then None else Some(m)
  }

  /**
   * The detail view toDetail builds from a record: labels and selector are
   * nil exactly when empty, the revision is kept, and every condition keeps
   * its type, status and message, in order.
   */
  function DetailOf(rec: Record, now: Instant, fmt: Formatter): (d: Detail)
    ensures d.summary == DecorateSummary(rec.summary, rec.createdAt, now)
    ensures d.labels.None? <==> |rec.labels| == 0
    ensures d.labels.Some? ==> d.labels.value == rec.labels
    ensures d.selector.None? <==> |rec.selector| == 0
    ensures d.selector.Some? ==> d.selector.value == rec.selector
    ensures d.containers == rec.containers && d.revision == rec.revision
    ensures |d.conditions| == |rec.conditions|
    ensures forall i :: 0 <= i < |rec.conditions| ==>
              d.conditions[i].conditionType == rec.conditions[i].conditionType
              && d.conditions[i].status == rec.conditions[i].status
              && d.conditions[i].message == rec.conditions[i].message
  {
    Detail(
      DecorateSummary(rec.summary, rec.createdAt, now),
      NilIfEmpty(rec.labels),
      NilIfEmpty(rec.selector),
      rec.containers,
      seq(|rec.conditions|, i requires 0 <= i < |rec.conditions| => ConvertCondition(rec.conditions[i], fmt)),
      rec.revision,
      fmt(rec.lastUpdate))
  }

  /** copyMap: a fresh map with the same entries, or nil when there are none. */
  method CopyMap(src: StringMap) returns (dst: Option<StringMap>)
    ensures dst.None? <==> |src| == 0
    ensures dst.Some? ==> dst.value == src
  {
    if |src| == 0 {
      return None;
    }
    var m: StringMap := map[];
    var todo := src.Keys;
    while todo != {}
      invariant todo <= src.Keys
      invariant m.Keys == src.Keys - todo
      invariant forall k :: k in m ==> m[k] == src[k]
      decreases |todo|
    {
      var k :| k in todo;
      m := m[k := src[k]];
      todo := todo - {k};
    }
    return Some(m);
  }

  /** toDetail: the decorated summary, copies of labels, selector and containers, and the conditions with formatted times, one per record condition in order. */
  method ToDetail(rec: Record, now: Instant, fmt: Formatter) returns (d: Detail)
    ensures d == DetailOf(rec, now, fmt)
  {
    var summary := DecorateSummary(rec.summary, rec.createdAt, now);
    var labels := CopyMap(rec.labels);
    var selector := CopyMap(rec.selector);
    var conditions: seq<Condition> := [];
    for i := 0 to |rec.conditions|
      invariant |conditions| == i
      invariant forall j :: 0 <= j < i ==> conditions[j] == ConvertCondition(rec.conditions[j], fmt)
    {
      conditions := conditions + [ConvertCondition(rec.conditions[i], fmt)];
    }
    d := Detail(summary, labels, selector, rec.containers, conditions, rec.revision, fmt(rec.lastUpdate));
  }

  // ---------------------------------------------------------------------------
  // The scaling state machine
  // ---------------------------------------------------------------------------

  /** The consistency rule scaling keeps: 0 <= ready <= desired and 0 <= updated <= desired. */
  predicate ReplicasConsistent(s: Summary) {
    0 <= s.readyReplicas <= s.desiredReplicas && 0 <= s.updatedReplicas <= s.desiredReplicas
  }

  /** The record after a successful Scale: desired set, ready and updated clamped down, revision bumped, last update stamped. */
  function Scaled(rec: Record, replicas: int, now: Instant): (r: Record)
    ensures KeyOf(r) == KeyOf(rec)
    ensures r.summary.desiredReplicas == replicas && r.revision == rec.revision + 1
    ensures replicas >= 0 && ReplicasConsistent(rec.summary) ==> ReplicasConsistent(r.summary)
  {
    var s := rec.summary;
    var ready := if s.readyReplicas > replicas then replicas else s.readyReplicas;
    var updated := if s.updatedReplicas > replicas then replicas else s.updatedReplicas;
    rec.(summary := s.(desiredReplicas := replicas, readyReplicas := ready, updatedReplicas := updated),
         lastUpdate := now,
         revision := rec.revision + 1)
  }

  /**
   * A successful scale sets desired to the request, leaves counts already
   * within it alone, lowers larger counts to it, bumps the revision by exactly
   * one and changes nothing else; the consistency rule holds afterwards.
   */
  lemma ScaledEffect(rec: Record, replicas: int, now: Instant)
    requires 0 <= replicas <= MaxReplicas
    requires ReplicasConsistent(rec.summary)
    ensures var r := Scaled(rec, replicas, now);
            && r.summary.desiredReplicas == replicas
            && (rec.summary.readyReplicas <= replicas ==> r.summary.readyReplicas == rec.summary.readyReplicas)
            && (rec.summary.readyReplicas > replicas ==> r.summary.readyReplicas == replicas)
            && (rec.summary.updatedReplicas <= replicas ==> r.summary.updatedReplicas == rec.summary.updatedReplicas)
            && (rec.summary.updatedReplicas > replicas ==> r.summary.updatedReplicas == replicas)
            && r.revision == rec.revision + 1
            && r.lastUpdate == now
            && r.(summary := rec.summary, revision := rec.revision, lastUpdate := rec.lastUpdate) == rec
            && KeyOf(r) == KeyOf(rec)
            && ReplicasConsistent(r.summary)
  {
  }

  /** Status after a scale to n: Healthy iff at least n replicas were ready, Down iff none were and n > 0. */
  lemma ScaledStatus(rec: Record, replicas: int, now: Instant)
    requires 0 <= replicas <= MaxReplicas
    requires ReplicasConsistent(rec.summary)
    ensures var s := Scaled(rec, replicas, now).summary;
            var status := DeriveStatus(s.readyReplicas, s.desiredReplicas);
            && (status == "Healthy" <==> rec.summary.readyReplicas >= replicas)
            && (status == "Down" <==> rec.summary.readyReplicas == 0 && replicas > 0)
            && (status == "Updating" <==> 0 < rec.summary.readyReplicas < replicas)
  {
  }

  /** Scaling a Healthy deployment up leaves it Updating, or Down when it had no ready replica. */
  lemma ScaleUpFromHealthy(rec: Record, replicas: int, now: Instant)
    requires ReplicasConsistent(rec.summary)
    requires rec.summary.readyReplicas == rec.summary.desiredReplicas
    requires rec.summary.desiredReplicas < replicas <= MaxReplicas
    ensures var s := Scaled(rec, replicas, now).summary;
            DeriveStatus(s.readyReplicas, s.desiredReplicas)
              == if rec.summary.readyReplicas > 0 then "Updating" else "Down"
  {
    ScaledStatus(rec, replicas, now);
  }

  /** Repeating a scale to the same count changes only the revision and the update time. */
  lemma ScaleTwice(rec: Record, replicas: int, t1: Instant, t2: Instant)
    requires 0 <= replicas <= MaxReplicas
    ensures var once := Scaled(rec, replicas, t1);
            var twice := Scaled(once, replicas, t2);
            twice.summary == once.summary && twice.revision == rec.revision + 2 && twice.lastUpdate == t2
  {
  }

  // ---------------------------------------------------------------------------
  // Ordering
  // ---------------------------------------------------------------------------

  /** The sort.Slice order of List: namespace first, then name. */
  predicate ByNamespaceName(a: Summary, b: Summary) {
    LessEqPair(a.namespace, a.name, b.namespace, b.name)
  }

  /** Some record carries this name (the name alone, not the key). */
  ghost predicate HasName(items: map<string, Record>, name: string) {
    exists k :: k in items && items[k].summary.name == name
  }

  // ---------------------------------------------------------------------------
  // Seed data
  // ---------------------------------------------------------------------------

  function Seed(now: Instant): seq<Record> {
    var base := now - 72 * Hour;
    [
      Record(
        Summary("frontend", "default", 4, 4, 4, "RollingUpdate", ["registry.local/frontend:2.3.1"], "", ""),
        base, 7,
        map["app" := "frontend", "version" := "v2"],
        map["app" := "frontend"],
        [Container("frontend", "registry.local/frontend:2.3.1", [80, 443])],
        [ConditionRecord("Available", "True", "Deployment has minimum availability.", now - 2 * Hour, base + 12 * Hour)],
        now - 30 * Minute),
      Record(
        Summary("backend", "prod", 5, 3, 6, "RollingUpdate", ["registry.local/backend:1.12.0"], "", ""),
        base - 24 * Hour, 21,
        map["app" := "backend", "tier" := "api"],
        map["app" := "backend"],
        [Container("api", "registry.local/backend:1.12.0", [8080])],
        [ConditionRecord("Progressing", "True", "ReplicaSet backend-546cdfd756 is progressing.", now - 10 * Minute, now - 10 * Minute)],
        now - 5 * Minute),
      Record(
        Summary("batch-jobs", "batch", 0, 0, 2, "Recreate", ["registry.local/batch:0.5.0"], "", ""),
        base - 6 * Hour, 4,
        map["app" := "batch-jobs", "team" := "data"],
        map["app" := "batch-jobs"],
        [Container("runner", "registry.local/batch:0.5.0", [])],
        [ConditionRecord("Available", "False", "Deployment does not have minimum availability.", now - 50 * Minute, now - 50 * Minute)],
        now - 45 * Minute)
    ]
  }

  /** The seed keys are pairwise different and every seed record is consistent. */
  lemma SeedWellFormed(now: Instant)
    ensures var seed := Seed(now);
            && (forall j, l :: 0 <= j < l < |seed| ==> KeyOf(seed[j]) != KeyOf(seed[l]))
            && (forall j :: 0 <= j < |seed| ==> ReplicasConsistent(seed[j].summary))
  {
    var seed := Seed(now);
    assert KeyOf(seed[0]) == "default/frontend";
    assert KeyOf(seed[1]) == "prod/backend";
    assert KeyOf(seed[2]) == "batch/batch-jobs";
  }

  // ---------------------------------------------------------------------------
  // The store
  // ---------------------------------------------------------------------------

  /** The two facts NewStore leaves behind: every seed record under its key, and nothing else. */
  predicate Seeded(items: map<string, Record>, now: Instant) {
    && (forall rec :: rec in Seed(now) ==> KeyOf(rec) in items && items[KeyOf(rec)] == rec)
    && (forall k :: k in items ==> items[k] in Seed(now))
  }

  class Store {
    var items: map<string, Record>

    /** Every record sits under its own key and satisfies the replica consistency rule. */
    ghost predicate Valid()
      reads this
    {
      forall k :: k in items ==> k == KeyOf(items[k]) && ReplicasConsistent(items[k].summary)
    }

    /** NewStore: one entry per seed record, under its key. */
    constructor (now: Instant)
      ensures Valid()
      ensures |items| == |Seed(now)|
      ensures Seeded(items, now)
    {
      SeedWellFormed(now);
      var m := Index(Seed(now), KeyOf);
      items := m;
    }

    /** List: every record once, decorated for `now`, sorted by namespace then name. */
    method List(now: Instant) returns (r: seq<Summary>)
      requires Valid()
      ensures |r| == |items|
      ensures SortedBy(r, ByNamespaceName)
      ensures Distinct(r)
      ensures forall k :: k in items ==> DecorateSummary(items[k].summary, items[k].createdAt, now) in r
      ensures forall s :: s in r ==> exists k :: k in items && s == DecorateSummary(items[k].summary, items[k].createdAt, now)
    {
      var view := (rec: Record) => DecorateSummary(rec.summary, rec.createdAt, now);
      var out, keys := Collect(items, view);
      CollectMembers(items, view, keys, out);
      CollectDistinct(items, view, (s: Summary) => Key(s.namespace, s.name), keys, out);
      r := SortBy(out, ByNamespaceName);
      PairOrderTotal(ByNamespaceName, (s: Summary) => s.namespace, (s: Summary) => s.name);
      SortBySorted(out, ByNamespaceName);
      DistinctPermutation(out, r);
      assert forall s :: s in r <==> s in out by {
        forall s ensures s in r <==> s in out {
          assert s in r <==> s in multiset(r);
          assert s in out <==> s in multiset(out);
        }
      }
    }

    /** Get: the detail of some record with this name, or NotFound when none has it. */
    method Get(name: string, now: Instant, fmt: Formatter) returns (r: Result<Detail, Error>)
      ensures r.Failure? <==> !HasName(items, name)
      ensures r.Failure? ==> r.error == NotFound
      ensures r.Success? ==> exists k :: k in items && items[k].summary.name == name
                                         && r.value == DetailOf(items[k], now, fmt)
      ensures r.Success? ==> r.value.summary.name == name
    {
      var todo := items.Keys;
      while todo != {}
        invariant todo <= items.Keys
        invariant forall k :: k in items && k !in todo ==> items[k].summary.name != name
        decreases |todo|
      {
        var k :| k in todo;
        if items[k].summary.name == name {
          var d := ToDetail(items[k], now, fmt);
          return Success(d);
        }
        todo := todo - {k};
      }
      return Failure(NotFound);
    }

    /**
     * Scale: rejects a count outside 0..MaxReplicas before touching anything,
     * reports NotFound when no record has the name, and otherwise replaces
     * exactly one record with that name by its scaled version.
     */
    method Scale(name: string, replicas: int, now: Instant, fmt: Formatter) returns (r: Result<Detail, Error>)
      requires Valid()
      modifies this
      ensures Valid()
      ensures (replicas < 0 || replicas > MaxReplicas) ==>
                r == Failure(InvalidReplicas) && items == old(items)
      ensures 0 <= replicas <= MaxReplicas && !HasName(old(items), name) ==>
                r == Failure(NotFound) && items == old(items)
      ensures 0 <= replicas <= MaxReplicas && HasName(old(items), name) ==>
                exists k :: k in old(items) && old(items)[k].summary.name == name
                            && items == old(items)[k := Scaled(old(items)[k], replicas, now)]
                            && r == Success(DetailOf(items[k], now, fmt))
    {
      if replicas < 0 || replicas > MaxReplicas {
        return Failure(InvalidReplicas);
      }
      var todo := items.Keys;
      while todo != {}
        invariant todo <= items.Keys
        invariant items == old(items)
        invariant forall k :: k in items && k !in todo ==> items[k].summary.name != name
        decreases |todo|
      {
        var k :| k in todo;
        var rec := items[k];
        if rec.summary.name == name {
          ScaledEffect(rec, replicas, now);
          rec := Scaled(rec, replicas, now);
          items := items[k := rec];
          var d := ToDetail(rec, now, fmt);
          return Success(d);
        }
        todo := todo - {k};
      }
      return Failure(NotFound);
    }
  }

  /** In a seeded store exactly one deployment is named frontend: four desired replicas, revision 7. */
  lemma SeedFrontendEntry(now: Instant, items: map<string, Record>) returns (key: string)
    requires Seeded(items, now)
    requires forall k :: k in items ==> k == KeyOf(items[k])
    ensures key in items && items[key].summary.name == "frontend"
    ensures items[key].summary.desiredReplicas == 4 && items[key].revision == 7
    ensures ReplicasConsistent(items[key].summary)
    ensures forall k :: k in items && items[k].summary.name == "frontend" ==> k == key
    ensures forall k :: k in items ==> items[k].summary.name != "missing"
  {
    var seed := Seed(now);
    assert seed[0] in seed;
    key := KeyOf(seed[0]);
    forall k | k in items ensures items[k].summary.name == "frontend" ==> k == key {
      assert items[k] in seed;
    }
  }

  /**
   * The Go test's walk over a store whose only deployment named frontend
   * sits under `key` with four desired replicas at revision 7, and where
   * nothing is named "missing": Get sees 4, a scale to 6 succeeds, a scale
   * to -1 is rejected and changes nothing, and Get then sees 6; still no
   * deployment is named "missing".
   */
  method FrontendWalk(store: Store, ghost key: string, t0: Instant, fmt: Formatter)
    requires store.Valid()
    requires key in store.items && store.items[key].summary.name == "frontend"
    requires store.items[key].summary.desiredReplicas == 4 && store.items[key].revision == 7
    requires forall k :: k in store.items && store.items[k].summary.name == "frontend" ==> k == key
    requires forall k :: k in store.items ==> store.items[k].summary.name != "missing"
    modifies store
    ensures store.Valid()
    ensures forall k :: k in store.items ==> store.items[k].summary.name != "missing"
  {
    var got := store.Get("frontend", t0, fmt);
    assert got.Success? && got.value.summary.desiredReplicas == 4;

    var scaled := store.Scale("frontend", 6, t0 + Minute, fmt);
    assert scaled.Success? && scaled.value.summary.desiredReplicas == 6 && scaled.value.revision == 8;

    var rejected := store.Scale("frontend", -1, t0, fmt);
    assert rejected == Failure(InvalidReplicas);

    var again := store.Get("frontend", t0 + Minute, fmt);
    assert again.Success? && again.value.summary.desiredReplicas == 6;
  }

  /** The Go test's last two calls: Get and Scale of a name no deployment has report NotFound. */
  method MissingWalk(store: Store, t0: Instant, fmt: Formatter)
    requires store.Valid()
    requires forall k :: k in store.items ==> store.items[k].summary.name != "missing"
    modifies store
  {
    var missing := store.Get("missing", t0, fmt);
    assert missing == Failure(NotFound);
    var unknown := store.Scale("missing", 2, t0, fmt);
    assert unknown == Failure(NotFound);
  }

  /** The Go test's scenario on the seeded store. */
  method ScaleScenario(t0: Instant, fmt: Formatter)
  {
    var store := new Store(t0);
    var key := SeedFrontendEntry(t0, store.items);
    FrontendWalk(store, key, t0, fmt);
    MissingWalk(store, t0, fmt);
  }

  /** The seed uses three namespaces: batch, default and prod. */
  lemma SeedNamespaces(now: Instant, rec: Record)
    requires rec in Seed(now)
    ensures rec.summary.namespace in {"batch", "default", "prod"}
  {
  }

  /** In a list sorted by namespace whose namespaces are batch, default or prod, a batch entry comes first if there is one. */
  lemma BatchFirst(r: seq<Summary>, j: nat)
    requires SortedBy(r, ByNamespaceName)
    requires forall s :: s in r ==> s.namespace in {"batch", "default", "prod"}
    requires j < |r| && r[j].namespace == "batch"
    ensures r[0].namespace == "batch"
  {
    if j > 0 {
      assert ByNamespaceName(r[0], r[j]);
      assert r[0] in r;
      assert Less("batch", "default") && Less("batch", "prod");
    }
  }

  /** Listing the seed map, as List promises to, puts the batch deployment first. */
  lemma SeedListBatchFirst(now: Instant, items: map<string, Record>, r: seq<Summary>)
    requires Seeded(items, now)
    requires SortedBy(r, ByNamespaceName)
    requires forall k :: k in items ==> DecorateSummary(items[k].summary, items[k].createdAt, now) in r
    requires forall s :: s in r ==> exists k :: k in items && s == DecorateSummary(items[k].summary, items[k].createdAt, now)
    ensures |r| > 0 && r[0].namespace == "batch"
  {
    var batch := Seed(now)[2];
    assert KeyOf(batch) in items;
    var s := DecorateSummary(batch.summary, batch.createdAt, now);
    assert s in r;
    var j :| 0 <= j < |r| && r[j] == s;
    forall x | x in r ensures x.namespace in {"batch", "default", "prod"} {
      var k :| k in items && x == DecorateSummary(items[k].summary, items[k].createdAt, now);
      SeedNamespaces(now, items[k]);
    }
    BatchFirst(r, j);
  }

  /** Every summary List returns shows an age. */
  lemma ListedAges(now: Instant, items: map<string, Record>, r: seq<Summary>)
    requires forall s :: s in r ==> exists k :: k in items && s == DecorateSummary(items[k].summary, items[k].createdAt, now)
    ensures forall s :: s in r ==> s.age != ""
  {
    forall s | s in r ensures s.age != "" {
      var k :| k in items && s == DecorateSummary(items[k].summary, items[k].createdAt, now);
    }
  }

  /** The Go test's listing: three deployments, the batch one first, each with an age. */
  method ListScenario(t0: Instant)
  {
    var store := new Store(t0);
    var r := store.List(t0);
    SeedListBatchFirst(t0, store.items, r);
    ListedAges(t0, store.items, r);
    assert |r| == 3 && r[0].namespace == "batch" && r[0].age != "";
  }
}
