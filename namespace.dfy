/**
 * The namespace store (internal/namespace/store.go): namespaces keyed by
 * name, created after a DNS-label name check, deleted by name, listed in
 * name order.
 */
module Namespaces {
  import opened Wrappers
  import opened Text
  import opened Sorting
  import opened Clock
  import opened Maps

  datatype Error = Exists | InvalidName

  type StringMap = map<string, string>

  /** The view returned to callers. */
  datatype Namespace = Namespace(name: string, status: string, age: string, createdAt: string, labels: StringMap)

  datatype Record = Record(name: string, status: string, createdAt: Instant, labels: StringMap)

  const MaxNameLength: int := 63
  const MetadataNameLabel: string := "kubernetes.io/metadata.name"
  const ManagedByLabel: string := "app.kubernetes.io/managed-by"
  const ManagedByValue: string := "mock-dashboard"

  // ---------------------------------------------------------------------------
  // The name rule
  // ---------------------------------------------------------------------------

  predicate LowerAlnum(c: char) {
    'a' <= c <= 'z' || '0' <= c <= '9'
  }

  predicate LabelChar(c: char) {
    LowerAlnum(c) || c == '-'
  }

  /**
   * namespaceNameRegex, ^[a-z0-9]([-a-z0-9]*[a-z0-9])?$, written out: at least
   * one character, lower-case letters, digits and hyphens only, starting and
   * ending with a letter or digit.
   */
  predicate MatchesNamePattern(s: string) {
    && |s| >= 1
    && LowerAlnum(s[0])
    && LowerAlnum(s[|s| - 1])
    && forall i :: 0 <= i < |s| ==> LabelChar(s[i])
  }

  /** The states of a left-to-right scan of the pattern. */
  datatype ScanState = Start | AfterAlnum | AfterHyphen | Rejected

  function Step(st: ScanState, c: char): ScanState {
    if st == Rejected then Rejected
    else if LowerAlnum(c) then AfterAlnum
    else if c == '-' && st != Start then AfterHyphen
    else Rejected
  }

  function Scan(st: ScanState, s: string): ScanState
    decreases |s|
  {
    if s == [] then st else Scan(Step(st, s[0]), s[1..])
  }

  /** The pattern as an automaton: accepted when the scan ends right after a letter or digit. */
  predicate AutomatonAccepts(s: string) {
    Scan(Start, s) == AfterAlnum
  }

  lemma {:induction false} ScanRejectedStays(s: string)
    ensures Scan(Rejected, s) == Rejected
    decreases |s|
  {
    if s != [] {
      ScanRejectedStays(s[1..]);
    }
  }

  /** From a non-initial, non-rejected state the scan ends after a letter or digit exactly when the rest fits the pattern's tail. */
  lemma {:induction false} ScanTail(st: ScanState, s: string)
    requires st == AfterAlnum || st == AfterHyphen
    ensures Scan(st, s) == AfterAlnum <==>
              (forall i :: 0 <= i < |s| ==> LabelChar(s[i]))
              && (if s == [] then st == AfterAlnum else LowerAlnum(s[|s| - 1]))
    decreases |s|
  {
    if s != [] {
      var next := Step(st, s[0]);
      if next == Rejected {
        ScanRejectedStays(s[1..]);
      } else {
        ScanTail(next, s[1..]);
        if |s| > 1 {
          assert s[|s| - 1] == s[1..][|s[1..]| - 1];
        }
        assert forall i :: 0 <= i < |s| ==> (LabelChar(s[i]) <==> i == 0 || LabelChar(s[1..][i - 1]));
      }
    }
  }

  /** The written-out predicate and the automaton accept the same strings. */
  lemma PatternMatchesAutomaton(s: string)
    ensures MatchesNamePattern(s) <==> AutomatonAccepts(s)
  {
    if s != [] {
      var next := Step(Start, s[0]);
      if next == Rejected {
        ScanRejectedStays(s[1..]);
      } else {
        ScanTail(next, s[1..]);
        if |s| > 1 {
          assert s[|s| - 1] == s[1..][|s[1..]| - 1];
        }
        assert forall i :: 0 <= i < |s| ==> (LabelChar(s[i]) <==> i == 0 || LabelChar(s[1..][i - 1]));
      }
    }
  }

  /** The check Create makes on the trimmed name before taking the lock. */
  predicate ValidName(clean: string) {
    clean != "" && |clean| <= MaxNameLength && MatchesNamePattern(clean)
  }

  /** A valid name never carries surrounding white space, so trimming it again changes nothing. */
  lemma ValidNameTrimmed(clean: string)
    requires ValidName(clean)
    ensures TrimSpace(clean) == clean
  {
    assert !IsSpace(clean[0]) && !IsSpace(clean[|clean| - 1]);
    TrimSpaceIdempotent(clean);
  }

  // ---------------------------------------------------------------------------
  // Labels and views
  // ---------------------------------------------------------------------------

  function DefaultLabels(name: string): StringMap {
    map[MetadataNameLabel := name, ManagedByLabel := ManagedByValue]
  }

  /**
   * The labels of a new namespace: the caller's keys plus the two default
   * keys; the caller's value wherever it gives one, the default elsewhere.
   */
  predicate MergedLabels(labels: StringMap, name: string, custom: StringMap) {
    && labels.Keys == custom.Keys + {MetadataNameLabel, ManagedByLabel}
    && (forall k :: k in custom ==> labels[k] == custom[k])
    && (MetadataNameLabel !in custom ==> labels[MetadataNameLabel] == name)
    && (ManagedByLabel !in custom ==> labels[ManagedByLabel] == ManagedByValue)
  }

  /**
   * mergeLabels: the two default labels, then every caller label on top, so
   * a caller value wins on a shared key.
   */
  method MergeLabels(name: string, custom: StringMap) returns (labels: StringMap)
    ensures MergedLabels(labels, name, custom)
  {
    labels := DefaultLabels(name);
    var todo := custom.Keys;
    while todo != {}
      invariant todo <= custom.Keys
      invariant labels.Keys == (custom.Keys - todo) + {MetadataNameLabel, ManagedByLabel}
      invariant forall k :: k in custom && k !in todo ==> labels[k] == custom[k]
      invariant MetadataNameLabel !in custom || MetadataNameLabel in todo ==> labels[MetadataNameLabel] == name
      invariant ManagedByLabel !in custom || ManagedByLabel in todo ==> labels[ManagedByLabel] == ManagedByValue
      decreases |todo|
    {
      var k :| k in todo;
      labels := labels[k := custom[k]];
      todo := todo - {k};
    }
  }

  /** The record Create adds: the trimmed name, Active, created now, with the merged labels. */
  predicate NewRecord(rec: Record, clean: string, now: Instant, custom: StringMap) {
    rec.name == clean && rec.status == "Active" && rec.createdAt == now && MergedLabels(rec.labels, clean, custom)
  }

  /** toNamespace: the record's name, status and labels with its age for `now` and its formatted creation time. */
  function ToNamespace(rec: Record, now: Instant, fmt: Formatter): (ns: Namespace)
    ensures ns.name == rec.name && ns.status == rec.status && ns.labels == rec.labels
    ensures ns.age == FormatAge(now - rec.createdAt) && ns.createdAt == fmt(rec.createdAt)
  {
    Namespace(rec.name, rec.status, FormatAge(now - rec.createdAt), fmt(rec.createdAt), rec.labels)
  }

  /** The sort.Slice order of List: by name. */
  predicate ByName(a: Namespace, b: Namespace) {
    LessEq(a.name, b.name)
  }

  function Seed(now: Instant): seq<Record> {
    var base := now - 48 * Hour;
    [
      Record("default", "Active", base, map[MetadataNameLabel := "default"]),
      Record("kube-system", "Active", base - 24 * Hour,
             map[MetadataNameLabel := "kube-system", "pod-security.kubernetes.io/enforce" := "privileged"]),
      Record("monitoring", "Active", base + 6 * Hour, map["team" := "sre", MetadataNameLabel := "monitoring"])
    ]
  }

  class Store {
    var items: map<string, Record>

    /** Every namespace sits under its own name. */
    ghost predicate Valid()
      reads this
    {
      forall k :: k in items ==> items[k].name == k
    }

    /** NewStore: the three seed namespaces. */
    constructor (now: Instant)
      ensures Valid()
      ensures |items| == |Seed(now)|
      ensures forall rec :: rec in Seed(now) ==> rec.name in items && items[rec.name] == rec
      ensures forall k :: k in items ==> items[k] in Seed(now)
    {
      var m := Index(Seed(now), (rec: Record) => rec.name);
      items := m;
    }

    /** List: every namespace once, sorted by name. */
    method List(now: Instant, fmt: Formatter) returns (r: seq<Namespace>)
      requires Valid()
      ensures |r| == |items|
      ensures SortedBy(r, ByName)
      ensures Distinct(r)
      ensures forall k :: k in items ==> ToNamespace(items[k], now, fmt) in r
      ensures forall ns :: ns in r ==> exists k :: k in items && ns == ToNamespace(items[k], now, fmt)
    {
      var view := (rec: Record) => ToNamespace(rec, now, fmt);
      var out, keys := Collect(items, view);
      CollectMembers(items, view, keys, out);
      CollectDistinct(items, view, (ns: Namespace) => ns.name, keys, out);
      r := SortBy(out, ByName);
      KeyOrderTotal(ByName, (ns: Namespace) => ns.name);
      SortBySorted(out, ByName);
      DistinctPermutation(out, r);
      assert forall ns :: ns in r <==> ns in out by {
        forall ns ensures ns in r <==> ns in out {
          assert ns in r <==> ns in multiset(r);
          assert ns in out <==> ns in multiset(out);
        }
      }
    }

    /**
     * Create: rejects an invalid trimmed name, then an existing one, and
     * otherwise adds exactly one Active namespace under the trimmed name,
     * created now, with the merged labels.
     */
    method Create(name: string, now: Instant, labels: StringMap, fmt: Formatter) returns (r: Result<Namespace, Error>)
      requires Valid()
      modifies this
      ensures Valid()
      ensures var clean := TrimSpace(name);
              !ValidName(clean) ==> r == Failure(InvalidName) && items == old(items)
      ensures var clean := TrimSpace(name);
              ValidName(clean) && clean in old(items) ==> r == Failure(Exists) && items == old(items)
      ensures var clean := TrimSpace(name);
              ValidName(clean) && clean !in old(items) ==>
                && clean in items
                && items == old(items)[clean := items[clean]]
                && NewRecord(items[clean], clean, now, labels)
                && r == Success(ToNamespace(items[clean], now, fmt))
    {
      var clean := TrimSpace(name);
      if clean == "" || |clean| > MaxNameLength || !MatchesNamePattern(clean) {
        return Failure(InvalidName);
      }
      if clean in items {
        return Failure(Exists);
      }
      var merged := MergeLabels(clean, labels);
      var rec := Record(clean, "Active", now, merged);
      items := items[clean := rec];
      return Success(ToNamespace(rec, now, fmt));
    }

    /** Delete: true and the entry removed exactly when the trimmed name was present. */
    method Delete(name: string) returns (deleted: bool)
      requires Valid()
      modifies this
      ensures Valid()
      ensures deleted <==> TrimSpace(name) in old(items)
      ensures items == old(items) - {TrimSpace(name)}
    {
      var clean := TrimSpace(name);
      if clean !in items {
        return false;
      }
      items := items - {clean};
      return true;
    }
  }

  /** The seed names its namespaces default, kube-system and monitoring, and nothing else. */
  lemma SeedNames(now: Instant, rec: Record)
    requires rec in Seed(now)
    ensures rec.name in {"default", "kube-system", "monitoring"}
  {
  }

  /** No seed namespace is called "staging". */
  lemma StagingAbsent(now: Instant, m: map<string, Record>)
    requires forall k :: k in m ==> m[k].name == k && m[k] in Seed(now)
    ensures "staging" !in m
  {
    if "staging" in m {
      SeedNames(now, m["staging"]);
    }
  }

  /** "staging" passes the name check as it is. */
  lemma StagingIsValid()
    ensures ValidName("staging") && TrimSpace("staging") == "staging"
  {
    assert MatchesNamePattern("staging");
    ValidNameTrimmed("staging");
  }

  /** "Invalid_Name" fails the name check: upper case and an underscore. */
  lemma InvalidNameRejected()
    ensures TrimSpace("Invalid_Name") == "Invalid_Name" && !ValidName("Invalid_Name")
  {
    var s := "Invalid_Name";
    assert s[0] == 'I' && s[|s| - 1] == 'e';
    assert !LowerAlnum(s[0]);
    assert Trimmed(s);
    TrimSpaceIdempotent(s);
  }

  /** Adding a fresh key and removing it again gives back the map. */
  lemma UpdateRemove(m: map<string, Record>, k: string, v: Record)
    requires k !in m
    ensures m[k := v] - {k} == m
  {
  }

  /** Removing a key that is not there changes nothing. */
  lemma RemoveAbsent(m: map<string, Record>, k: string)
    requires k !in m
    ensures m - {k} == m
  {
  }

  /**
   * A fresh valid name is added, and only it; the namespace returned carries
   * that name and every label the caller gave.
   */
  method CreateFresh(store: Store, name: string, labels: StringMap, now: Instant, fmt: Formatter) returns (ns: Namespace)
    requires store.Valid() && ValidName(name) && TrimSpace(name) == name && name !in store.items
    modifies store
    ensures store.Valid() && name in store.items && store.items - {name} == old(store.items)
    ensures ns.name == name && forall k :: k in labels ==> k in ns.labels && ns.labels[k] == labels[k]
  {
    ghost var before := store.items;
    var created := store.Create(name, now, labels, fmt);
    assert name in store.items && store.items == before[name := store.items[name]];
    UpdateRemove(before, name, store.items[name]);
    ns := created.value;
  }

  /** Creating a name that is already there conflicts and changes nothing. */
  method CreateExisting(store: Store, name: string, now: Instant, fmt: Formatter)
    requires store.Valid() && ValidName(name) && name in store.items
    modifies store
    ensures store.Valid() && store.items == old(store.items)
  {
    ValidNameTrimmed(name);
    var again := store.Create(name, now, map[], fmt);
    assert again == Failure(Exists);
  }

  /**
   * The first half of the Go test's walk for a fresh valid name: the first
   * create adds it, a second create conflicts.
   */
  method CreateTwice(store: Store, name: string, labels: StringMap, now: Instant, fmt: Formatter) returns (ns: Namespace)
    requires store.Valid() && ValidName(name) && TrimSpace(name) == name && name !in store.items
    modifies store
    ensures store.Valid() && name in store.items && store.items - {name} == old(store.items)
    ensures ns.name == name && forall k :: k in labels ==> k in ns.labels && ns.labels[k] == labels[k]
  {
    ns := CreateFresh(store, name, labels, now, fmt);
    CreateExisting(store, name, now, fmt);
  }

  /** The second half: delete succeeds once and restores the store, a second delete finds nothing. */
  method DeleteTwice(store: Store, name: string, ghost before: map<string, Record>)
    requires store.Valid() && TrimSpace(name) == name && name !in before
    requires name in store.items && store.items - {name} == before
    modifies store
    ensures store.Valid() && store.items == before
  {
    var first := store.Delete(name);
    assert first;
    RemoveAbsent(before, name);
    var second := store.Delete(name);
    assert !second;
  }

  /** The whole walk: the first create returns the name with the caller's labels, and the store ends as it began. */
  method CreateDeleteWalk(store: Store, name: string, labels: StringMap, now: Instant, fmt: Formatter) returns (ns: Namespace)
    requires store.Valid() && ValidName(name) && TrimSpace(name) == name && name !in store.items
    modifies store
    ensures store.Valid() && store.items == old(store.items)
    ensures ns.name == name && forall k :: k in labels ==> k in ns.labels && ns.labels[k] == labels[k]
  {
    ghost var before := store.items;
    ns := CreateTwice(store, name, labels, now, fmt);
    DeleteTwice(store, name, before);
  }

  /** The walk with "staging" and a team label, on a fresh store: the created namespace keeps both. */
  method CreateDeleteScenario(t0: Instant, fmt: Formatter)
  {
    var store := new Store(t0);
    StagingAbsent(t0, store.items);
    StagingIsValid();
    var ns := CreateDeleteWalk(store, "staging", map["team" := "platform"], t0, fmt);
    assert ns.name == "staging" && "team" in ns.labels && ns.labels["team"] == "platform";
  }

  /** An invalid name is refused before the store is looked at. */
  method InvalidNameScenario(t0: Instant, fmt: Formatter)
  {
    var store := new Store(t0);
    InvalidNameRejected();
    var invalid := store.Create("Invalid_Name", t0, map[], fmt);
    assert invalid == Failure(InvalidName);
  }

  /** Listing the seed map, as List promises to, puts default first. */
  lemma SeedListDefaultFirst(now: Instant, fmt: Formatter, items: map<string, Record>, r: seq<Namespace>)
    requires forall rec :: rec in Seed(now) ==> rec.name in items && items[rec.name] == rec
    requires forall k :: k in items ==> items[k] in Seed(now)
    requires SortedBy(r, ByName)
    requires forall k :: k in items ==> ToNamespace(items[k], now, fmt) in r
    requires forall ns :: ns in r ==> exists k :: k in items && ns == ToNamespace(items[k], now, fmt)
    ensures |r| > 0 && r[0].name == "default"
  {
    var first := Seed(now)[0];
    assert first.name in items;
    var x := ToNamespace(first, now, fmt);
    assert x in r;
    var j :| 0 <= j < |r| && r[j] == x;
    if j > 0 {
      assert ByName(r[0], r[j]);
      assert r[0] in r;
      var k :| k in items && r[0] == ToNamespace(items[k], now, fmt);
      SeedNames(now, items[k]);
      assert Less("default", "kube-system") && Less("default", "monitoring");
    }
  }

  /** Every namespace List returns shows an age. */
  lemma ListedAges(now: Instant, fmt: Formatter, items: map<string, Record>, r: seq<Namespace>)
    requires forall ns :: ns in r ==> exists k :: k in items && ns == ToNamespace(items[k], now, fmt)
    ensures forall ns :: ns in r ==> ns.age != ""
  {
    forall ns | ns in r ensures ns.age != "" {
      var k :| k in items && ns == ToNamespace(items[k], now, fmt);
    }
  }

  /** The Go test's listing: three namespaces, default first, each with an age. */
  method ListScenario(t0: Instant, fmt: Formatter)
  {
    var store := new Store(t0);
    var r := store.List(t0, fmt);
    SeedListDefaultFirst(t0, fmt, store.items, r);
    ListedAges(t0, fmt, store.items, r);
    assert |r| == 3 && r[0].name == "default" && r[0].age != "";
  }
}
