/**
 * The diagnostic timeline (internal/logs/store.go): log lines kept newest
 * first, filtered and capped on the way out; cluster events sorted by
 * timestamp; the distinct namespaces and pods for the filter drop-downs; and
 * the relative-time formatter.
 */
module Logs {
  import opened Wrappers
  import opened Text
  import opened Sorting
  import opened Clock

  /** The severity of a log line; AppendLog stores whatever it is given, upper-cased. */
  type Level = string

  const LevelInfo: Level := "INFO"
  const LevelWarn: Level := "WARN"
  const LevelError: Level := "ERROR"

  const DefaultLimit: int := 50
  const MaxLimit: int := 200

  /** A log line as the API returns it. */
  datatype LogEntry = LogEntry(timestamp: string, namespace: string, pod: string, level: Level, message: string)

  /** A cluster event as the API returns it. */
  datatype Event = Event(timestamp: string, namespace: string, kind: string, name: string,
                         eventType: string, reason: string, message: string, count: int)

  datatype LogFilter = LogFilter(namespace: string, pod: string, level: string, limit: int)

  datatype LogRecord = LogRecord(namespace: string, pod: string, level: Level, message: string, createdAt: Instant)

  datatype EventRecord = EventRecord(namespace: string, kind: string, name: string, eventType: string,
                                     reason: string, message: string, count: int, occurred: Instant)

  /** What DescribeFilters offers the drop-downs. */
  datatype FilterChoices = FilterChoices(namespaces: seq<string>, pods: seq<string>, levels: seq<Level>)

  /** What Summarize reports: the size of a ten-line log page and the number of events. */
  datatype Overview = Overview(recent: int, events: int)

  // ---------------------------------------------------------------------------
  // Filtering
  // ---------------------------------------------------------------------------

  /** The limit ListLogs applies: the requested one when it lies in 1..200, otherwise 50. */
  function EffectiveLimit(requested: int): (limit: int)
    ensures 1 <= limit <= MaxLimit
    ensures 1 <= requested <= MaxLimit ==> limit == requested
    ensures !(1 <= requested <= MaxLimit) ==> limit == DefaultLimit
  {
    if requested <= 0 || requested > MaxLimit then DefaultLimit else requested
  }

  /** The filter fields after normalisation: namespace and pod lower-cased, level upper-cased, all trimmed. */
  datatype Criteria = Criteria(namespace: string, pod: string, level: string)

  function CriteriaOf(f: LogFilter): (c: Criteria)
    ensures Trimmed(c.namespace) && Trimmed(c.pod) && Trimmed(c.level)
    ensures |c.namespace| <= |f.namespace| && |c.pod| <= |f.pod| && |c.level| <= |f.level|
    ensures AllSpace(f.namespace) ==> c.namespace == ""
    ensures AllSpace(f.pod) ==> c.pod == ""
    ensures AllSpace(f.level) ==> c.level == ""
  {
    CaseMappedBlank(f.namespace);
    CaseMappedBlank(f.pod);
    CaseMappedBlank(f.level);
    Criteria(TrimSpace(ToLower(f.namespace)), TrimSpace(ToLower(f.pod)), TrimSpace(ToUpper(f.level)))
  }

  /**
   * Whether a line with these fields passes the filter: an empty criterion
   * passes everything; the line's namespace and pod are lower-cased (not
   * trimmed) before the comparison, its level is compared as stored.
   */
  predicate Selects(c: Criteria, namespace: string, pod: string, level: Level) {
    && (c.namespace == "" || ToLower(namespace) == c.namespace)
    && (c.pod == "" || ToLower(pod) == c.pod)
    && (c.level == "" || level == c.level)
  }

  predicate SelectsRecord(c: Criteria, rec: LogRecord) {
    Selects(c, rec.namespace, rec.pod, rec.level)
  }

  /** Every record the criteria select, in store order. */
  function Filtered(s: seq<LogRecord>, c: Criteria): (r: seq<LogRecord>)
    ensures |r| <= |s|
  {
    if s == [] then []
    else Filtered(s[..|s| - 1], c) + (if SelectsRecord(c, s[|s| - 1]) then [s[|s| - 1]] else [])
  }

  /** Filtered keeps exactly the selected records. */
  lemma {:induction false} FilteredMembers(s: seq<LogRecord>, c: Criteria, x: LogRecord)
    ensures x in Filtered(s, c) <==> x in s && SelectsRecord(c, x)
  {
    if s != [] {
      FilteredMembers(s[..|s| - 1], c, x);
      assert s == s[..|s| - 1] + [s[|s| - 1]];
    }
  }

  /** Filtering a prefix of the store gives a prefix of the filtered store. */
  lemma {:induction false} FilteredPrefix(s: seq<LogRecord>, i: nat, c: Criteria)
    requires i <= |s|
    ensures |Filtered(s[..i], c)| <= |Filtered(s, c)|
    ensures Filtered(s[..i], c) == Filtered(s, c)[..|Filtered(s[..i], c)|]
    decreases |s|
  {
    if i < |s| {
      var init := s[..|s| - 1];
      assert init[..i] == s[..i];
      FilteredPrefix(init, i, c);
    } else {
      assert s[..i] == s;
    }
  }

  /** A record put in front of the store comes first among the selected ones when it is selected itself. */
  lemma {:induction false} FilteredPrepend(rec: LogRecord, s: seq<LogRecord>, c: Criteria)
    ensures Filtered([rec] + s, c) == (if SelectsRecord(c, rec) then [rec] else []) + Filtered(s, c)
    decreases |s|
  {
    if s != [] {
      assert ([rec] + s)[..|[rec] + s| - 1] == [rec] + s[..|s| - 1];
      FilteredPrepend(rec, s[..|s| - 1], c);
    } else {
      assert [rec] + s == [rec];
      assert [rec][..0] == [];
    }
  }

  /** Empty criteria select every record. */
  lemma {:induction false} FilteredEverything(s: seq<LogRecord>)
    ensures Filtered(s, Criteria("", "", "")) == s
  {
    if s != [] {
      FilteredEverything(s[..|s| - 1]);
      assert s == s[..|s| - 1] + [s[|s| - 1]];
    }
  }

  function EntryOf(rec: LogRecord, fmt: Formatter): LogEntry {
    LogEntry(fmt(rec.createdAt), rec.namespace, rec.pod, rec.level, rec.message)
  }

  function EventOf(rec: EventRecord, fmt: Formatter): Event {
    Event(fmt(rec.occurred), rec.namespace, rec.kind, rec.name, rec.eventType, rec.reason, rec.message, rec.count)
  }

  /** The events of the store, as the API returns them, before sorting. */
  function EventsOf(s: seq<EventRecord>, fmt: Formatter): (r: seq<Event>)
    ensures |r| == |s| && forall i :: 0 <= i < |s| ==> r[i] == EventOf(s[i], fmt)
  {
    seq(|s|, i requires 0 <= i < |s| => EventOf(s[i], fmt))
  }

  /** The order of ListEvents: a later (larger) timestamp string first. */
  predicate NewerFirst(a: Event, b: Event) {
    LessEq(b.timestamp, a.timestamp)
  }

  lemma NewerFirstTotal()
    ensures TotalPreorder(NewerFirst)
  {
    forall x: Event, y: Event, z: Event
      ensures NewerFirst(x, y) || NewerFirst(y, x)
      ensures NewerFirst(x, y) && NewerFirst(y, z) ==> NewerFirst(x, z)
    {
      LessEqTotalOrder(x.timestamp, y.timestamp, z.timestamp);
      LessEqTotalOrder(z.timestamp, y.timestamp, x.timestamp);
    }
  }

  /** parseTimestamp with time.Parse as `parse`: the parsed instant, or the fallback for an empty or unparsable string. */
  function ParseTimestamp(ts: string, fallback: Instant, parse: string -> Option<Instant>): (t: Instant)
    ensures t == fallback || (ts != "" && parse(ts) == Some(t))
    ensures ts != "" && parse(ts).Some? ==> t == parse(ts).value
  {
    if ts == "" then fallback
    else match parse(ts)
      case Some(parsed) => parsed
      case None => fallback
  }

  /** The record AppendLog stores for an entry. */
  function LogRecordOf(entry: LogEntry, fallback: Instant, parse: string -> Option<Instant>): LogRecord {
    LogRecord(entry.namespace, entry.pod, ToUpper(entry.level), entry.message, ParseTimestamp(entry.timestamp, fallback, parse))
  }

  /** The record AppendEvent stores for an event. */
  function EventRecordOf(ev: Event, fallback: Instant, parse: string -> Option<Instant>): EventRecord {
    EventRecord(ev.namespace, ev.kind, ev.name, ev.eventType, ev.reason, ev.message, ev.count,
                ParseTimestamp(ev.timestamp, fallback, parse))
  }

  /** A log line listed by the store and appended back keeps its level and, when the parser reads the formatter's output, its instant. */
  lemma EntryRoundTrip(rec: LogRecord, fmt: Formatter, fallback: Instant, parse: string -> Option<Instant>)
    requires fmt(rec.createdAt) != "" && parse(fmt(rec.createdAt)) == Some(rec.createdAt)
    requires ToUpper(rec.level) == rec.level
    ensures LogRecordOf(EntryOf(rec, fmt), fallback, parse) == rec
  {
  }

  // ---------------------------------------------------------------------------
  // Distinct values
  // ---------------------------------------------------------------------------

  predicate StrictlyAscending(s: seq<string>) {
    forall i, j :: 0 <= i < j < |s| ==> Less(s[i], s[j])
  }

  lemma LessEqTotal()
    ensures TotalPreorder(LessEq)
  {
    forall x: string, y: string, z: string
      ensures LessEq(x, y) || LessEq(y, x)
      ensures LessEq(x, y) && LessEq(y, z) ==> LessEq(x, z)
    {
      LessEqTotalOrder(x, y, z);
    }
  }

  /** The map-as-set walk and sort.Strings at the end of UniqueNamespaces and UniquePods. */
  method SortedMembers(items: set<string>) returns (r: seq<string>)
    ensures |r| == |items|
    ensures forall x :: x in r <==> x in items
    ensures StrictlyAscending(r)
  {
    var out: seq<string> := [];
    var todo := items;
    while todo != {}
      invariant todo <= items
      invariant |out| + |todo| == |items|
      invariant forall x :: x in out <==> x in items && x !in todo
      invariant Distinct(out)
      decreases |todo|
    {
      var k :| k in todo;
      out := out + [k];
      todo := todo - {k};
    }
    r := SortBy(out, LessEq);
    LessEqTotal();
    SortBySorted(out, LessEq);
    DistinctPermutation(out, r);
    forall x ensures x in r <==> x in out {
      assert x in r <==> x in multiset(r);
      assert x in out <==> x in multiset(out);
    }
    forall i, j | 0 <= i < j < |r| ensures Less(r[i], r[j]) {
      LessTrichotomous(r[i], r[j]);
    }
  }

  /** Two strictly ascending lists with the same members are the same list: the sorted result is determined. */
  lemma {:induction false} StrictlyAscendingUnique(a: seq<string>, b: seq<string>)
    requires StrictlyAscending(a) && StrictlyAscending(b)
    requires forall x :: x in a <==> x in b
    ensures a == b
  {
    if a != [] {
      assert a[0] in a;
    }
    if b != [] {
      assert b[0] in b;
    }
    if a != [] && b != [] {
      assert a[0] in a && b[0] in b;
      var j :| 0 <= j < |a| && a[j] == b[0];
      var k :| 0 <= k < |b| && b[k] == a[0];
      if a[0] != b[0] {
        assert j > 0 && k > 0;
        LessAsymmetric(a[0], b[0]);
      }
      forall x ensures x in a[1..] <==> x in b[1..] {
        if x in a[1..] {
          var i :| 0 <= i < |a[1..]| && a[1..][i] == x;
          assert Less(a[0], a[i + 1]);
          LessIrreflexive(a[0]);
          assert x in b && x != b[0];
          assert b == [b[0]] + b[1..];
        }
        if x in b[1..] {
          var i :| 0 <= i < |b[1..]| && b[1..][i] == x;
          assert Less(b[0], b[i + 1]);
          LessIrreflexive(b[0]);
          assert x in a && x != a[0];
          assert a == [a[0]] + a[1..];
        }
      }
      StrictlyAscendingUnique(a[1..], b[1..]);
      assert a == [a[0]] + a[1..] && b == [b[0]] + b[1..];
    }
  }

  function LogNamespaces(s: seq<LogRecord>): set<string> {
    set rec | rec in s :: rec.namespace
  }

  function EventNamespaces(s: seq<EventRecord>): set<string> {
    set rec | rec in s :: rec.namespace
  }

  function LogPods(s: seq<LogRecord>): set<string> {
    set rec | rec in s :: rec.pod
  }

  /** The dropdown levels: the three the store knows, each once. */
  function UniqueLevels(): (r: seq<Level>)
    ensures Distinct(r)
    ensures forall l :: l in r <==> l == LevelInfo || l == LevelWarn || l == LevelError
  {
    [LevelInfo, LevelWarn, LevelError]
  }

  // ---------------------------------------------------------------------------
  // FormatRelative
  // ---------------------------------------------------------------------------

  /** The arithmetic of FormatRelative: a future target counts as now; whole minutes, hours and days. */
  function RelativeText(now: Instant, target: Instant): (t: AgeText)
    ensures var span := if target > now then 0 else now - target;
            && (span >= Day ==> t == DaysHours(span / Day, span % Day / Hour))
            && (Hour <= span < Day ==> t == HoursMinutes(span / Hour, span % Hour / Minute))
            && (span < Hour ==> t == MinutesOnly(span / Minute))
  {
    var clamped := if target > now then now else target;
    var span := now - clamped;
    var minutes := span / Minute;
    var hours := minutes / 60;
    var days := hours / 24;
    RelativeArithmetic(span);
    if days > 0 then DaysHours(days, hours % 24)
    else if hours > 0 then HoursMinutes(hours, minutes % 60)
    else MinutesOnly(minutes)
  }

  /** Euclidean division is determined by a quotient and a remainder in range. */
  lemma DivUnique(x: int, a: int, q: int, r: int)
    requires a > 0 && 0 <= r < a && x == q * a + r
    ensures x / a == q && x % a == r
  {
    var q0 := x / a;
    assert (q - q0) * a == x % a - r;
    MulSign(q - q0, a);
  }

  /** A non-zero multiple of a positive number is at least that number away from zero. */
  lemma MulSign(k: int, a: int)
    requires a > 0
    ensures k >= 1 ==> k * a >= a
    ensures k <= -1 ==> k * a <= -a
  {
    assert k * a == (k - 1) * a + a;
    assert k * a == (k + 1) * a - a;
  }

  /** Dividing by `a` and then by `b` is dividing by `a * b`; the second remainder is the first digit of the combined one. */
  lemma DivDiv(x: int, a: int, b: int)
    requires x >= 0 && a > 0 && b > 0
    ensures x / a / b == x / (a * b)
    ensures x / a % b == x % (a * b) / a
  {
    var q := x / (a * b);
    var r := x % (a * b);
    assert x == q * (a * b) + r;
    assert r == (r / a) * a + r % a;
    assert x == (q * b + r / a) * a + r % a;
    DivUnique(x, a, q * b + r / a, r % a);
    assert r / a < b;
    DivUnique(x / a, b, q, r / a);
  }

  /** Whole minutes, then hours of them, then days of those, agree with dividing the span directly. */
  lemma RelativeArithmetic(span: int)
    requires span >= 0
    ensures span / Minute / 60 == span / Hour
    ensures span / Minute / 60 / 24 == span / Day
    ensures span / Minute / 60 % 24 == span % Day / Hour
    ensures span / Minute % 60 == span % Hour / Minute
  {
    DivDiv(span, Minute, 60);
    DivDiv(span, Hour, 24);
  }

  /** FormatRelative: "{d}d{h}h", "{h}h{m}m" or "{m}m"; the text reads back as the units it was made from. */
  function FormatRelative(now: Instant, target: Instant): (r: string)
    ensures ParseAge(r) == Some(RelativeText(now, target))
  {
    ParseRender(RelativeText(now, target));
    Render(RelativeText(now, target))
  }

  /** From one hour on, the relative time reads exactly like the age formatter's output. */
  lemma RelativeMatchesAgeFromAnHour(now: Instant, target: Instant)
    requires now - target >= Hour
    ensures FormatRelative(now, target) == FormatAge(now - target)
  {
  }

  /** Under an hour (and for a future target) it reads like the age with the seconds dropped. */
  lemma RelativeDropsSeconds(now: Instant, target: Instant)
    requires now - target < Hour
    ensures var c := if now - target < 0 then 0 else now - target;
            FormatAge(now - target) == FormatRelative(now, target) + NatToString(c % Minute / Second) + "s"
  {
  }

  /** A target in the future reads as "0m". */
  lemma RelativeFutureIsZero(now: Instant, target: Instant)
    requires target > now
    ensures FormatRelative(now, target) == "0m"
  {
  }

  /** Hours stay below 24 and minutes below 60 where they are shown. */
  lemma RelativeBounds(now: Instant, target: Instant)
    ensures match RelativeText(now, target)
            case DaysHours(d, h) => d >= 1 && h < 24
            case HoursMinutes(h, m) => 1 <= h < 24 && m < 60
            case MinutesOnly(m) => m < 60
            case MinutesSeconds(_, _) => false
  {
  }

  // ---------------------------------------------------------------------------
  // Seed data
  // ---------------------------------------------------------------------------

  function DefaultLogs(now: Instant): seq<LogRecord> {
    var base := now - 5 * Minute;
    [
      LogRecord("default", "frontend-7d8fdc9f7c-abc12", LevelInfo, "GET / 200 18ms", base),
      LogRecord("default", "frontend-7d8fdc9f7c-abc12", LevelInfo, "GET /healthz 200 5ms", base + 20 * Second),
      LogRecord("default", "frontend-7d8fdc9f7c-def34", LevelWarn, "upstream latency 430ms", base + 38 * Second),
      LogRecord("prod", "edge-gateway-7d8fdc9f7c-9012a", LevelError, "listener restart due to config reload", base + 64 * Second),
      LogRecord("prod", "edge-gateway-7d8fdc9f7c-9012a", LevelInfo, "probe /ready succeeded", base + 80 * Second),
      LogRecord("prod", "backend-76c4d5f6d6-xyz89", LevelInfo, "processed job 3498", base + 95 * Second),
      LogRecord("prod", "backend-76c4d5f6d6-xyz89", LevelWarn, "cache miss ratio 42% exceeds threshold", base + 2 * Minute),
      LogRecord("batch", "batch-runner-5b87d7fbc6-kx912", LevelInfo, "scheduled job nightly-sync", base + 150 * Second),
      LogRecord("batch", "batch-runner-5b87d7fbc6-kx912", LevelError, "job nightly-sync failed: no nodes available", base + 165 * Second),
      LogRecord("batch", "batch-runner-5b87d7fbc6-kx912", LevelInfo, "retry scheduled in 30s", base + 3 * Minute)
    ]
  }

  function DefaultEvents(now: Instant): seq<EventRecord> {
    [
      EventRecord("default", "Deployment", "frontend", "Normal", "ScalingReplicaSet",
                  "Scaled up replica set frontend-7d8fdc9f7c to 3", 1, now - 12 * Minute),
      EventRecord("prod", "Pod", "edge-gateway-7d8fdc9f7c-9012a", "Warning", "FailedScheduling",
                  "0/3 nodes available: Insufficient MEMORY", 3, now - 9 * Minute),
      EventRecord("prod", "Pod", "edge-gateway-7d8fdc9f7c-9012b", "Normal", "Pulled",
                  "Successfully pulled image registry.local/edge:2.1.0", 1, now - 8 * Minute),
      EventRecord("batch", "Job", "nightly-sync", "Warning", "BackoffLimitExceeded",
                  "Job has reached the specified backoff limit", 1, now - 5 * Minute),
      EventRecord("batch", "Pod", "batch-runner-5b87d7fbc6-kx912", "Normal", "Scheduled",
                  "Successfully assigned batch/batch-runner-5b87d7fbc6-kx912 to node-2", 1, now - 3 * Minute)
    ]
  }

  /** Every level the seed uses is offered by UniqueLevels. */
  lemma SeedLevelsOffered(now: Instant)
    ensures forall rec :: rec in DefaultLogs(now) ==> rec.level in UniqueLevels()
  {
  }

  /** The first steps of ListLogs: the limit defaulted, the filter fields case-mapped and trimmed. */
  method Normalise(filter: LogFilter) returns (c: Criteria, limit: int)
    ensures c == CriteriaOf(filter)
    ensures limit == EffectiveLimit(filter.limit)
  {
    limit := filter.limit;
    if limit <= 0 || limit > MaxLimit {
      limit := DefaultLimit;
    }
    var namespace := TrimSpace(ToLower(filter.namespace));
    var pod := TrimSpace(ToLower(filter.pod));
    var level := TrimSpace(ToUpper(filter.level));
    c := Criteria(namespace, pod, level);
  }

  /**
   * The scan of ListLogs: walks the lines in store order, skips those the
   * criteria reject, and stops as soon as `limit` lines are taken.
   */
  method SelectLines(logs: seq<LogRecord>, c: Criteria, limit: int, fmt: Formatter) returns (r: seq<LogEntry>)
    requires limit >= 1
    ensures var f := Filtered(logs, c);
            && |r| == (if |f| < limit then |f| else limit)
            && forall j :: 0 <= j < |r| ==> r[j] == EntryOf(f[j], fmt)
    ensures forall e :: e in r ==> Selects(c, e.namespace, e.pod, e.level)
  {
    ghost var taken: seq<LogRecord> := [];
    r := [];
    for i := 0 to |logs|
      invariant taken == Filtered(logs[..i], c)
      invariant |r| == |taken| < limit
      invariant forall j :: 0 <= j < |r| ==> r[j] == EntryOf(taken[j], fmt)
    {
      var rec := logs[i];
      FilteredSnoc(logs, i, c);
      var keep := Keeps(c, rec);
      if !keep {
        continue;
      }
      taken := taken + [rec];
      r := r + [EntryOf(rec, fmt)];
      if |r| >= limit {
        FilteredPrefix(logs, i + 1, c);
        PrefixEntries(Filtered(logs, c), taken, r, fmt);
        break;
      }
    }
    assert logs[..|logs|] == logs;
    EntriesSelected(logs, c, r, fmt);
  }

  /** The three checks of the scan, in the order it makes them. */
  method Keeps(c: Criteria, rec: LogRecord) returns (keep: bool)
    ensures keep <==> SelectsRecord(c, rec)
  {
    if c.namespace != "" && ToLower(rec.namespace) != c.namespace {
      return false;
    }
    if c.pod != "" && ToLower(rec.pod) != c.pod {
      return false;
    }
    if c.level != "" && rec.level != c.level {
      return false;
    }
    return true;
  }

  /** One more line of the store adds that line to the filtered prefix exactly when it is selected. */
  lemma FilteredSnoc(logs: seq<LogRecord>, i: nat, c: Criteria)
    requires i < |logs|
    ensures Filtered(logs[..i + 1], c)
         == Filtered(logs[..i], c) + (if SelectsRecord(c, logs[i]) then [logs[i]] else [])
  {
    assert logs[..i + 1][..i] == logs[..i];
  }

  /** Entries made from a prefix of a list of lines are entries made from the list's first lines. */
  lemma PrefixEntries(f: seq<LogRecord>, taken: seq<LogRecord>, r: seq<LogEntry>, fmt: Formatter)
    requires |taken| <= |f| && taken == f[..|taken|]
    requires |r| == |taken| && forall j :: 0 <= j < |r| ==> r[j] == EntryOf(taken[j], fmt)
    ensures forall j :: 0 <= j < |r| ==> r[j] == EntryOf(f[j], fmt)
  {
    forall j | 0 <= j < |r| ensures r[j] == EntryOf(f[j], fmt) {
      assert taken[j] == f[j];
    }
  }

  /** Entries made from the first lines of the filtered store all pass the criteria. */
  lemma EntriesSelected(logs: seq<LogRecord>, c: Criteria, r: seq<LogEntry>, fmt: Formatter)
    requires |r| <= |Filtered(logs, c)|
    requires forall j :: 0 <= j < |r| ==> r[j] == EntryOf(Filtered(logs, c)[j], fmt)
    ensures forall e :: e in r ==> Selects(c, e.namespace, e.pod, e.level)
  {
    forall e | e in r ensures Selects(c, e.namespace, e.pod, e.level) {
      var j :| 0 <= j < |r| && r[j] == e;
      FilteredMembers(logs, c, Filtered(logs, c)[j]);
    }
  }

  // ---------------------------------------------------------------------------
  // The store
  // ---------------------------------------------------------------------------

  class Store {
    var logs: seq<LogRecord>
    var events: seq<EventRecord>

    /** NewStore: the seed lines and events. */
    constructor (now: Instant)
      ensures logs == DefaultLogs(now) && events == DefaultEvents(now)
    {
      logs := DefaultLogs(now);
      events := DefaultEvents(now);
    }

    /**
     * ListLogs: the first min(limit, #selected) selected lines, in store
     * order (no sorting takes place), each as an entry.
     */
    method ListLogs(filter: LogFilter, fmt: Formatter) returns (r: seq<LogEntry>)
      ensures var f := Filtered(logs, CriteriaOf(filter));
              var limit := EffectiveLimit(filter.limit);
              && |r| == (if |f| < limit then |f| else limit)
              && forall j :: 0 <= j < |r| ==> r[j] == EntryOf(f[j], fmt)
      ensures |r| <= EffectiveLimit(filter.limit)
      ensures forall e :: e in r ==> Selects(CriteriaOf(filter), e.namespace, e.pod, e.level)
    {
      var c, limit := Normalise(filter);
      r := SelectLines(logs, c, limit, fmt);
    }

    /** ListEvents: every event once, the latest timestamp first. */
    method ListEvents(fmt: Formatter) returns (r: seq<Event>)
      ensures multiset(r) == multiset(EventsOf(events, fmt))
      ensures SortedBy(r, NewerFirst)
    {
      var out: seq<Event> := [];
      for i := 0 to |events|
        invariant |out| == i
        invariant forall j :: 0 <= j < i ==> out[j] == EventOf(events[j], fmt)
      {
        out := out + [EventOf(events[i], fmt)];
      }
      assert out == EventsOf(events, fmt);
      r := SortBy(out, NewerFirst);
      NewerFirstTotal();
      SortBySorted(out, NewerFirst);
    }

    /** AppendLog: the entry goes in front, level upper-cased, timestamp parsed or the fallback. */
    method AppendLog(entry: LogEntry, fallback: Instant, parse: string -> Option<Instant>)
      modifies this
      ensures logs == [LogRecordOf(entry, fallback, parse)] + old(logs)
      ensures events == old(events)
    {
      var rec := LogRecord(entry.namespace, entry.pod, ToUpper(entry.level), entry.message,
                           ParseTimestamp(entry.timestamp, fallback, parse));
      logs := [rec] + logs;
    }

    /** AppendEvent: the event goes in front, timestamp parsed or the fallback. */
    method AppendEvent(ev: Event, fallback: Instant, parse: string -> Option<Instant>)
      modifies this
      ensures events == [EventRecordOf(ev, fallback, parse)] + old(events)
      ensures logs == old(logs)
    {
      var rec := EventRecord(ev.namespace, ev.kind, ev.name, ev.eventType, ev.reason, ev.message, ev.count,
                             ParseTimestamp(ev.timestamp, fallback, parse));
      events := [rec] + events;
    }

    /** UniqueNamespaces: every namespace of a line or an event, once, ascending. */
    method UniqueNamespaces() returns (r: seq<string>)
      ensures forall x :: x in r <==> x in LogNamespaces(logs) || x in EventNamespaces(events)
      ensures StrictlyAscending(r)
    {
      var found: set<string> := {};
      for i := 0 to |logs|
        invariant found == LogNamespaces(logs[..i])
      {
        assert logs[..i + 1] == logs[..i] + [logs[i]];
        found := found + {logs[i].namespace};
      }
      assert logs[..|logs|] == logs;
      for i := 0 to |events|
        invariant found == LogNamespaces(logs) + EventNamespaces(events[..i])
      {
        assert events[..i + 1] == events[..i] + [events[i]];
        found := found + {events[i].namespace};
      }
      assert events[..|events|] == events;
      r := SortedMembers(found);
    }

    /** UniquePods: every pod of a line, once, ascending. */
    method UniquePods() returns (r: seq<string>)
      ensures forall x :: x in r <==> x in LogPods(logs)
      ensures StrictlyAscending(r)
    {
      var found: set<string> := {};
      for i := 0 to |logs|
        invariant found == LogPods(logs[..i])
      {
        assert logs[..i + 1] == logs[..i] + [logs[i]];
        found := found + {logs[i].pod};
      }
      assert logs[..|logs|] == logs;
      r := SortedMembers(found);
    }

    /** DescribeFilters: the three drop-down lists. */
    method DescribeFilters() returns (r: FilterChoices)
      ensures forall x :: x in r.namespaces <==> x in LogNamespaces(logs) || x in EventNamespaces(events)
      ensures StrictlyAscending(r.namespaces)
      ensures forall x :: x in r.pods <==> x in LogPods(logs)
      ensures StrictlyAscending(r.pods)
      ensures r.levels == UniqueLevels()
    {
      var namespaces := UniqueNamespaces();
      var pods := UniquePods();
      r := FilterChoices(namespaces, pods, UniqueLevels());
    }

    /** Summarize: a ten-line page holds min(10, #lines) lines; every event is counted. */
    method Summarize(fmt: Formatter) returns (r: Overview)
      ensures r.recent == if |logs| < 10 then |logs| else 10
      ensures r.events == |events|
    {
      EmptyFilterCriteria();
      FilteredEverything(logs);
      var page := ListLogs(LogFilter("", "", "", 10), fmt);
      var all := ListEvents(fmt);
      assert |all| == |multiset(all)| == |events|;
      r := Overview(|page|, |all|);
    }
  }

  lemma EmptyFilterCriteria()
    ensures CriteriaOf(LogFilter("", "", "", 10)) == Criteria("", "", "")
  {
    assert ToLower("") == "";
    assert ToUpper("") == "";
  }

  /** The filter of the Go test: level "error" means exactly ERROR after normalisation. */
  lemma ErrorFilterCriteria()
    ensures CriteriaOf(LogFilter("", "", "error", 10)) == Criteria("", "", LevelError)
  {
    assert ToLower("") == "";
    var u := ToUpper("error");
    assert u == LevelError by {
      assert |u| == |LevelError|;
      forall i | 0 <= i < |u| ensures u[i] == LevelError[i] {
        assert u[i] == UpperChar("error"[i]);
      }
    }
    assert Trimmed(LevelError);
    TrimSpaceIdempotent(LevelError);
  }

  /** A selected record in the store makes the filtered store non-empty. */
  lemma FilteredNonEmpty(s: seq<LogRecord>, c: Criteria, k: nat)
    requires k < |s| && SelectsRecord(c, s[k])
    ensures |Filtered(s, c)| > 0
  {
    FilteredMembers(s, c, s[k]);
  }

  /** The seed holds ERROR lines. */
  lemma SeedHasErrors(now: Instant)
    ensures |Filtered(DefaultLogs(now), Criteria("", "", LevelError))| > 0
  {
    var s := DefaultLogs(now);
    assert s[3].level == LevelError;
    FilteredNonEmpty(s, Criteria("", "", LevelError), 3);
  }

  /** The Go test's level filter: the seed holds ERROR lines, and every line returned is one. */
  method ErrorLevelScenario(t0: Instant, fmt: Formatter)
  {
    var store := new Store(t0);
    ErrorFilterCriteria();
    SeedHasErrors(t0);
    var errors := store.ListLogs(LogFilter("", "", "error", 10), fmt);
    assert |errors| > 0;
    assert forall e :: e in errors ==> e.level == LevelError;
  }

  /** The namespace filter of the Go test: "prod" is already lower-case and trimmed, so it stays "prod". */
  lemma ProdFilterCriteria()
    ensures CriteriaOf(LogFilter("prod", "", "", 5)) == Criteria("prod", "", "")
  {
    assert ToLower("") == "";
    assert ToUpper("") == "";
    var l := ToLower("prod");
    assert l == "prod" by {
      forall i | 0 <= i < |l| ensures l[i] == "prod"[i] {
        assert l[i] == LowerChar("prod"[i]);
      }
    }
    assert Trimmed("prod");
    TrimSpaceIdempotent("prod");
  }

  /** The seed holds prod lines, and every line the prod criteria select is a prod line. */
  lemma SeedProdLines(now: Instant)
    ensures |Filtered(DefaultLogs(now), Criteria("prod", "", ""))| > 0
    ensures forall rec :: rec in Filtered(DefaultLogs(now), Criteria("prod", "", "")) ==> rec.namespace == "prod"
  {
    var s := DefaultLogs(now);
    var c := Criteria("prod", "", "");
    assert s[3].namespace == "prod";
    assert ToLower("prod") == "prod" by {
      ProdFilterCriteria();
    }
    FilteredNonEmpty(s, c, 3);
    forall rec | rec in Filtered(s, c) ensures rec.namespace == "prod" {
      FilteredMembers(s, c, rec);
      assert rec.namespace in {"default", "prod", "batch"};
      assert |ToLower(rec.namespace)| == |rec.namespace| == 4;
    }
  }

  /**
   * The Go test's namespace filter: the seed holds prod lines, at most five
   * come back, each from namespace prod and each with a timestamp, given a
   * timestamp format that never yields the empty text (RFC 3339 does not).
   */
  method ProdNamespaceScenario(t0: Instant, fmt: Formatter)
    requires forall t :: fmt(t) != ""
  {
    var store := new Store(t0);
    ProdFilterCriteria();
    SeedProdLines(t0);
    var prod := store.ListLogs(LogFilter("prod", "", "", 5), fmt);
    assert 0 < |prod| <= 5;
    forall e | e in prod ensures e.namespace == "prod" && e.timestamp != "" {
      var f := Filtered(store.logs, Criteria("prod", "", ""));
      var j :| 0 <= j < |prod| && prod[j] == e;
      assert f[j] in f;
    }
  }

  /** The Go test's event listing: the seed holds events, and no event's timestamp is later than the one before it. */
  method EventsOrderingScenario(t0: Instant, fmt: Formatter)
  {
    var store := new Store(t0);
    var r := store.ListEvents(fmt);
    assert |r| > 0 by {
      assert |multiset(r)| == |multiset(EventsOf(store.events, fmt))|;
    }
    assert forall i :: 1 <= i < |r| ==> !Less(r[i - 1].timestamp, r[i].timestamp);
  }
}
