# Mock Kubernetes dashboard backend — a verified Dafny model

The dashboard's backend serves mock cluster data from in-memory stores, one
per resource kind:

- deployments (list, detail, scale);
- namespaces (list, create with label defaults, delete);
- nodes (list with CPU and memory percentages, detail);
- pods (list, detail with events);
- services (list, detail with ports and selectors);
- logs and events (filtered log pages, newest-first events, filter choices, an overview);
- imported kubeconfig files (parse a decoded document, keep a newest-first ledger).

This project models those stores and the pure helpers they share. It proves
what each operation returns and how it changes the store.

Layout: one Dafny module per Go package, plus shared helpers.

| file | module | models |
|---|---|---|
| wrappers.dfy | Wrappers | `Option` and `Result` |
| text.dfy | Text | `strings.TrimSpace`, ASCII `ToLower`/`ToUpper`, byte-wise string order, `%d` rendering |
| maps.dfy | Maps | the `for ... range` loop over a store's map that every `List` runs |
| sorting.dfy | Sorting | `sort.Slice` / `sort.Strings` as an insertion sort: sorted and a permutation |
| clock.dfy | Clock | `formatAge` (the same function in five packages), defined once |
| deploy.dfy | Deploy | internal/deploy/store.go |
| namespace.dfy | Namespaces | internal/namespace/store.go |
| node.dfy | Nodes | internal/node/store.go |
| pod.dfy | Pods | internal/pod/store.go |
| service.dfy | Services | internal/service/store.go |
| logs.dfy | Logs | internal/logs/store.go |
| kubeconfig.dfy | Kubeconfig | internal/kubeconfig/store.go and parser.go |

How the Go maps to Dafny:

- Each store is a `class`. Maps keyed by name (or "namespace/name") are a `map` field. The log and kubeconfig lists are `seq` fields. Every mutating method states the whole new state with `old(...)`.
- Go's `for ... range` over a map visits keys in an unspecified order. Here that walk is a loop that picks any remaining key (`:|`). So every property is proved for every visiting order. The walk of every `List` is written once, as `Maps.Collect`, which takes the per-record view as a function argument.
- Instants and durations are integers counting nanoseconds, as `time.Duration` does.
- RFC3339 formatting is an uninterpreted function parameter `fmt`. `time.Parse` is a parameter `parse`. The `time.Now()` fallback of `AppendLog` and `AppendEvent` is a parameter `fallback`.
- Each Go test's assertions are restated as a scenario method or lemma: `Deploy.ListScenario`, `Deploy.ScaleScenario`, `Namespaces.ListScenario`, `Namespaces.CreateDeleteScenario`, `Namespaces.InvalidNameScenario`, `Nodes.ListScenario`, `Nodes.GetScenario`, `Pods.ListScenario`, `Pods.GetScenario`, `Services.ListScenario`, `Services.GetScenario`, `Logs.ProdNamespaceScenario`, `Logs.ErrorLevelScenario`, `Logs.EventsOrderingScenario`, `Kubeconfig.ParseSample`, `Kubeconfig.ParseMissingClusters` and `Kubeconfig.ImportScenario`. The verifier checks these against the store contracts, and the lemmas about seed data support them.

Where the code and its prose description differ, the model follows the code:

- `ListLogs` trims only the filter values. The namespace and pod of each stored line are lower-cased but not trimmed before the comparison.
- `ListEvents` sorts by the formatted timestamp string, not by the instant.
- Kubeconfig `Parse` picks the summary name before trimming. So a current context made only of white space produces an empty name, even when contexts exist (`Kubeconfig.BlankCurrentContextEmptiesName`). This is the one case in which parsing is not stable (`Kubeconfig.ParseUnparse`).

## Model

| member | source | states |
|---|---|---|
| Text.TrimSpace | internal/namespace/store.go:76 | the result has no white space at either end and is no longer than the input; a string already without surrounding white space comes back unchanged |
| Text.TrimSpaceSliceOf | internal/namespace/store.go:76 | what trimming keeps is a contiguous slice of the input, with only white space before and after it |
| Text.TrimSpaceIdempotent | internal/kubeconfig/parser.go:42 | trimming a trimmed string changes nothing, so trimming twice is trimming once |
| Text.TrimAllSpace | internal/kubeconfig/parser.go:56 | trimming a string made only of white space gives the empty string |
| Text.CaseMappedBlank | internal/logs/store.go:93-95 | a filter value of white space only is still empty after case mapping and trimming, so it filters nothing |
| Text.LessEqTotalOrder | internal/namespace/store.go:68-70 | the string order used by every sort is reflexive, total, antisymmetric and transitive |
| Text.LessEqPairTotalOrder | internal/deploy/store.go:102-107 | ordering by namespace and then name is total and transitive |
| Text.NatToStringRoundTrip | internal/deploy/store.go:218-224 | the decimal text of a natural number reads back as that number |
| Maps.Collect | internal/deploy/store.go:97-100 | the loop every `List` runs over a store's map visits each key exactly once (the visited keys are distinct and are exactly the map's keys), and the i-th view is the view of the i-th visited entry |
| Maps.Index | internal/deploy/store.go:84-90 | the loop every `NewStore` runs: each seed record sits under its own key, every entry is a seed record, and with distinct keys there are as many entries as seed records |
| Maps.CollectMembers | internal/deploy/store.go:97-100 | the collected views number the entries of the map, every entry's view is among them and nothing else is |
| Maps.CollectDistinct | internal/deploy/store.go:97-100 | when each view names the key it was stored under, no view is collected twice |
| Maps.KeyOrderTotal | internal/namespace/store.go:68-70 | any order that compares one string field, as the sorts by name do, is total and transitive |
| Maps.PairOrderTotal | internal/deploy/store.go:102-107 | any order that compares namespace and then name is total and transitive |
| Sorting.SortBySorted | internal/deploy/store.go:102-107 | sorting with a total preorder gives a sorted sequence, which `SortBy`'s own contract makes a permutation of the input |
| Sorting.DistinctPermutation | internal/logs/store.go:280-284 | sorting the set's members keeps them duplicate-free: a permutation of a duplicate-free sequence is duplicate-free |
| Clock.AgeTextOf | internal/deploy/store.go:205-225 | a negative duration counts as 0; at least a day gives days and the hours within the day; otherwise at least an hour gives hours and the minutes within the hour; otherwise minutes and the seconds within the minute |
| Clock.FormatAge | internal/deploy/store.go:205-225 | the age text always has at least a number and a unit letter, so it is never empty |
| Clock.Split | internal/deploy/store.go:210-214 | the day, hour, minute and second components satisfy hours < 24, minutes < 60 and seconds < 60, and recompose to the duration less under one second |
| Clock.FormatAgeBounds | internal/deploy/store.go:216-224 | every age text reads back in one of three shapes, with days >= 1 and hours < 24, hours >= 1 and minutes < 60, or minutes < 60 and seconds < 60 |
| Clock.ParseRender | internal/deploy/store.go:216-224 | every rendered age text reads back as the same shape and numbers |
| Clock.RenderInjective | internal/deploy/store.go:216-224 | different age shapes or numbers never render to the same text |
| Clock.FormatAgeNegative | internal/deploy/store.go:206-208 | any negative duration reads "0m0s" |
| Clock.FormatAgeThirtySixHours | internal/service/store_test.go:66-68 | 36 hours reads "1d12h" |
| Clock.SplitMonotone | internal/deploy/store.go:205-225 | a longer duration never has lexicographically smaller components |
| Clock.ComposeLexicographic | internal/deploy/store.go:210-214 | components in range that are lexicographically larger denote a duration at least one second longer |
| Deploy.DeriveStatus | internal/deploy/store.go:156-162 | "Healthy" exactly when ready equals desired; otherwise "Down" exactly when ready is 0; otherwise "Updating" |
| Deploy.DecorateSummary | internal/deploy/store.go:153-164 | only age and status change; age is formatAge(now - created), status is derived from the replica counts |
| Deploy.CopyMap | internal/deploy/store.go:194-203 | an empty map becomes nil (`None`); any other map is copied entry for entry |
| Deploy.ToDetail | internal/deploy/store.go:166-192 | the detail the condition loop builds is exactly `DetailOf` |
| Deploy.DetailOf | internal/deploy/store.go:166-192 | the detail has the decorated summary; labels and selector are nil exactly when empty and otherwise equal the record's; containers and revision are kept; one condition per record condition, in order, keeping its type, status and message |
| Deploy.ScaledEffect | internal/deploy/store.go:134-145 | a successful scale sets desired to the request, lowers ready and updated counts above it to it and leaves the others, bumps the revision by one, stamps the update time, changes nothing else and keeps 0 <= ready, updated <= desired |
| Deploy.ScaledStatus | internal/deploy/store.go:134-145 | after scaling to n the status is Healthy exactly when at least n replicas were ready, Down exactly when none were and n > 0, Updating otherwise |
| Deploy.Scaled | internal/deploy/store.go:134-145 | the scaled record keeps its key, has the requested desired count and the next revision, and keeps 0 <= ready, updated <= desired for a non-negative request |
| Deploy.ScaleUpFromHealthy | internal/deploy/store.go:134-145 | scaling a healthy deployment up makes it Updating, or Down when it had no ready replica |
| Deploy.ScaleTwice | internal/deploy/store.go:134-145 | scaling twice to the same count leaves the same summary as scaling once; the revision grows by two and the update time is the second one |
| Deploy.SeedWellFormed | internal/deploy/store.go:231-335 | the seed keys are distinct and every seed record has consistent replica counts |
| Deploy.Store.constructor | internal/deploy/store.go:84-90 | the store holds exactly the seed records, each under its "namespace/name" key, one entry per seed record |
| Deploy.Store.List | internal/deploy/store.go:93-110 | one decorated summary per record and nothing else, no summary twice, sorted by namespace then name |
| Deploy.Store.Get | internal/deploy/store.go:113-123 | success exactly when some record has the name, returning that record's detail; otherwise NotFound |
| Deploy.Store.Scale | internal/deploy/store.go:126-151 | a count outside 0..200 gives InvalidReplicas and changes nothing; a name no record has gives NotFound and changes nothing; otherwise one record with that name is replaced by its scaled form, no other changes, and its new detail is returned |
| Deploy.SeedFrontendEntry | internal/deploy/store_test.go:30-37 | in a seeded store exactly one deployment is named frontend, with four desired replicas at revision 7 and consistent counts, and none is named "missing" |
| Deploy.SeedListBatchFirst | internal/deploy/store_test.go:12-19 | a sorted listing of the seeded store starts with a batch deployment |
| Deploy.BatchFirst | internal/deploy/store_test.go:17-19 | in a list sorted by namespace, a batch entry comes first when there is one |
| Deploy.ListedAges | internal/deploy/store_test.go:21-23 | every listed deployment shows a non-empty age |
| Namespaces.PatternMatchesAutomaton | internal/namespace/store.go:20 | the written-out name pattern `^[a-z0-9]([-a-z0-9]*[a-z0-9])?$` accepts exactly what the left-to-right scanner accepts |
| Namespaces.ScanTail | internal/namespace/store.go:20 | after the first character, the scanner accepts exactly when every character is a lowercase letter, digit or hyphen and the last is not a hyphen |
| Namespaces.ValidNameTrimmed | internal/namespace/store.go:76-79 | a name that passes the check has no surrounding white space |
| Namespaces.MergeLabels | internal/namespace/store.go:146-157 | the label keys are the custom keys plus the two defaults; custom values win; each default fills in only where no custom value is given |
| Namespaces.ToNamespace | internal/namespace/store.go:113-122 | the view keeps name, status and labels; its age is formatAge(now - created) and its creation time is formatted |
| Namespaces.Store.constructor | internal/namespace/store.go:45-55 | the store holds exactly the seed namespaces, each under its name |
| Namespaces.Store.List | internal/namespace/store.go:58-72 | one view per namespace and nothing else, no view twice, sorted by name |
| Namespaces.Store.Create | internal/namespace/store.go:75-97 | the name is trimmed first; an invalid name (empty, over 63 characters, or not matching the pattern) gives InvalidName and an existing one gives Exists, both changing nothing; otherwise exactly one active namespace is added, created now, with merged labels |
| Namespaces.Store.Delete | internal/namespace/store.go:100-111 | returns true exactly when the trimmed name was present; afterwards it is absent and nothing else changed |
| Namespaces.CreateFresh | internal/namespace/store_test.go:30-41 | creating a new valid name adds it and changes no other entry; the namespace returned has that name and every label the caller gave, with its value |
| Namespaces.CreateExisting | internal/namespace/store_test.go:43-45 | creating a name already present changes nothing |
| Namespaces.CreateDeleteWalk | internal/namespace/store_test.go:26-54 | creating a new valid name returns it with the caller's labels; creating it again and deleting it twice leaves the store as it was |
| Namespaces.InvalidNameRejected | internal/namespace/store_test.go:56-63 | "Invalid_Name" is already trimmed and fails the name check |
| Namespaces.SeedListDefaultFirst | internal/namespace/store_test.go:12-19 | a sorted listing of the seeded store starts with default |
| Namespaces.ListedAges | internal/namespace/store_test.go:21-23 | every listed namespace shows a non-empty age |
| Nodes.MathPow10 | internal/node/store.go:219-226 | the loop computes 10 to the power, 1 for a power of zero or less |
| Nodes.Percentage | internal/node/store.go:200-212 | the result is in 0..100; zero capacity or a negative ratio gives 0; a ratio over 100 gives 100; otherwise it is the ratio rounded to one decimal, off by at most 0.05 |
| Nodes.RoundOneDecimal | internal/node/store.go:214-217 | rounding a percentage to one decimal stays in 0..100 and moves it by at most 0.05 |
| Nodes.SummaryOf | internal/node/store.go:138-167 | the summary keeps name, status, roles and version, has the formatted age and pod counts, and CPU and memory percentages in 0..100 with units "cores" and "GiB" |
| Nodes.ToDetail | internal/node/store.go:169-198 | the detail the condition and label loops build is exactly `DetailOf` |
| Nodes.DetailOf | internal/node/store.go:169-198 | the detail has the node's summary, equal labels and taints, and one condition per record condition, in order, keeping its type, status and message, with its heartbeat and transition instants formatted |
| Nodes.Store.List | internal/node/store.go:109-123 | one summary per node and nothing else, no summary twice, sorted by name |
| Nodes.Store.Get | internal/node/store.go:126-136 | NotFound exactly when no node has the name; otherwise that node's detail |
| Nodes.SeedStoreNames | internal/node/store_test.go:12-15 | the seeded store holds exactly node-1, node-2 and node-3 |
| Nodes.NodeOneFirst | internal/node/store_test.go:17-19 | in a list sorted by name, node-1 comes first when present among node-1, node-2 and node-3 |
| Nodes.SeedListed | internal/node/store_test.go:12-27 | listing the seeded store gives three summaries, node-1 among them, each with CPU in cores and a positive pod capacity |
| Pods.DecorateSummary | internal/pod/store.go:115-119 | only the age changes, to formatAge(now - created) |
| Pods.DecorateEvent | internal/pod/store.go:124-128 | an event with a timestamp is unchanged; one without gets the stamp; no other field changes |
| Pods.DecorateEvents | internal/pod/store.go:121-131 | the same events in order; those without a timestamp get the formatted `now`, the others are unchanged |
| Pods.DecoratedEventsIdempotent | internal/pod/store.go:121-131 | decorating twice is decorating once, and with a non-empty stamp no event is left without a timestamp |
| Pods.DetailOf | internal/pod/store.go:100-108 | the detail has the decorated summary, the same containers and log lines, one event per stored event, and every event timestamped when the formatted `now` is non-empty |
| Pods.Store.List | internal/pod/store.go:75-92 | one decorated summary per pod and nothing else, no summary twice, sorted by namespace then name |
| Pods.Store.Get | internal/pod/store.go:95-113 | success exactly when some pod has the name, whatever its namespace, returning its detail with decorated events; otherwise NotFound |
| Pods.SeedListBatchFirst | internal/pod/store_test.go:12-19 | listing the seeded store puts a batch pod first |
| Pods.ListedAges | internal/pod/store_test.go:21-23 | every listed pod shows a non-empty age |
| Pods.BatchFirst | internal/pod/store_test.go:8-24 | in the sorted list, a pod of namespace batch comes first when there is one |
| Services.CopyPorts | internal/service/store.go:127-138 | a slice of the same length, each port with equal fields and a node port present exactly when the original has one, with the same value |
| Services.CopyMap | internal/service/store.go:140-149 | always a map, never nil, with exactly the entries of the input |
| Services.Decorate | internal/service/store.go:119-125 | the copied summary equals the input apart from its age, which is formatAge(now - created) |
| Services.DetailOf | internal/service/store.go:103-112 | the detail has the decorated summary, equal selector, endpoints and related pods, the formatted creation time and the description |
| Services.SortedThree | internal/service/store.go:88-93 | in a sorted list of three, members whose namespaces strictly increase appear in that order |
| Services.Store.List | internal/service/store.go:79-96 | one decorated summary per service and nothing else, no summary twice, sorted by namespace then name |
| Services.Store.Get | internal/service/store.go:99-117 | NotFound exactly when the name is absent; otherwise the service's detail |
| Services.SeedListOrder | internal/service/store_test.go:8-35 | the seeded list is batch-metrics, then frontend, then edge-gateway |
| Services.SeedEdgeGateway | internal/service/store_test.go:37-68 | edge-gateway is Pending, selects app=edge-gateway, has endpoints and was created 36 hours before `now` |
| Logs.EffectiveLimit | internal/logs/store.go:88-91 | the limit is the requested one when it lies in 1..200, otherwise 50 |
| Logs.CriteriaOf | internal/logs/store.go:93-95 | each criterion has no surrounding white space, is no longer than the filter value, and is empty when the value is white space only |
| Logs.Filtered | internal/logs/store.go:99-121 | the selected lines are never more than the stored ones (which lines: `Logs.FilteredMembers`) |
| Logs.FilteredMembers | internal/logs/store.go:98-106 | a line is selected exactly when it is stored and passes the namespace, pod and level criteria |
| Logs.FilteredPrefix | internal/logs/store.go:97-121 | the lines selected from a prefix of the store are a prefix of those selected from the whole store |
| Logs.FilteredPrepend | internal/logs/store.go:225-237 | a line added in front is selected first if it passes, and the rest are selected as before |
| Logs.FilteredEverything | internal/logs/store.go:98-106 | empty criteria select every line, in order |
| Logs.Normalise | internal/logs/store.go:88-95 | the limit is the effective one; the namespace and pod criteria are lower-cased then trimmed, the level criterion upper-cased then trimmed |
| Logs.Keeps | internal/logs/store.go:99-107 | a line is kept exactly when it passes the namespace, pod and level criteria |
| Logs.SelectLines | internal/logs/store.go:97-121 | the entries are the first min(limit, number selected) selected lines, in store order |
| Logs.Store.ListLogs | internal/logs/store.go:84-124 | with the filter trimmed and case-mapped and the limit defaulted, the result is the first min(limit, number selected) selected lines, each passing the filter |
| Logs.Store.ListEvents | internal/logs/store.go:127-150 | every event exactly once (a permutation), sorted so that the latest timestamp comes first |
| Logs.NewerFirstTotal | internal/logs/store.go:144-146 | the newest-first order is total and transitive |
| Logs.ParseTimestamp | internal/logs/store.go:239-247 | the parsed instant when the text is non-empty and parses; the fallback otherwise |
| Logs.EntryRoundTrip | internal/logs/store.go:225-237 | appending the entry of a stored line rebuilds that line, when the timestamp format reads back and the level is upper case |
| Logs.Store.AppendLog | internal/logs/store.go:225-237 | the line, with its level upper-cased and its time parsed, goes in front of the others; events are unchanged |
| Logs.Store.AppendEvent | internal/logs/store.go:250-265 | the event, with its time parsed, goes in front of the others; lines are unchanged |
| Logs.SortedMembers | internal/logs/store.go:279-285 | the distinct members of a set in strictly ascending order |
| Logs.StrictlyAscendingUnique | internal/logs/store.go:279-285 | two strictly ascending lists with the same members are equal, so the result does not depend on map iteration order |
| Logs.Store.UniqueNamespaces | internal/logs/store.go:268-286 | exactly the namespaces of lines and events, each once, ascending |
| Logs.Store.UniquePods | internal/logs/store.go:289-303 | exactly the pods of the lines, each once, ascending |
| Logs.UniqueLevels | internal/logs/store.go:306-308 | INFO, WARN and ERROR, each once |
| Logs.Store.DescribeFilters | internal/logs/store.go:311-317 | the namespace and pod choices as above, and the three levels |
| Logs.Store.Summarize | internal/logs/store.go:320-327 | recent is min(10, number of lines); events is the number of events |
| Logs.RelativeText | internal/logs/store.go:330-348 | a future target counts as now; at least a day gives days and hours; at least an hour gives hours and minutes; otherwise whole minutes |
| Logs.FormatRelative | internal/logs/store.go:330-348 | the rendered relative text reads back as exactly the shape and numbers `RelativeText` chose |
| Logs.RelativeMatchesAgeFromAnHour | internal/logs/store.go:330-348 | from one hour on, the relative text equals the age text |
| Logs.RelativeDropsSeconds | internal/logs/store.go:344-346 | under an hour (or for a future target), the relative text is the age text without its seconds part |
| Logs.RelativeFutureIsZero | internal/logs/store.go:331-333 | a target after now reads "0m" |
| Logs.RelativeBounds | internal/logs/store.go:330-348 | the relative text never shows seconds, and has days >= 1 and hours < 24, hours in 1..23 and minutes < 60, or minutes < 60 |
| Logs.ErrorFilterCriteria | internal/logs/store_test.go:8-34 | a level filter "error" becomes the criterion ERROR |
| Logs.SeedHasErrors | internal/logs/store_test.go:8-34 | the seed has at least one ERROR line |
| Logs.ProdFilterCriteria | internal/logs/store_test.go:12 | the namespace filter "prod" with limit 5 becomes the criteria (prod, any pod, any level) |
| Logs.SeedProdLines | internal/logs/store_test.go:12-19 | the seed holds prod lines, and every line the prod criteria select is from namespace prod |
| Kubeconfig.TrimClusters | internal/kubeconfig/parser.go:40-43 | one cluster per decoded cluster, in order, with name and server trimmed |
| Kubeconfig.TrimContexts | internal/kubeconfig/parser.go:45-48 | one context per decoded context, in order, with name, cluster and user trimmed |
| Kubeconfig.SummaryName | internal/kubeconfig/parser.go:50-56 | the trimmed current context when it is non-empty; else the trimmed first context name; else empty |
| Kubeconfig.Parse | internal/kubeconfig/parser.go:31-61 | a decoding error is passed on; no clusters gives MissingClusters; otherwise the trimmed clusters and contexts, the chosen name, the trimmed current context and the import time |
| Kubeconfig.ParseNormalises | internal/kubeconfig/parser.go:40-60 | every string in a parsed summary is trimmed, and there is at least one cluster |
| Kubeconfig.NameRoundTrip | internal/kubeconfig/parser.go:50-56 | choosing the name from the trimmed current context gives the same name, except when it is white space only and a non-empty first context name exists |
| Kubeconfig.ParseUnparse | internal/kubeconfig/parser.go:36-61 | reparsing a parsed summary gives it back exactly when that white-space case does not arise |
| Kubeconfig.BlankCurrentContextEmptiesName | internal/kubeconfig/parser.go:50-56 | a current context of white space only gives an empty name even when contexts exist |
| Kubeconfig.ParseSingle | internal/kubeconfig/parser.go:36-61 | a document with one cluster, one context and a non-empty current context, all without surrounding white space, parses to the same strings, named after the current context |
| Kubeconfig.ParseSample | internal/kubeconfig/parser_test.go:22-39 | the test document parses to name prod-context, the single cluster prod at https://example.com and the single context prod-context on cluster prod for user admin |
| Kubeconfig.ParseMissingClusters | internal/kubeconfig/parser_test.go:41-46 | a document without clusters is refused |
| Kubeconfig.Store.constructor | internal/kubeconfig/store.go:37-39 | a new ledger is empty |
| Kubeconfig.Store.List | internal/kubeconfig/store.go:42-49 | a sequence equal to the stored imports; the ledger is unchanged |
| Kubeconfig.Store.Add | internal/kubeconfig/store.go:52-58 | the summary goes in front and the earlier imports follow in their old order |
| Kubeconfig.AddTwice | internal/kubeconfig/store.go:57 | there is no deduplication: adding the same summary twice lists it twice more |

## Left out

- Locking (`sync.RWMutex` in every store): each method is modelled as one atomic step.
- YAML decoding in kubeconfig `Parse`: the model takes the decoder's outcome as input, either a decoded document or an error message.
- The HTTP handlers and routing in internal/server, the embedded page, and process start-up in cmd/dashboard: I/O plumbing.
- internal/cluster/overview.go: constant fixture data. Its only logic is RFC3339 formatting.
- RFC3339 formatting and `time.Parse`: uninterpreted function parameters. `time.Now()` as the `AppendLog`/`AppendEvent` fallback is a parameter. `now.UTC()` in namespace `Create` is the identity on integer instants.
- Unicode case mapping: `ToLower`/`ToUpper` map ASCII letters only. White space follows `unicode.IsSpace`.
- Nodes.Percentage: models `float64` arithmetic as exact reals, so binary rounding error in the division and in `math.Round` is not modelled. `round` is only called with one decimal.
- nil versus empty slices: a copied slice is the same sequence. Only deploy's `copyMap`, which returns nil for an empty map, is distinguished, as `None`.
- Services.Store.List: values have no identity, so the slice copies that `decorate` makes for each listed summary are not modelled. The list holds the decorated summaries, which `Services.Decorate` shows equal to those copies.
- Clock.AgeTextOf, Logs.RelativeText: durations are unbounded integers, so Go's saturation of `now.Sub(created)` at ±(2^63 − 1) ns, before formatAge, FormatRelative and toNamespace see it, is not modelled.
- Deploy.Store.Scale: does not model wrap-around of the `Revision` counter at 2^63. It is an unbounded integer.
- Nodes.GetScenario: the test's heartbeat check depends on RFC3339 formatting, which is a parameter here, so the scenario takes a format that never yields empty text.
- Logs.ProdNamespaceScenario: the test's "timestamp is filled" check depends on RFC3339 formatting, which is a parameter here, so the scenario takes a format that never yields empty text.
- Logs.Store.ListLogs: the unused `now` argument of `ListLogs`, `ListEvents` and `Summarize` is dropped.
- Iteration order of Go maps: every loop over a map is proved for every order. The order Go happens to pick is not modelled.
- Seed data: the Chinese description strings are kept verbatim. Log and event seed times are offsets from `now`.
