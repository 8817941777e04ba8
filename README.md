# Consumer-offset collection: a Dafny model of `conoffsetcollect.Collect`

This project models `Collect` from `src/conoffsetcollect/collect.go` of nri-kafka. That is the
entry point that picks the Kafka consumer groups whose offsets are collected and drives their
collection. Every external call is an abstract collaborator: the client and cluster admin,
`ListConsumerGroups`, `DescribeConsumerGroups`, the topic-partition resolver, the two offset
readers, the record assembler and the metric setter. Each run records the calls it makes as a
trace of events, and the properties are proved about that trace.

- **Modules.** `OffsetModel` (model.dfy) holds the data model: `partitionOffsets`, `TopicPartitions`, the configuration, the collaborators (`Backend`), the errors and the trace events. `GroupSelection` (groupselection.dfy) holds the regex-mode group list and selection loop. `StaticCollection` (staticcollection.dfy) holds the static-mode loop. `ConOffsetCollect` (collect.dfy) holds `Collect`, its mode dispatch and the run-level lemmas. `Wrappers` holds `Option` and `Result`.
- **Map iteration.** Go leaves the order unspecified. Both loops over a map pick the next key with `:|` from the keys not yet visited, so every proof holds for any order. The order actually used is returned, and `Enumerates` ties it to the map's keys.
- **Goroutines.** The `go collectOffsetsForConsumerGroup(...)` call is modelled as a `Dispatch` event carrying the group's id and members, in the order the goroutines are started.
- **Regex.** The configured regex is modelled as an arbitrary total predicate on group ids.
- **Group list.** As written, the list handed to `DescribeConsumerGroups` begins with `len(m)` empty ids. `make([]string, len(m))` creates them and the keys are then appended. The model keeps this, and `GroupListHasBlanks` states it. What the admin client does with empty ids is not part of this model.
- **Behaviour of `collect.go` worth knowing:**
  - When both a regex and static groups are configured, the regex wins: it is tested first (collect.go:50) and the static groups are consulted only in the `else if` (collect.go:96).
  - A static group is skipped when its resolved `TopicPartitions` map has no topics (`len` of the map, collect.go:102). A topic with an empty partition list still counts.
  - Unmatched groups and groups over the cap go into two separate reports (collect.go:87-93). Each report is made only when its list is non-empty.
  - `fillTopicPartitions` returns no error (collect.go:101); how it reports a failure is up to its body, which is not modelled.

## Model

| member | source | states |
|---|---|---|
| `GroupSelection.BuildGroupList` | src/conoffsetcollect/collect.go:59-62 | The id list has length 2·len(m). Its first len(m) entries are `""`. The rest lists every key of the map exactly once and nothing else, in whatever order the map is iterated. |
| `GroupSelection.GroupListHasBlanks` | src/conoffsetcollect/collect.go:59-62 | The list is len(m) blanks followed by the keys; `""` occurs at least len(m) times, so for a non-empty map the list contains `""`. |
| `GroupSelection.SelectAndDispatch` | src/conoffsetcollect/collect.go:69-85 | At most 200 groups are dispatched. dispatched is the first min(200, #matches) matching groups in input order. skipped is the ids of the remaining matches, so ids(dispatched) ++ skipped is exactly the matching ids. unmatched is the ids of the rejected groups in input order. numCollected counts the matches. skipped is non-empty iff more than 200 matched. The three lists split the input ids as a multiset. An id is unmatched iff it was described and the regex rejects it. |
| `GroupSelection.MatchingPartition` | src/conoffsetcollect/collect.go:73-85 | As multisets, the matching ids plus the non-matching ids are exactly the described ids, and the two counts add up to the number of groups. |
| `GroupSelection.UnmatchedIds` | src/conoffsetcollect/collect.go:82-84 | An id is in the unmatched list iff some described group has it and the regex rejects it. |
| `GroupSelection.MatchedIds` | src/conoffsetcollect/collect.go:74-81 | An id is among the matching groups iff some described group has it and the regex accepts it. |
| `StaticCollection.CollectStatic` | src/conoffsetcollect/collect.go:100-121 | Visits every configured group exactly once, in some order. The trace is the concatenation of each visited group's steps in that order. |
| `StaticCollection.StaticTraceAbout` | src/conoffsetcollect/collect.go:100-121 | The events about group g in a static run are exactly g's own steps when g was visited, and none otherwise. |
| `StaticCollection.StaticGroupEvents` | src/conoffsetcollect/collect.go:101-120 | A group whose topics resolve to an empty map gets only the resolve step and the "no topics" report: no read and no emission. Every other group gets, in order: resolve, read offsets, read high-water marks for the same topic-partitions, assemble, emit the assembled records. |
| `StaticCollection.StaticReadsInOrder` | src/conoffsetcollect/collect.go:98-118 | In a static run every high-water-mark read comes immediately after the same group's offset read for the same topic-partitions. Every assembly comes immediately after that group's high-water-mark read, and every emission immediately after its assembly. |
| `StaticCollection.StaticTraceIgnoresErrors` | src/conoffsetcollect/collect.go:107-120 | Two backends whose readers return the same data and differ only in their errors give the same static trace. Read and emit failures stop neither later steps nor later groups. |
| `ConOffsetCollect.Collect` | src/conoffsetcollect/collect.go:28-127 | The order used enumerates the keys of the map the run ranged over. The returned error and the trace equal `ExpectedRun` for that order. `ExpectedRun` spells out client and admin failure, the regex and static branches and the configuration error. |
| `ConOffsetCollect.LogSelection` | src/conoffsetcollect/collect.go:87-93 | The reports hold nothing but the unmatched report and the skipped report. The unmatched report is made iff the unmatched list is non-empty, and the skipped report iff the skipped list is non-empty. When both are made, the unmatched one comes first. |
| `ConOffsetCollect.RegexTraceDispatches` | src/conoffsetcollect/collect.go:73-93 | After a successful describe, the dispatched groups are exactly the first matching groups up to the cap, and no static-mode step occurs. |
| `ConOffsetCollect.RegexTakesPrecedence` | src/conoffsetcollect/collect.go:50-96 | With both clients up and a regex configured, the run starts with `ListConsumerGroups` and never resolves, reads or emits for static groups, even when static groups are also configured. |
| `ConOffsetCollect.StaticModeWhenOnlyGroups` | src/conoffsetcollect/collect.go:96-121 | With no regex and some static groups, the run returns no error and makes only static-mode steps. Every configured group's events are exactly its own steps. |
| `ConOffsetCollect.UnconfiguredFails` | src/conoffsetcollect/collect.go:122-124 | With neither a regex nor static groups, the run returns the configuration error and makes no call. |
| `ConOffsetCollect.FailedRunCollectsNothing` | src/conoffsetcollect/collect.go:29-67 | A run that returns an error dispatches no group and reads nothing for any group. This covers client or admin creation failing, `ListConsumerGroups` or `DescribeConsumerGroups` failing, and no configuration. |
| `ConOffsetCollect.AtMostMaxGroupsDispatched` | src/conoffsetcollect/collect.go:73-81 | No run dispatches more than 200 groups. A successful regex run dispatches exactly the first matching described groups, up to 200. |

## Left out

- The bodies of these functions are not part of this model: `fillTopicPartitions`, `getConsumerOffsets`, `getHighWaterMarks`, `populateOffsetStructs` and `collectOffsetsForConsumerGroup`. They are fields of `Backend` whose results are arbitrary, so there is no lag arithmetic in the model.
- The collaborators are pure functions of their arguments. The time at which a read happens is captured only by its position in the trace.
- `setMetrics` (collect.go:130-149) is the integrations SDK's entity and metric-set API, the cluster-name id attribute and the per-record marshalling. It is an abstract function. Its error is not returned; the caller only logs it (collect.go:118-119), and that log is left out.
- The goroutines and the `sync.WaitGroup` (collect.go:70, 80-81, 95) are not modelled as concurrency. Dispatch is a sequential event, and the wait adds nothing to the trace.
- Closing the client and cluster admin, and the deferred `Close` calls and their logs (collect.go:33-37, 43-47), are left out. Creating them is modelled only as success or an opaque error.
- The second `err != nil` test at collect.go:51-53 is dead code: `err` is nil there.
- The only `log` calls modelled are the aggregate reports (87-93) and the "no topics" report (103). The deprecation warning (97), the read-failure messages (109, 113) and the emission-failure message (119) are left out, since they change no control flow.
- `GroupDescription.members` is the set of member ids. The source's `Members` also carries a description per member; only `collectOffsetsForConsumerGroup`, whose body is not part of this model, uses it.
- The regex engine is replaced by an arbitrary predicate on group ids.
- The process-wide `args.GlobalArgs` is replaced by an explicit `Config` value. `ClusterName` appears only inside `setMetrics` and is not modelled.
- `numCollected` is an unbounded `nat`. Go's `int` cannot overflow at any realistic number of groups.
- The struct tags of `partitionOffsets` (metric names and source types) are left out. The record's fields are typed, but the model computes none of them.
