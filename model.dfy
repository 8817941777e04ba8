/**
 * The values that consumer-offset collection works on (src/conoffsetcollect/collect.go),
 * the external collaborators it calls, and the trace of calls a run makes.
 */
module OffsetModel {
  import opened Wrappers

  newtype int32 = x: int | -0x8000_0000 <= x < 0x8000_0000
  newtype int64 = x: int | -0x8000_0000_0000_0000 <= x < 0x8000_0000_0000_0000

  /** One emitted sample row; each numeric field may be absent (a nil pointer in Go). */
  datatype PartitionOffsets = PartitionOffsets(
    topic: string,
    partition: string,
    consumerOffset: Option<int64>,
    highWaterMark: Option<int64>,
    consumerLag: Option<int64>)

  /** Topic name to the partitions of that topic. */
  type TopicPartitions = map<string, seq<int32>>

  /** What DescribeConsumerGroups reports about one group: its id and the ids of its members. */
  datatype GroupDescription = GroupDescription(groupId: string, members: set<string>)

  type Error = string

  /** The most consumer groups one run dispatches for collection in regex mode. */
  const MaxCollectedGroups: nat := 200

  /**
   * The selection part of the configuration: the compiled regex (absent when not configured),
   * seen only through the answer it gives for a group id, and the deprecated static
   * map from group to configured topics.
   */
  datatype Config<Topics> = Config(
    consumerGroupRegex: Option<string -> bool>,
    consumerGroups: map<string, Topics>)

  /**
   * The collaborators Collect calls, as the results they give. The client and the cluster
   * admin either come up or fail with an error; the readers, the assembler and the metric
   * setter are total functions of their arguments whose bodies are not part of this model.
   */
  datatype Backend<!Topics, !Offsets, !Marks> = Backend(
    createClient: Option<Error>,
    createClusterAdmin: Option<Error>,
    listConsumerGroups: Result<map<string, string>, Error>,
    describeConsumerGroups: seq<string> -> Result<seq<GroupDescription>, Error>,
    fillTopicPartitions: (string, Topics) -> TopicPartitions,
    getConsumerOffsets: (string, TopicPartitions) -> (Offsets, Option<Error>),
    getHighWaterMarks: TopicPartitions -> (Marks, Option<Error>),
    populateOffsetStructs: (Offsets, Marks) -> seq<PartitionOffsets>,
    setMetrics: (string, seq<PartitionOffsets>) -> Option<Error>)

  /** The errors Collect returns to its caller. */
  datatype CollectError =
    | ClientFailed(cause: Error)
    | ClusterAdminFailed(cause: Error)
    | ListGroupsFailed(cause: Error)
    | DescribeGroupsFailed(cause: Error)
    | NotConfigured

  /** One observable step of a run: a call to a collaborator or one of the aggregate reports. */
  datatype Event =
    | ListGroups
    | DescribeGroups(ids: seq<string>)
    | Dispatch(group: GroupDescription)
    | ReportUnmatched(groupIds: seq<string>)
    | ReportSkipped(groupIds: seq<string>)
    | ResolveTopics(groupId: string)
    | NoTopics(groupId: string)
    | ReadOffsets(groupId: string, partitions: TopicPartitions)
    | ReadHighWaterMarks(groupId: string, partitions: TopicPartitions)
    | Assemble(groupId: string)
    | Emit(groupId: string, records: seq<PartitionOffsets>)

  /** An event that reads or emits data for a statically configured group. */
  predicate IsStaticStep(e: Event) {
    e.ResolveTopics? || e.NoTopics? || e.ReadOffsets? || e.ReadHighWaterMarks? || e.Assemble? || e.Emit?
  }

  /** The consumer group an event concerns, if any. */
  function Subject(e: Event): (groupId: Option<string>) {
    match e
    case Dispatch(d) => Some(d.groupId)
    case ResolveTopics(g) => Some(g)
    case NoTopics(g) => Some(g)
    case ReadOffsets(g, _) => Some(g)
    case ReadHighWaterMarks(g, _) => Some(g)
    case Assemble(g) => Some(g)
    case Emit(g, _) => Some(g)
    case _ => None
  }

  /** The events of t that concern group g, in trace order. */
  function EventsAbout(t: seq<Event>, g: string): (about: seq<Event>) {
    if t == [] then []
    else EventsAbout(t[..|t| - 1], g) + (if Subject(t[|t| - 1]) == Some(g) then [t[|t| - 1]] else [])
  }

  /** The groups handed to a collection task, in trace order. */
  function DispatchedGroups(t: seq<Event>): (dispatched: seq<GroupDescription>) {
    if t == [] then []
    else DispatchedGroups(t[..|t| - 1]) + (if t[|t| - 1].Dispatch? then [t[|t| - 1].group] else [])
  }

  ghost predicate Distinct(s: seq<string>) {
    forall i, j :: 0 <= i < j < |s| ==> s[i] != s[j]
  }

  /** s lists every element of keys exactly once: one possible iteration order of a Go map. */
  ghost predicate Enumerates(s: seq<string>, keys: set<string>) {
    Distinct(s) && forall k :: k in s <==> k in keys
  }

  lemma {:induction false} EventsAboutAppend(a: seq<Event>, b: seq<Event>, g: string)
    ensures EventsAbout(a + b, g) == EventsAbout(a, g) + EventsAbout(b, g)
    decreases |b|
  {
    if b == [] {
      assert a + b == a;
    } else {
      assert (a + b)[..|a + b| - 1] == a + b[..|b| - 1];
      EventsAboutAppend(a, b[..|b| - 1], g);
    }
  }

  /** A block of events that all concern group h contributes all of itself to h and nothing to any other group. */
  lemma {:induction false} EventsAboutOneGroup(t: seq<Event>, h: string, g: string)
    requires forall i :: 0 <= i < |t| ==> Subject(t[i]) == Some(h)
    ensures EventsAbout(t, g) == if g == h then t else []
  {
    if t != [] {
      EventsAboutOneGroup(t[..|t| - 1], h, g);
      assert t[..|t| - 1] + [t[|t| - 1]] == t;
    }
  }

  lemma {:induction false} DispatchedGroupsAppend(a: seq<Event>, b: seq<Event>)
    ensures DispatchedGroups(a + b) == DispatchedGroups(a) + DispatchedGroups(b)
    decreases |b|
  {
    if b == [] {
      assert a + b == a;
    } else {
      assert (a + b)[..|a + b| - 1] == a + b[..|b| - 1];
      DispatchedGroupsAppend(a, b[..|b| - 1]);
    }
  }

  /** A trace without Dispatch events dispatches nothing. */
  lemma {:induction false} NoDispatchedGroups(t: seq<Event>)
    requires forall i :: 0 <= i < |t| ==> !t[i].Dispatch?
    ensures DispatchedGroups(t) == []
  {
    if t != [] {
      NoDispatchedGroups(t[..|t| - 1]);
    }
  }
}
