/**
 * Static-mode collection in Collect (src/conoffsetcollect/collect.go:96-121): for every
 * configured group, resolve its topics, then read its consumer offsets, then the high-water
 * marks, assemble the records and emit them. A group whose topics resolve to nothing is
 * reported and skipped; failed reads and a failed emission are not fatal.
 */
module StaticCollection {
  import opened Wrappers
  import opened OffsetModel

  /** The events one configured group contributes to a static-mode run. */
  function GroupSteps<T, O, M>(groupId: string, topics: T, b: Backend<T, O, M>): (steps: seq<Event>) {
    var topicPartitions := b.fillTopicPartitions(groupId, topics);
    if |topicPartitions| == 0 then
      [ResolveTopics(groupId), NoTopics(groupId)]
    else
      var offsetData := b.getConsumerOffsets(groupId, topicPartitions).0;
      var highWaterMarks := b.getHighWaterMarks(topicPartitions).0;
      [ResolveTopics(groupId),
       ReadOffsets(groupId, topicPartitions),
       ReadHighWaterMarks(groupId, topicPartitions),
       Assemble(groupId),
       Emit(groupId, b.populateOffsetStructs(offsetData, highWaterMarks))]
  }

  /** The trace of a static-mode run that visits the configured groups in the given order. */
  function StaticTrace<T, O, M>(order: seq<string>, groups: map<string, T>, b: Backend<T, O, M>): (trace: seq<Event>)
    requires forall i :: 0 <= i < |order| ==> order[i] in groups
  {
    if order == [] then []
    else StaticTrace(order[..|order| - 1], groups, b) + GroupSteps(order[|order| - 1], groups[order[|order| - 1]], b)
  }

  /**
   * The loop of collect.go:100-121, visiting the configured groups in the map's unspecified
   * iteration order; order is the order the loop used. The errors of the two reads and of
   * setMetrics are dropped, as the source only logs them.
   */
  method CollectStatic<T, O, M>(groups: map<string, T>, b: Backend<T, O, M>) returns (order: seq<string>, trace: seq<Event>)
    ensures Enumerates(order, groups.Keys)
    ensures trace == StaticTrace(order, groups, b)
  {
    order, trace := [], [];
    var remaining := groups.Keys;
    while remaining != {}
      invariant remaining <= groups.Keys
      invariant Enumerates(order, groups.Keys - remaining)
      invariant forall i :: 0 <= i < |order| ==> order[i] in groups
      invariant trace == StaticTrace(order, groups, b)
      decreases remaining
    {
      var consumerGroup :| consumerGroup in remaining;
      remaining := remaining - {consumerGroup};
      order := order + [consumerGroup];

      var topicPartitions := b.fillTopicPartitions(consumerGroup, groups[consumerGroup]);
      trace := trace + [ResolveTopics(consumerGroup)];
      if |topicPartitions| == 0 {
        trace := trace + [NoTopics(consumerGroup)];
        continue;
      }

      var (offsetData, offsetErr) := b.getConsumerOffsets(consumerGroup, topicPartitions);
      trace := trace + [ReadOffsets(consumerGroup, topicPartitions)];
      var (highWaterMarks, markErr) := b.getHighWaterMarks(topicPartitions);
      trace := trace + [ReadHighWaterMarks(consumerGroup, topicPartitions)];

      var offsetStructs := b.populateOffsetStructs(offsetData, highWaterMarks);
      trace := trace + [Assemble(consumerGroup)];

      var emitErr := b.setMetrics(consumerGroup, offsetStructs);
      trace := trace + [Emit(consumerGroup, offsetStructs)];
    }
  }

  lemma GroupStepsAbout<T, O, M>(groupId: string, topics: T, b: Backend<T, O, M>)
    ensures forall i :: 0 <= i < |GroupSteps(groupId, topics, b)| ==> Subject(GroupSteps(groupId, topics, b)[i]) == Some(groupId)
  {
  }

  /** In a static-mode run, the events about g are exactly g's own steps when g was visited, and nothing otherwise. */
  lemma {:induction false} StaticTraceAbout<T, O, M>(order: seq<string>, groups: map<string, T>, b: Backend<T, O, M>, g: string)
    requires forall i :: 0 <= i < |order| ==> order[i] in groups
    requires Distinct(order)
    ensures EventsAbout(StaticTrace(order, groups, b), g) == if g in order then GroupSteps(g, groups[g], b) else []
  {
    if order != [] {
      var init, last := order[..|order| - 1], order[|order| - 1];
      assert init + [last] == order;
      StaticTraceAbout(init, groups, b, g);
      EventsAboutAppend(StaticTrace(init, groups, b), GroupSteps(last, groups[last], b), g);
      GroupStepsAbout(last, groups[last], b);
      EventsAboutOneGroup(GroupSteps(last, groups[last], b), last, g);
    }
  }

  /**
   * Every configured group is processed, whatever the readers and the emitter return: a group
   * whose topics resolve to no topic-partitions is reported and triggers no read and no
   * emission; every other group has its offsets read, then its high-water marks read for the
   * same topic-partitions, then its records assembled and emitted, and nothing else happens to it.
   */
  lemma StaticGroupEvents<T, O, M>(order: seq<string>, groups: map<string, T>, b: Backend<T, O, M>, g: string)
    requires Enumerates(order, groups.Keys)
    requires g in groups
    ensures var topicPartitions := b.fillTopicPartitions(g, groups[g]);
      EventsAbout(StaticTrace(order, groups, b), g) ==
        if |topicPartitions| == 0 then [ResolveTopics(g), NoTopics(g)]
        else [ResolveTopics(g),
              ReadOffsets(g, topicPartitions),
              ReadHighWaterMarks(g, topicPartitions),
              Assemble(g),
              Emit(g, b.populateOffsetStructs(b.getConsumerOffsets(g, topicPartitions).0,
                                               b.getHighWaterMarks(topicPartitions).0))]
  {
    StaticTraceAbout(order, groups, b, g);
  }

  /**
   * The step at index i of t follows the step it must follow: a high-water-mark read comes
   * right after the offset read of the same group for the same topic-partitions, an assembly
   * right after that group's high-water-mark read, and an emission right after its assembly.
   */
  ghost predicate InOrderAt(t: seq<Event>, i: nat)
    requires i < |t|
  {
    && (t[i].ReadHighWaterMarks? ==> 0 < i && t[i - 1] == ReadOffsets(t[i].groupId, t[i].partitions))
    && (t[i].Assemble? ==> 0 < i && t[i - 1].ReadHighWaterMarks? && t[i - 1].groupId == t[i].groupId)
    && (t[i].Emit? ==> 0 < i && t[i - 1] == Assemble(t[i].groupId))
  }

  /** The per-group steps of t never interleave with anything else. */
  ghost predicate ReadsInOrder(t: seq<Event>) {
    forall i: nat :: i < |t| ==> InOrderAt(t, i)
  }

  lemma {:induction false} StaticReadsInOrder<T, O, M>(order: seq<string>, groups: map<string, T>, b: Backend<T, O, M>)
    requires forall i :: 0 <= i < |order| ==> order[i] in groups
    ensures ReadsInOrder(StaticTrace(order, groups, b))
  {
    if order != [] {
      var init, last := order[..|order| - 1], order[|order| - 1];
      StaticReadsInOrder(init, groups, b);
      var prefix, steps := StaticTrace(init, groups, b), GroupSteps(last, groups[last], b);
      assert steps[0].ResolveTopics?;
      var t := prefix + steps;
      forall i: nat | i < |t|
        ensures InOrderAt(t, i)
      {
        if i < |prefix| {
          assert InOrderAt(prefix, i);
          assert t[i] == prefix[i];
          if 0 < i { assert t[i - 1] == prefix[i - 1]; }
        } else {
          var j := i - |prefix|;
          assert t[i] == steps[j];
          if j > 0 {
            assert InOrderAt(steps, j);
            assert t[i - 1] == steps[j - 1];
          }
        }
      }
    }
  }

  /**
   * What a static-mode run emits depends only on the data the readers return, never on the
   * errors they or setMetrics report: no failure stops later steps or later groups.
   */
  lemma {:induction false} StaticTraceIgnoresErrors<T, O, M>(order: seq<string>, groups: map<string, T>, b1: Backend<T, O, M>, b2: Backend<T, O, M>)
    requires forall i :: 0 <= i < |order| ==> order[i] in groups
    requires b1.fillTopicPartitions == b2.fillTopicPartitions
    requires b1.populateOffsetStructs == b2.populateOffsetStructs
    requires forall g, p :: b1.getConsumerOffsets(g, p).0 == b2.getConsumerOffsets(g, p).0
    requires forall p :: b1.getHighWaterMarks(p).0 == b2.getHighWaterMarks(p).0
    ensures StaticTrace(order, groups, b1) == StaticTrace(order, groups, b2)
  {
    if order != [] {
      StaticTraceIgnoresErrors(order[..|order| - 1], groups, b1, b2);
    }
  }
}
