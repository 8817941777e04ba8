/**
 * Collect (src/conoffsetcollect/collect.go:28-127): set up the client and the cluster admin,
 * then collect in regex mode when a consumer-group regex is configured, in static mode when
 * only static consumer groups are configured, and fail otherwise.
 */
module ConOffsetCollect {
  import opened Wrappers
  import opened OffsetModel
  import opened GroupSelection
  import opened StaticCollection

  /** What a run returns to its caller and the calls it made. */
  datatype Run = Run(err: Option<CollectError>, trace: seq<Event>)

  /** The keys whose iteration order a run depends on: those of the map Collect ranges over. */
  function VisitedKeys<T, O, M>(cfg: Config<T>, b: Backend<T, O, M>): (keys: set<string>) {
    if b.createClient.Some? || b.createClusterAdmin.Some? then {}
    else if cfg.consumerGroupRegex.Some? then
      if b.listConsumerGroups.Success? then b.listConsumerGroups.value.Keys else {}
    else cfg.consumerGroups.Keys
  }

  /** The events after DescribeConsumerGroups succeeds: the dispatches, then the two aggregate reports when non-empty. */
  function RegexTrace(gs: seq<GroupDescription>, matches: string -> bool): (trace: seq<Event>) {
    var matched := Matching(gs, matches);
    DispatchEvents(Collected(matched)) + Reports(Ids(NotMatching(gs, matches)), Ids(Skipped(matched)))
  }

  /** The two aggregate log reports of collect.go:87-93, each made only when its list is non-empty. */
  function Reports(unmatched: seq<string>, skipped: seq<string>): (reports: seq<Event>) {
    (if |unmatched| > 0 then [ReportUnmatched(unmatched)] else [])
      + (if |skipped| > 0 then [ReportSkipped(skipped)] else [])
  }

  function DispatchEvents(ds: seq<GroupDescription>): (events: seq<Event>) {
    seq(|ds|, i requires 0 <= i < |ds| => Dispatch(ds[i]))
  }

  /** The run Collect makes when the map it ranges over is visited in the given order. */
  function ExpectedRun<T, O, M>(cfg: Config<T>, b: Backend<T, O, M>, order: seq<string>): (run: Run)
    requires Enumerates(order, VisitedKeys(cfg, b))
  {
    if b.createClient.Some? then Run(Some(ClientFailed(b.createClient.value)), [])
    else if b.createClusterAdmin.Some? then Run(Some(ClusterAdminFailed(b.createClusterAdmin.value)), [])
    else match cfg.consumerGroupRegex
      case Some(matches) =>
        (match b.listConsumerGroups
         case Failure(e) => Run(Some(ListGroupsFailed(e)), [ListGroups])
         case Success(m) =>
           var ids := Blanks(|m|) + order;
           match b.describeConsumerGroups(ids)
           case Failure(e) => Run(Some(DescribeGroupsFailed(e)), [ListGroups, DescribeGroups(ids)])
           case Success(gs) => Run(None, [ListGroups, DescribeGroups(ids)] + RegexTrace(gs, matches)))
      case None =>
        if |cfg.consumerGroups| != 0 then Run(None, StaticTrace(order, cfg.consumerGroups, b))
        else Run(Some(NotConfigured), [])
  }

  /**
   * Collect as the source runs it, with the goroutines viewed as Dispatch events in the order
   * they are started. order is the iteration order of the map the run ranged over (the
   * listed consumer groups in regex mode, the configured groups in static mode).
   */
  method Collect<T, O, M>(cfg: Config<T>, b: Backend<T, O, M>) returns (err: Option<CollectError>, trace: seq<Event>, order: seq<string>)
    ensures Enumerates(order, VisitedKeys(cfg, b))
    ensures Run(err, trace) == ExpectedRun(cfg, b, order)
  {
    order := [];
    if b.createClient.Some? {
      return Some(ClientFailed(b.createClient.value)), [], order;
    }
    if b.createClusterAdmin.Some? {
      return Some(ClusterAdminFailed(b.createClusterAdmin.value)), [], order;
    }

    if cfg.consumerGroupRegex.Some? {
      var matches := cfg.consumerGroupRegex.value;
      trace := [ListGroups];
      if b.listConsumerGroups.Failure? {
        return Some(ListGroupsFailed(b.listConsumerGroups.error)), trace, order;
      }
      var consumerGroupMap := b.listConsumerGroups.value;
      var consumerGroupList := BuildGroupList(consumerGroupMap);
      order := consumerGroupList[|consumerGroupMap|..];
      GroupListHasBlanks(consumerGroupMap, consumerGroupList);

      trace := trace + [DescribeGroups(consumerGroupList)];
      var consumerGroups := b.describeConsumerGroups(consumerGroupList);
      if consumerGroups.Failure? {
        return Some(DescribeGroupsFailed(consumerGroups.error)), trace, order;
      }

      var dispatched, skippedConsumerGroups, unmatchedConsumerGroups, numCollected :=
        SelectAndDispatch(consumerGroups.value, matches);
      var reports := LogSelection(unmatchedConsumerGroups, skippedConsumerGroups);
      assert DispatchEvents(dispatched) + reports == RegexTrace(consumerGroups.value, matches);
      trace := [ListGroups, DescribeGroups(consumerGroupList)] + (DispatchEvents(dispatched) + reports);
      assert consumerGroupList == Blanks(|consumerGroupMap|) + order;
      assert Run(None, trace) == ExpectedRun(cfg, b, order);
    } else if |cfg.consumerGroups| != 0 {
      order, trace := CollectStatic(cfg.consumerGroups, b);
      assert Run(None, trace) == ExpectedRun(cfg, b, order);
    } else {
      return Some(NotConfigured), [], order;
    }
    err := None;
  }

  /** The two log calls of collect.go:87-93, as the report events they make. */
  method LogSelection(unmatchedConsumerGroups: seq<string>, skippedConsumerGroups: seq<string>) returns (reports: seq<Event>)
    ensures ReportUnmatched(unmatchedConsumerGroups) in reports <==> unmatchedConsumerGroups != []
    ensures ReportSkipped(skippedConsumerGroups) in reports <==> skippedConsumerGroups != []
    ensures forall i :: 0 <= i < |reports| ==>
      reports[i] == ReportUnmatched(unmatchedConsumerGroups) || reports[i] == ReportSkipped(skippedConsumerGroups)
    ensures |reports| == 2 ==> reports[0].ReportUnmatched?
    ensures reports == Reports(unmatchedConsumerGroups, skippedConsumerGroups)
  {
    reports := [];
    if |unmatchedConsumerGroups| > 0 {
      reports := reports + [ReportUnmatched(unmatchedConsumerGroups)];
    }
    if |skippedConsumerGroups| > 0 {
      reports := reports + [ReportSkipped(skippedConsumerGroups)];
    }
  }

  lemma {:induction false} DispatchEventsDispatch(ds: seq<GroupDescription>)
    ensures DispatchedGroups(DispatchEvents(ds)) == ds
  {
    if ds != [] {
      var init := ds[..|ds| - 1];
      assert DispatchEvents(ds) == DispatchEvents(init) + [Dispatch(ds[|ds| - 1])];
      DispatchEventsDispatch(init);
      DispatchedGroupsAppend(DispatchEvents(init), [Dispatch(ds[|ds| - 1])]);
    }
  }

  /** Dispatches followed by reports dispatch exactly the given groups and read nothing. */
  lemma DispatchesThenReports(ds: seq<GroupDescription>, unmatched: seq<string>, skipped: seq<string>)
    ensures DispatchedGroups(DispatchEvents(ds) + Reports(unmatched, skipped)) == ds
    ensures forall i :: 0 <= i < |DispatchEvents(ds) + Reports(unmatched, skipped)| ==>
      !IsStaticStep((DispatchEvents(ds) + Reports(unmatched, skipped))[i])
  {
    var dispatches, reports := DispatchEvents(ds), Reports(unmatched, skipped);
    assert forall i :: 0 <= i < |reports| ==> reports[i].ReportUnmatched? || reports[i].ReportSkipped?;
    var t := dispatches + reports;
    forall i | 0 <= i < |t| ensures !IsStaticStep(t[i]) {
      if i < |dispatches| { assert t[i] == dispatches[i]; } else { assert t[i] == reports[i - |dispatches|]; }
    }
    DispatchedGroupsAppend(dispatches, reports);
    DispatchEventsDispatch(ds);
    NoDispatchedGroups(reports);
  }

  /** In regex mode the dispatched groups are the first matching groups up to the cap, and nothing is read for static groups. */
  lemma RegexTraceDispatches(gs: seq<GroupDescription>, matches: string -> bool)
    ensures DispatchedGroups(RegexTrace(gs, matches)) == Collected(Matching(gs, matches))
    ensures forall i :: 0 <= i < |RegexTrace(gs, matches)| ==> !IsStaticStep(RegexTrace(gs, matches)[i])
  {
    var matched := Matching(gs, matches);
    DispatchesThenReports(Collected(matched), Ids(NotMatching(gs, matches)), Ids(Skipped(matched)));
  }

  /**
   * The regex takes precedence: once the client and the cluster admin are up and a regex is
   * configured, the run starts by listing the consumer groups and reads nothing for the
   * static groups, even when static groups are configured too.
   */
  lemma RegexTakesPrecedence<T, O, M>(cfg: Config<T>, b: Backend<T, O, M>, order: seq<string>)
    requires Enumerates(order, VisitedKeys(cfg, b))
    requires b.createClient.None? && b.createClusterAdmin.None?
    requires cfg.consumerGroupRegex.Some?
    ensures var r := ExpectedRun(cfg, b, order);
      && r.trace != [] && r.trace[0] == ListGroups
      && forall i :: 0 <= i < |r.trace| ==> !IsStaticStep(r.trace[i])
  {
    if b.listConsumerGroups.Success? {
      var m := b.listConsumerGroups.value;
      var ids := Blanks(|m|) + order;
      if b.describeConsumerGroups(ids).Success? {
        RegexTraceDispatches(b.describeConsumerGroups(ids).value, cfg.consumerGroupRegex.value);
      }
    }
  }

  /**
   * Without a regex and with static groups configured, the run is the static-mode run over
   * the configured groups: it never fails, never lists or dispatches groups, and gives every
   * configured group its full sequence of steps.
   */
  lemma StaticModeWhenOnlyGroups<T, O, M>(cfg: Config<T>, b: Backend<T, O, M>, order: seq<string>)
    requires Enumerates(order, VisitedKeys(cfg, b))
    requires b.createClient.None? && b.createClusterAdmin.None?
    requires cfg.consumerGroupRegex.None? && |cfg.consumerGroups| != 0
    ensures var r := ExpectedRun(cfg, b, order);
      && r.err == None
      && (forall i :: 0 <= i < |r.trace| ==> IsStaticStep(r.trace[i]))
      && (forall g :: g in cfg.consumerGroups ==> EventsAbout(r.trace, g) == GroupSteps(g, cfg.consumerGroups[g], b))
  {
    var groups := cfg.consumerGroups;
    forall g | g in groups
      ensures EventsAbout(StaticTrace(order, groups, b), g) == GroupSteps(g, groups[g], b)
    {
      StaticTraceAbout(order, groups, b, g);
    }
    StaticStepsOnly(order, groups, b);
  }

  lemma {:induction false} StaticStepsOnly<T, O, M>(order: seq<string>, groups: map<string, T>, b: Backend<T, O, M>)
    requires forall i :: 0 <= i < |order| ==> order[i] in groups
    ensures forall i :: 0 <= i < |StaticTrace(order, groups, b)| ==> IsStaticStep(StaticTrace(order, groups, b)[i])
  {
    if order != [] {
      StaticStepsOnly(order[..|order| - 1], groups, b);
    }
  }

  /** With neither selection mode configured, the run fails with NotConfigured and calls nothing. */
  lemma UnconfiguredFails<T, O, M>(cfg: Config<T>, b: Backend<T, O, M>, order: seq<string>)
    requires Enumerates(order, VisitedKeys(cfg, b))
    requires b.createClient.None? && b.createClusterAdmin.None?
    requires cfg.consumerGroupRegex.None? && |cfg.consumerGroups| == 0
    ensures ExpectedRun(cfg, b, order) == Run(Some(NotConfigured), [])
  {
  }

  /**
   * A run that returns an error has dispatched no group and read nothing for any group:
   * setup, discovery and configuration failures all come before any collection.
   */
  lemma FailedRunCollectsNothing<T, O, M>(cfg: Config<T>, b: Backend<T, O, M>, order: seq<string>)
    requires Enumerates(order, VisitedKeys(cfg, b))
    ensures var r := ExpectedRun(cfg, b, order);
      r.err.Some? ==> DispatchedGroups(r.trace) == [] && forall i :: 0 <= i < |r.trace| ==> !IsStaticStep(r.trace[i])
  {
    var r := ExpectedRun(cfg, b, order);
    if r.err.Some? {
      NoDispatchedGroups(r.trace);
    }
  }

  /**
   * No run dispatches more than MaxCollectedGroups groups; a successful regex-mode run
   * dispatches exactly the first matching described groups up to that cap.
   */
  lemma AtMostMaxGroupsDispatched<T, O, M>(cfg: Config<T>, b: Backend<T, O, M>, order: seq<string>)
    requires Enumerates(order, VisitedKeys(cfg, b))
    ensures |DispatchedGroups(ExpectedRun(cfg, b, order).trace)| <= MaxCollectedGroups
    ensures
      && b.createClient.None? && b.createClusterAdmin.None?
      && cfg.consumerGroupRegex.Some? && b.listConsumerGroups.Success?
      && b.describeConsumerGroups(Blanks(|b.listConsumerGroups.value|) + order).Success?
      ==> DispatchedGroups(ExpectedRun(cfg, b, order).trace) ==
            Collected(Matching(b.describeConsumerGroups(Blanks(|b.listConsumerGroups.value|) + order).value,
                               cfg.consumerGroupRegex.value))
  {
    var r := ExpectedRun(cfg, b, order);
    if b.createClient.Some? || b.createClusterAdmin.Some? {
      NoDispatchedGroups(r.trace);
    } else if cfg.consumerGroupRegex.Some? {
      var matches := cfg.consumerGroupRegex.value;
      if b.listConsumerGroups.Success? {
        var m := b.listConsumerGroups.value;
        var ids := Blanks(|m|) + order;
        if b.describeConsumerGroups(ids).Success? {
          var gs := b.describeConsumerGroups(ids).value;
          RegexTraceDispatches(gs, matches);
          DispatchedGroupsAppend([ListGroups, DescribeGroups(ids)], RegexTrace(gs, matches));
          NoDispatchedGroups([ListGroups, DescribeGroups(ids)]);
        } else {
          NoDispatchedGroups(r.trace);
        }
      } else {
        NoDispatchedGroups(r.trace);
      }
    } else if |cfg.consumerGroups| != 0 {
      StaticStepsOnly(order, cfg.consumerGroups, b);
      NoDispatchedGroups(r.trace);
    }
  }
}
