/**
 * Regex-mode group selection in Collect (src/conoffsetcollect/collect.go): the id list handed
 * to DescribeConsumerGroups, and the split of the described groups into dispatched, skipped
 * (over the cap) and unmatched groups.
 */
module GroupSelection {
  import opened OffsetModel

  /** What make([]string, n) allocates: n empty strings. */
  function Blanks(n: nat): (blanks: seq<string>) {
    seq(n, _ => "")
  }

  /**
   * Builds the id list as collect.go:59-62 does: a slice that already holds |m| empty
   * strings, to which every key of m is appended in the map's (unspecified) iteration order.
   */
  method BuildGroupList(m: map<string, string>) returns (list: seq<string>)
    ensures |list| == 2 * |m|
    ensures forall i :: 0 <= i < |m| ==> list[i] == ""
    ensures Enumerates(list[|m|..], m.Keys)
  {
    list := Blanks(|m|);
    var remaining := m.Keys;
    while remaining != {}
      invariant remaining <= m.Keys
      invariant |m| <= |list|
      invariant forall i :: 0 <= i < |m| ==> list[i] == ""
      invariant Enumerates(list[|m|..], m.Keys - remaining)
      invariant |list| - |m| + |remaining| == |m|
      decreases remaining
    {
      var k :| k in remaining;
      ghost var visited := list[|m|..];
      list := list + [k];
      assert list[|m|..] == visited + [k];
      remaining := remaining - {k};
    }
  }

  /** For a non-empty map the list is not a permutation of the keys: it also carries |m| empty ids. */
  lemma GroupListHasBlanks(m: map<string, string>, list: seq<string>)
    requires |list| == 2 * |m|
    requires forall i :: 0 <= i < |m| ==> list[i] == ""
    requires Enumerates(list[|m|..], m.Keys)
    ensures list == Blanks(|m|) + list[|m|..]
    ensures |m| > 0 ==> "" in list
    ensures multiset(list)[""] >= |m|
  {
    assert list == Blanks(|m|) + list[|m|..];
    assert multiset(Blanks(|m|))[""] == |m| by { BlanksCount(|m|); }
  }

  lemma {:induction false} BlanksCount(n: nat)
    ensures multiset(Blanks(n))[""] == n
  {
    if n > 0 {
      assert Blanks(n) == Blanks(n - 1) + [""];
      BlanksCount(n - 1);
    }
  }

  function Ids(gs: seq<GroupDescription>): (ids: seq<string>) {
    seq(|gs|, i requires 0 <= i < |gs| => gs[i].groupId)
  }

  /** The described groups whose id the regex accepts, in input order. */
  function Matching(gs: seq<GroupDescription>, matches: string -> bool): (matched: seq<GroupDescription>) {
    if gs == [] then []
    else Matching(gs[..|gs| - 1], matches) + (if matches(gs[|gs| - 1].groupId) then [gs[|gs| - 1]] else [])
  }

  /** The described groups whose id the regex rejects, in input order. */
  function NotMatching(gs: seq<GroupDescription>, matches: string -> bool): (rejected: seq<GroupDescription>) {
    if gs == [] then []
    else NotMatching(gs[..|gs| - 1], matches) + (if matches(gs[|gs| - 1].groupId) then [] else [gs[|gs| - 1]])
  }

  /** How many of n matching groups are collected: all of them up to the cap. */
  function Quota(n: nat): (quota: nat) {
    if n <= MaxCollectedGroups then n else MaxCollectedGroups
  }

  /** The matching groups that are dispatched: the first Quota of them. */
  function Collected(matched: seq<GroupDescription>): (collected: seq<GroupDescription>) {
    matched[..Quota(|matched|)]
  }

  /** The matching groups beyond the cap. */
  function Skipped(matched: seq<GroupDescription>): (skipped: seq<GroupDescription>) {
    matched[Quota(|matched|)..]
  }

  /**
   * The loop of collect.go:69-85. Each described group is tested against the regex; a match
   * increments numCollected and is dispatched while numCollected is at most the cap, and
   * recorded as skipped after that; a non-match is recorded as unmatched. dispatched lists,
   * in order, the groups a collection task was started for.
   */
  method SelectAndDispatch(gs: seq<GroupDescription>, matches: string -> bool)
    returns (dispatched: seq<GroupDescription>, skipped: seq<string>, unmatched: seq<string>, numCollected: nat)
    ensures |dispatched| <= MaxCollectedGroups
    ensures dispatched == Collected(Matching(gs, matches))
    ensures skipped == Ids(Skipped(Matching(gs, matches)))
    ensures unmatched == Ids(NotMatching(gs, matches))
    ensures numCollected == |Matching(gs, matches)|
    ensures Ids(dispatched) + skipped == Ids(Matching(gs, matches))
    ensures skipped != [] <==> numCollected > MaxCollectedGroups
    ensures multiset(Ids(dispatched)) + multiset(skipped) + multiset(unmatched) == multiset(Ids(gs))
    ensures forall x :: x in unmatched <==> x in Ids(gs) && !matches(x)
  {
    dispatched, skipped, unmatched, numCollected := [], [], [], 0;
    for i := 0 to |gs|
      invariant numCollected == |Matching(gs[..i], matches)|
      invariant dispatched == Collected(Matching(gs[..i], matches))
      invariant skipped == Ids(Skipped(Matching(gs[..i], matches)))
      invariant unmatched == Ids(NotMatching(gs[..i], matches))
    {
      assert gs[..i + 1][..i] == gs[..i];
      var consumerGroup := gs[i];
      if matches(consumerGroup.groupId) {
        numCollected := numCollected + 1;
        if numCollected > MaxCollectedGroups {
          skipped := skipped + [consumerGroup.groupId];
          continue;
        }
        dispatched := dispatched + [consumerGroup];
      } else {
        unmatched := unmatched + [consumerGroup.groupId];
      }
    }
    assert gs[..|gs|] == gs;
    var matched := Matching(gs, matches);
    IdsAppend(Collected(matched), Skipped(matched));
    assert Collected(matched) + Skipped(matched) == matched;
    MatchingPartition(gs, matches);
    UnmatchedIds(gs, matches);
  }

  lemma IdsAppend(a: seq<GroupDescription>, b: seq<GroupDescription>)
    ensures Ids(a + b) == Ids(a) + Ids(b)
  {
  }

  /** Every described group is either matching or not, with multiplicity: the split loses and invents nothing. */
  lemma {:induction false} MatchingPartition(gs: seq<GroupDescription>, matches: string -> bool)
    ensures multiset(Ids(Matching(gs, matches))) + multiset(Ids(NotMatching(gs, matches))) == multiset(Ids(gs))
    ensures |Matching(gs, matches)| + |NotMatching(gs, matches)| == |gs|
  {
    if gs != [] {
      var init, last := gs[..|gs| - 1], gs[|gs| - 1];
      MatchingPartition(init, matches);
      assert init + [last] == gs;
      IdsAppend(init, [last]);
      IdsAppend(Matching(init, matches), if matches(last.groupId) then [last] else []);
      IdsAppend(NotMatching(init, matches), if matches(last.groupId) then [] else [last]);
    }
  }

  /** An id is reported unmatched exactly when some described group has it and the regex rejects it. */
  lemma {:induction false} UnmatchedIds(gs: seq<GroupDescription>, matches: string -> bool)
    ensures forall x :: x in Ids(NotMatching(gs, matches)) <==> x in Ids(gs) && !matches(x)
  {
    if gs != [] {
      var init, last := gs[..|gs| - 1], gs[|gs| - 1];
      UnmatchedIds(init, matches);
      assert init + [last] == gs;
      IdsAppend(init, [last]);
      IdsAppend(NotMatching(init, matches), if matches(last.groupId) then [] else [last]);
    }
  }

  /** An id is matched exactly when some described group has it and the regex accepts it. */
  lemma {:induction false} MatchedIds(gs: seq<GroupDescription>, matches: string -> bool)
    ensures forall x :: x in Ids(Matching(gs, matches)) <==> x in Ids(gs) && matches(x)
  {
    if gs != [] {
      var init, last := gs[..|gs| - 1], gs[|gs| - 1];
      MatchedIds(init, matches);
      assert init + [last] == gs;
      IdsAppend(init, [last]);
      IdsAppend(Matching(init, matches), if matches(last.groupId) then [last] else []);
    }
  }
}
