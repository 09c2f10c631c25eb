/** The grouping step of `ArchiveChannelAsync`: `GroupBy` on the first day of each message's
    month, `OrderBy` on that key, and `OrderBy` on time inside each group. */
module MonthGrouping {
  import opened Calendar
  import opened SlackModels
  import opened Ordering

  /** `new DateTime(t.Year, t.Month, 1)` for the message's `ParsedTimestamp` `t`: midnight on
      day 1 of its month. */
  function MonthOf(m: SlackMessage): (k: DateTime)
    requires WellFormed(m)
    ensures ValidDateTime(k)
  {
    var t := ParsedTimestamp(m);
    CivilFieldRanges(t);
    MonthStartValid(Year(t), Month(t));
    MonthStart(Year(t), Month(t))
  }

  /** The key has the year and month of the message's timestamp, on day 1 at midnight. */
  lemma MonthOfFields(m: SlackMessage)
    requires WellFormed(m)
    ensures var k := MonthOf(m);
      && Year(k) == Year(ParsedTimestamp(m)) && Month(k) == Month(ParsedTimestamp(m))
      && Day(k) == 1 && Hour(k) == 0 && Minute(k) == 0 && Second(k) == 0
  {
    var t := ParsedTimestamp(m);
    CivilFieldRanges(t);
    MonthStartFields(Year(t), Month(t));
  }

  /** Two messages share a key exactly when they fall in the same calendar year and month. */
  lemma SameMonthIff(a: SlackMessage, b: SlackMessage)
    requires WellFormed(a) && WellFormed(b)
    ensures MonthOf(a) == MonthOf(b) <==>
      Year(ParsedTimestamp(a)) == Year(ParsedTimestamp(b)) && Month(ParsedTimestamp(a)) == Month(ParsedTimestamp(b))
  {
    var ta := ParsedTimestamp(a);
    var tb := ParsedTimestamp(b);
    CivilFieldRanges(ta);
    CivilFieldRanges(tb);
    MonthStartInjective(Year(ta), Month(ta), Year(tb), Month(tb));
  }

  /** The messages of `ws` whose key is `k`, in their order in `ws`. */
  function InMonth(ws: seq<SlackMessage>, k: DateTime): (r: seq<SlackMessage>)
    requires AllWellFormed(ws)
    ensures AllWellFormed(r) && forall i :: 0 <= i < |r| ==> MonthOf(r[i]) == k
  {
    if ws == [] then []
    else InMonth(ws[..|ws| - 1], k) + (if MonthOf(ws[|ws| - 1]) == k then [ws[|ws| - 1]] else [])
  }

  lemma InMonthAppend(ws: seq<SlackMessage>, x: SlackMessage, k: DateTime)
    requires AllWellFormed(ws) && WellFormed(x)
    ensures InMonth(ws + [x], k) == InMonth(ws, k) + (if MonthOf(x) == k then [x] else [])
  {
    assert (ws + [x])[..|ws|] == ws;
  }

  lemma {:induction false} InMonthNone(ws: seq<SlackMessage>, k: DateTime)
    requires AllWellFormed(ws)
    requires forall i :: 0 <= i < |ws| ==> MonthOf(ws[i]) != k
    ensures InMonth(ws, k) == []
  {
    if ws != [] {
      InMonthNone(ws[..|ws| - 1], k);
    }
  }

  // ---------------------------------------------------------------------------------------
  // GroupBy
  // ---------------------------------------------------------------------------------------

  /** An `IGrouping`: a key and the elements that have it. */
  datatype Group = Group(key: DateTime, members: seq<SlackMessage>)

  predicate GroupsWellFormed(gs: seq<Group>) {
    forall i :: 0 <= i < |gs| ==> ValidDateTime(gs[i].key) && AllWellFormed(gs[i].members)
  }

  /** Adds `m` to the group of its key, or opens a new group for it after all the others. */
  function AddToGroups(gs: seq<Group>, m: SlackMessage): (r: seq<Group>)
    requires WellFormed(m) && GroupsWellFormed(gs)
    ensures GroupsWellFormed(r)
  {
    if gs == [] then [Group(MonthOf(m), [m])]
    else if gs[0].key == MonthOf(m) then [gs[0].(members := gs[0].members + [m])] + gs[1..]
    else [gs[0]] + AddToGroups(gs[1..], m)
  }

  /** `GroupBy(m => month of m)`: groups in the order their keys first occur, each holding
      its elements in input order. */
  function GroupByMonth(ws: seq<SlackMessage>): (gs: seq<Group>)
    requires AllWellFormed(ws)
    ensures GroupsWellFormed(gs)
  {
    if ws == [] then [] else AddToGroups(GroupByMonth(ws[..|ws| - 1]), ws[|ws| - 1])
  }

  predicate KeysDistinct(gs: seq<Group>) {
    forall i, j :: 0 <= i < j < |gs| ==> gs[i].key != gs[j].key
  }

  /** Each group holds exactly the messages of its month, in input order, and is not empty. */
  predicate GroupsExact(gs: seq<Group>, ws: seq<SlackMessage>)
    requires AllWellFormed(ws)
  {
    forall i :: 0 <= i < |gs| ==> gs[i].members == InMonth(ws, gs[i].key) && gs[i].members != []
  }

  /** Every message's month has a group. */
  predicate GroupsCover(gs: seq<Group>, ws: seq<SlackMessage>)
    requires AllWellFormed(ws)
  {
    forall k :: 0 <= k < |ws| ==> exists i :: 0 <= i < |gs| && gs[i].key == MonthOf(ws[k])
  }

  /** `gs` is a grouping of `ws` by month: one group per key that occurs, keys distinct, and
      each group holds exactly the messages of its month in input order. */
  predicate GroupsOf(gs: seq<Group>, ws: seq<SlackMessage>)
    requires AllWellFormed(ws)
  {
    KeysDistinct(gs) && GroupsExact(gs, ws) && GroupsCover(gs, ws)
  }

  lemma {:induction false} AddToExistingGroup(gs: seq<Group>, m: SlackMessage, i: nat)
    requires WellFormed(m) && GroupsWellFormed(gs)
    requires i < |gs| && gs[i].key == MonthOf(m)
    requires KeysDistinct(gs)
    ensures AddToGroups(gs, m) == gs[i := gs[i].(members := gs[i].members + [m])]
  {
    if i > 0 {
      AddToExistingGroup(gs[1..], m, i - 1);
      assert [gs[0]] + gs[1..][i - 1 := gs[i].(members := gs[i].members + [m])]
        == gs[i := gs[i].(members := gs[i].members + [m])];
    }
  }

  lemma {:induction false} AddToNewGroup(gs: seq<Group>, m: SlackMessage)
    requires WellFormed(m) && GroupsWellFormed(gs)
    requires forall i :: 0 <= i < |gs| ==> gs[i].key != MonthOf(m)
    ensures AddToGroups(gs, m) == gs + [Group(MonthOf(m), [m])]
  {
    if gs != [] {
      AddToNewGroup(gs[1..], m);
      assert [gs[0]] + (gs[1..] + [Group(MonthOf(m), [m])]) == gs + [Group(MonthOf(m), [m])];
    }
  }

  lemma AppendWellFormed(ws: seq<SlackMessage>, m: SlackMessage)
    requires AllWellFormed(ws) && WellFormed(m)
    ensures AllWellFormed(ws + [m])
  {
  }

  /** Adding a message whose month already has a group: each group is still exact. */
  lemma AddToExistingExact(gs: seq<Group>, ws: seq<SlackMessage>, m: SlackMessage, i: nat)
    requires AllWellFormed(ws) && WellFormed(m) && GroupsWellFormed(gs)
    requires KeysDistinct(gs) && GroupsExact(gs, ws)
    requires i < |gs| && gs[i].key == MonthOf(m)
    ensures AllWellFormed(ws + [m]) && GroupsExact(AddToGroups(gs, m), ws + [m])
  {
    AppendWellFormed(ws, m);
    AddToExistingGroup(gs, m, i);
    var r := AddToGroups(gs, m);
    forall k | 0 <= k < |r|
      ensures r[k].members == InMonth(ws + [m], r[k].key) && r[k].members != []
    {
      InMonthAppend(ws, m, gs[k].key);
    }
  }

  lemma AddToExistingKeys(gs: seq<Group>, m: SlackMessage, i: nat)
    requires WellFormed(m) && GroupsWellFormed(gs) && KeysDistinct(gs)
    requires i < |gs| && gs[i].key == MonthOf(m)
    ensures |AddToGroups(gs, m)| == |gs|
    ensures forall j :: 0 <= j < |gs| ==> AddToGroups(gs, m)[j].key == gs[j].key
  {
    AddToExistingGroup(gs, m, i);
  }

  /** Adding a message whose month already has a group: every message still has a group. */
  lemma AddToExistingCover(gs: seq<Group>, ws: seq<SlackMessage>, m: SlackMessage, i: nat)
    requires AllWellFormed(ws) && WellFormed(m) && GroupsWellFormed(gs)
    requires KeysDistinct(gs) && GroupsCover(gs, ws)
    requires i < |gs| && gs[i].key == MonthOf(m)
    ensures AllWellFormed(ws + [m]) && GroupsCover(AddToGroups(gs, m), ws + [m])
  {
    AppendWellFormed(ws, m);
    var ws' := ws + [m];
    var r := AddToGroups(gs, m);
    AddToExistingKeys(gs, m, i);
    forall k | 0 <= k < |ws'|
      ensures exists j :: 0 <= j < |r| && r[j].key == MonthOf(ws'[k])
    {
      if k < |ws| {
        var j :| 0 <= j < |gs| && gs[j].key == MonthOf(ws[k]);
        assert r[j].key == MonthOf(ws'[k]);
      } else {
        assert r[i].key == MonthOf(ws'[k]);
      }
    }
  }

  /** Adding a message whose month has no group yet: each group is still exact. */
  lemma AddToNewExact(gs: seq<Group>, ws: seq<SlackMessage>, m: SlackMessage)
    requires AllWellFormed(ws) && WellFormed(m) && GroupsWellFormed(gs)
    requires GroupsExact(gs, ws) && GroupsCover(gs, ws)
    requires forall i :: 0 <= i < |gs| ==> gs[i].key != MonthOf(m)
    ensures AllWellFormed(ws + [m]) && GroupsExact(AddToGroups(gs, m), ws + [m])
  {
    AppendWellFormed(ws, m);
    var key := MonthOf(m);
    AddToNewGroup(gs, m);
    var r := AddToGroups(gs, m);
    forall k | 0 <= k < |ws|
      ensures MonthOf(ws[k]) != key
    {
      var j :| 0 <= j < |gs| && gs[j].key == MonthOf(ws[k]);
    }
    InMonthNone(ws, key);
    forall k | 0 <= k < |r|
      ensures r[k].members == InMonth(ws + [m], r[k].key) && r[k].members != []
    {
      InMonthAppend(ws, m, r[k].key);
    }
  }

  /** Adding a message whose month has no group yet: every message still has a group. */
  lemma AddToNewCover(gs: seq<Group>, ws: seq<SlackMessage>, m: SlackMessage)
    requires AllWellFormed(ws) && WellFormed(m) && GroupsWellFormed(gs) && GroupsCover(gs, ws)
    requires forall i :: 0 <= i < |gs| ==> gs[i].key != MonthOf(m)
    ensures AllWellFormed(ws + [m]) && GroupsCover(AddToGroups(gs, m), ws + [m])
  {
    AppendWellFormed(ws, m);
    var ws' := ws + [m];
    AddToNewGroup(gs, m);
    var r := AddToGroups(gs, m);
    forall k | 0 <= k < |ws'|
      ensures exists j :: 0 <= j < |r| && r[j].key == MonthOf(ws'[k])
    {
      if k < |ws| {
        var j :| 0 <= j < |gs| && gs[j].key == MonthOf(ws[k]);
        assert r[j].key == MonthOf(ws'[k]);
      } else {
        assert r[|gs|].key == MonthOf(ws'[k]);
      }
    }
  }

  lemma AddKeepsGroupsOf(gs: seq<Group>, ws: seq<SlackMessage>, m: SlackMessage)
    requires AllWellFormed(ws) && WellFormed(m) && GroupsWellFormed(gs) && GroupsOf(gs, ws)
    ensures AllWellFormed(ws + [m]) && GroupsOf(AddToGroups(gs, m), ws + [m])
  {
    if i :| 0 <= i < |gs| && gs[i].key == MonthOf(m) {
      AddToExistingGroup(gs, m, i);
      AddToExistingExact(gs, ws, m, i);
      AddToExistingCover(gs, ws, m, i);
    } else {
      AddToNewGroup(gs, m);
      AddToNewExact(gs, ws, m);
      AddToNewCover(gs, ws, m);
    }
  }

  /** `GroupBy` puts every message in the one group of its month, in input order, with one
      group per month that occurs. */
  lemma {:induction false} GroupByMonthGroups(ws: seq<SlackMessage>)
    requires AllWellFormed(ws)
    ensures GroupsOf(GroupByMonth(ws), ws)
  {
    if ws != [] {
      var front := ws[..|ws| - 1];
      GroupByMonthGroups(front);
      AddKeepsGroupsOf(GroupByMonth(front), front, ws[|ws| - 1]);
      assert front + [ws[|ws| - 1]] == ws;
    }
  }

  /** The elements of all groups together, with multiplicity. */
  function Members(gs: seq<Group>): multiset<SlackMessage> {
    if gs == [] then multiset{} else multiset(gs[0].members) + Members(gs[1..])
  }

  lemma {:induction false} MembersAppend(gs: seq<Group>, g: Group)
    ensures Members(gs + [g]) == Members(gs) + multiset(g.members)
  {
    if gs != [] {
      MembersAppend(gs[1..], g);
      assert (gs + [g])[1..] == gs[1..] + [g];
    }
  }

  lemma {:induction false} AddToGroupsMembers(gs: seq<Group>, m: SlackMessage)
    requires WellFormed(m) && GroupsWellFormed(gs)
    ensures Members(AddToGroups(gs, m)) == Members(gs) + multiset{m}
  {
    if gs != [] && gs[0].key != MonthOf(m) {
      AddToGroupsMembers(gs[1..], m);
    } else if gs != [] {
      assert ([gs[0].(members := gs[0].members + [m])] + gs[1..])[1..] == gs[1..];
    }
  }

  /** Grouping neither drops nor duplicates a message. */
  lemma {:induction false} GroupByMonthMembers(ws: seq<SlackMessage>)
    requires AllWellFormed(ws)
    ensures Members(GroupByMonth(ws)) == multiset(ws)
  {
    if ws != [] {
      var front := ws[..|ws| - 1];
      var last := ws[|ws| - 1];
      GroupByMonthMembers(front);
      AddToGroupsMembers(GroupByMonth(front), last);
      MultisetOfFront(ws);
    }
  }

  lemma MultisetOfFront(ws: seq<SlackMessage>)
    requires ws != []
    ensures multiset(ws) == multiset(ws[..|ws| - 1]) + multiset{ws[|ws| - 1]}
  {
    assert ws == ws[..|ws| - 1] + [ws[|ws| - 1]];
  }

  // ---------------------------------------------------------------------------------------
  // OrderBy(g => g.Key)
  // ---------------------------------------------------------------------------------------

  predicate KeysAscending(gs: seq<Group>) {
    forall i, j :: 0 <= i < j < |gs| ==> gs[i].key.seconds < gs[j].key.seconds
  }

  /** Inserts `g` after every group whose key is not greater. */
  function InsertGroup(s: seq<Group>, g: Group): (r: seq<Group>)
    requires KeysAscending(s) && forall i :: 0 <= i < |s| ==> s[i].key != g.key
    requires GroupsWellFormed(s) && ValidDateTime(g.key) && AllWellFormed(g.members)
    ensures |r| == |s| + 1 && KeysAscending(r) && GroupsWellFormed(r)
    ensures multiset(r) == multiset(s) + multiset{g}
  {
    if s == [] || s[|s| - 1].key.seconds <= g.key.seconds then
      s + [g]
    else
      var front := InsertGroup(s[..|s| - 1], g);
      InsertGroupBelowLast(s, g, front);
      front + [s[|s| - 1]]
  }

  lemma InsertGroupBelowLast(s: seq<Group>, g: Group, front: seq<Group>)
    requires KeysAscending(s) && s != [] && g.key.seconds < s[|s| - 1].key.seconds
    requires KeysAscending(front) && multiset(front) == multiset(s[..|s| - 1]) + multiset{g}
    ensures KeysAscending(front + [s[|s| - 1]])
    ensures multiset(front + [s[|s| - 1]]) == multiset(s) + multiset{g}
  {
    var last := s[|s| - 1];
    assert s == s[..|s| - 1] + [last];
    forall i | 0 <= i < |front|
      ensures front[i].key.seconds < last.key.seconds
    {
      assert front[i] in multiset(front);
      if front[i] != g {
        assert front[i] in s[..|s| - 1];
      }
    }
  }

  /** `OrderBy(g => g.Key)` over groups with distinct keys. */
  function SortGroups(gs: seq<Group>): (r: seq<Group>)
    requires KeysDistinct(gs)
    requires GroupsWellFormed(gs)
    ensures |r| == |gs| && KeysAscending(r) && GroupsWellFormed(r) && multiset(r) == multiset(gs)
  {
    if gs == [] then []
    else
      var front := gs[..|gs| - 1];
      var sorted := SortGroups(front);
      assert gs == front + [gs[|gs| - 1]];
      forall i | 0 <= i < |sorted|
        ensures sorted[i].key != gs[|gs| - 1].key
      {
        assert sorted[i] in multiset(front);
      }
      InsertGroup(sorted, gs[|gs| - 1])
  }

  lemma {:induction false} MembersOfPermutation(a: seq<Group>, b: seq<Group>)
    requires multiset(a) == multiset(b)
    ensures Members(a) == Members(b)
    decreases |a|
  {
    if a == [] {
      assert |multiset(b)| == 0;
    } else {
      var g := a[0];
      assert g in multiset(b);
      var i :| 0 <= i < |b| && b[i] == g;
      var rest := b[..i] + b[i + 1..];
      assert b == b[..i] + [g] + b[i + 1..];
      assert a == [g] + a[1..];
      assert multiset(a) == multiset{g} + multiset(a[1..]);
      assert multiset(b) == multiset(b[..i]) + multiset{g} + multiset(b[i + 1..]);
      assert multiset(rest) == multiset(b[..i]) + multiset(b[i + 1..]);
      assert multiset(a[1..]) == multiset(a) - multiset{g};
      assert multiset(rest) == multiset(b) - multiset{g};
      MembersOfPermutation(a[1..], rest);
      MembersSplit(b[..i], g, b[i + 1..]);
      MembersConcat(b[..i], b[i + 1..]);
    }
  }

  lemma {:induction false} MembersConcat(a: seq<Group>, b: seq<Group>)
    ensures Members(a + b) == Members(a) + Members(b)
  {
    if a == [] {
      assert a + b == b;
    } else {
      var ab := a + b;
      assert ab[0] == a[0];
      assert ab[1..] == a[1..] + b;
      MembersConcat(a[1..], b);
      assert Members(ab) == multiset(a[0].members) + Members(a[1..] + b);
    }
  }

  lemma MembersSplit(a: seq<Group>, g: Group, b: seq<Group>)
    ensures Members(a + [g] + b) == Members(a) + multiset(g.members) + Members(b)
  {
    MembersConcat(a + [g], b);
    MembersAppend(a, g);
  }

  // ---------------------------------------------------------------------------------------
  // The batches handed to the writer
  // ---------------------------------------------------------------------------------------

  /** One writer call's month and messages. */
  datatype Batch = Batch(month: DateTime, messages: seq<SlackMessage>)

  /** What the writer demands of its arguments: a valid month and well-formed messages. */
  predicate BatchesWellFormed(bs: seq<Batch>) {
    forall i :: 0 <= i < |bs| ==> ValidDateTime(bs[i].month) && AllWellFormed(bs[i].messages)
  }

  function ToBatches(gs: seq<Group>): (bs: seq<Batch>)
    requires GroupsWellFormed(gs)
    ensures |bs| == |gs| && BatchesWellFormed(bs)
    ensures forall i :: 0 <= i < |gs| ==> bs[i] == Batch(gs[i].key, SortByTime(gs[i].members))
  {
    if gs == [] then []
    else
      var rest := ToBatches(gs[1..]);
      var bs := [Batch(gs[0].key, SortByTime(gs[0].members))] + rest;
      assert forall i :: 1 <= i < |bs| ==> bs[i] == rest[i - 1];
      bs
  }

  /** `messagesWithThreads.GroupBy(month).OrderBy(g => g.Key)`, each group then ordered by
      `OrderBy(m => m.ParsedTimestamp)`. */
  function Plan(ws: seq<SlackMessage>): (bs: seq<Batch>)
    requires AllWellFormed(ws)
    ensures BatchesWellFormed(bs)
  {
    var gs := GroupByMonth(ws);
    GroupByMonthGroups(ws);
    ToBatches(SortGroups(gs))
  }

  /** All the batches' messages together. */
  function Flatten(bs: seq<Batch>): seq<SlackMessage> {
    if bs == [] then [] else bs[0].messages + Flatten(bs[1..])
  }

  lemma {:induction false} FlattenBatches(gs: seq<Group>)
    requires GroupsWellFormed(gs)
    ensures multiset(Flatten(ToBatches(gs))) == Members(gs)
  {
    if gs != [] {
      FlattenBatches(gs[1..]);
      assert ToBatches(gs)[1..] == ToBatches(gs[1..]);
    }
  }

  /** The writer is called once per month that occurs, in strictly ascending month order. */
  lemma PlanAscending(ws: seq<SlackMessage>)
    requires AllWellFormed(ws)
    ensures var bs := Plan(ws);
      forall i, j :: 0 <= i < j < |bs| ==> bs[i].month.seconds < bs[j].month.seconds
  {
  }

  /** Each batch holds exactly the working-set messages of its month, sorted by time with
      equal timestamps in working-set order, and is never empty. */
  lemma PlanContents(ws: seq<SlackMessage>)
    requires AllWellFormed(ws)
    ensures var bs := Plan(ws);
      forall i :: 0 <= i < |bs| ==>
        && bs[i].messages != []
        && bs[i].messages == SortByTime(InMonth(ws, bs[i].month))
        && AllWellFormed(bs[i].messages) && SortedByTime(bs[i].messages)
  {
    var bs := Plan(ws);
    forall i | 0 <= i < |bs|
      ensures bs[i].messages != [] && bs[i].messages == SortByTime(InMonth(ws, bs[i].month))
    {
      PlanBatchIsGroup(ws, i);
    }
  }

  lemma PlanBatchIsGroup(ws: seq<SlackMessage>, i: nat)
    requires AllWellFormed(ws) && i < |Plan(ws)|
    ensures Plan(ws)[i].messages != [] && Plan(ws)[i].messages == SortByTime(InMonth(ws, Plan(ws)[i].month))
  {
    var gs := GroupByMonth(ws);
    GroupByMonthGroups(ws);
    SortedGroupsExact(gs, ws);
  }

  /** Reordering the groups keeps each one exact. */
  lemma SortedGroupsExact(gs: seq<Group>, ws: seq<SlackMessage>)
    requires AllWellFormed(ws) && GroupsWellFormed(gs) && KeysDistinct(gs) && GroupsExact(gs, ws)
    ensures GroupsExact(SortGroups(gs), ws)
  {
    var sorted := SortGroups(gs);
    forall i | 0 <= i < |sorted|
      ensures sorted[i].members == InMonth(ws, sorted[i].key) && sorted[i].members != []
    {
      assert sorted[i] in multiset(gs);
      var j :| 0 <= j < |gs| && gs[j] == sorted[i];
    }
  }

  /** Every message's month has a batch. */
  lemma PlanCoversEveryMonth(ws: seq<SlackMessage>)
    requires AllWellFormed(ws)
    ensures var bs := Plan(ws);
      forall k :: 0 <= k < |ws| ==> exists i :: 0 <= i < |bs| && bs[i].month == MonthOf(ws[k])
  {
    var gs := GroupByMonth(ws);
    GroupByMonthGroups(ws);
    SortedGroupsCover(gs, ws);
    var sorted := SortGroups(gs);
    var bs := Plan(ws);
    forall k | 0 <= k < |ws|
      ensures exists i :: 0 <= i < |bs| && bs[i].month == MonthOf(ws[k])
    {
      var i :| 0 <= i < |sorted| && sorted[i].key == MonthOf(ws[k]);
      assert bs[i].month == MonthOf(ws[k]);
    }
  }

  /** Reordering the groups keeps a group for every message. */
  lemma SortedGroupsCover(gs: seq<Group>, ws: seq<SlackMessage>)
    requires AllWellFormed(ws) && GroupsWellFormed(gs) && KeysDistinct(gs) && GroupsCover(gs, ws)
    ensures GroupsCover(SortGroups(gs), ws)
  {
    var sorted := SortGroups(gs);
    forall k | 0 <= k < |ws|
      ensures exists i :: 0 <= i < |sorted| && sorted[i].key == MonthOf(ws[k])
    {
      var j :| 0 <= j < |gs| && gs[j].key == MonthOf(ws[k]);
      assert gs[j] in multiset(sorted);
      var i :| 0 <= i < |sorted| && sorted[i] == gs[j];
    }
  }

  /** The batches together are a permutation of the working set: grouping neither drops nor
      duplicates a message. */
  lemma PlanPermutation(ws: seq<SlackMessage>)
    requires AllWellFormed(ws)
    ensures multiset(Flatten(Plan(ws))) == multiset(ws)
  {
    var gs := GroupByMonth(ws);
    GroupByMonthGroups(ws);
    GroupByMonthMembers(ws);
    var sorted := SortGroups(gs);
    MembersOfPermutation(sorted, gs);
    FlattenBatches(sorted);
  }

  /** Every message of a batch has the batch's month as its key: its year and month are those
      of the batch's month. */
  lemma PlanMonths(ws: seq<SlackMessage>, i: nat, k: nat)
    requires AllWellFormed(ws)
    requires i < |Plan(ws)| && k < |Plan(ws)[i].messages|
    ensures var b := Plan(ws)[i];
      && WellFormed(b.messages[k]) && ValidDateTime(b.month)
      && MonthOf(b.messages[k]) == b.month
      && Year(ParsedTimestamp(b.messages[k])) == Year(b.month)
      && Month(ParsedTimestamp(b.messages[k])) == Month(b.month)
  {
    PlanContents(ws);
    var b := Plan(ws)[i];
    var inMonth := InMonth(ws, b.month);
    assert b.messages[k] in multiset(inMonth);
    MonthOfFields(b.messages[k]);
  }

  /** Different batches are for different calendar months, so they go to different files. */
  lemma PlanMonthsDistinct(ws: seq<SlackMessage>, i: nat, j: nat)
    requires AllWellFormed(ws) && i < j < |Plan(ws)|
    ensures var bs := Plan(ws);
      Year(bs[i].month) != Year(bs[j].month) || Month(bs[i].month) != Month(bs[j].month)
  {
    var bs := Plan(ws);
    PlanAscending(ws);
    PlanContents(ws);
    PlanMonths(ws, i, 0);
    PlanMonths(ws, j, 0);
    SameMonthIff(bs[i].messages[0], bs[j].messages[0]);
  }

  /** `bs` is what the writer must receive for working set `ws`: one batch per month that
      occurs, in strictly ascending month order, each holding exactly that month's messages
      sorted by time with equal timestamps in working-set order, together a permutation of
      `ws`. */
  predicate MonthBatches(bs: seq<Batch>, ws: seq<SlackMessage>)
    requires AllWellFormed(ws)
  {
    && (forall i, j :: 0 <= i < j < |bs| ==> bs[i].month.seconds < bs[j].month.seconds)
    && (forall k :: 0 <= k < |ws| ==> exists i :: 0 <= i < |bs| && bs[i].month == MonthOf(ws[k]))
    && (forall i :: 0 <= i < |bs| ==>
          && bs[i].messages != []
          && bs[i].messages == SortByTime(InMonth(ws, bs[i].month)))
    && multiset(Flatten(bs)) == multiset(ws)
  }

  lemma PlanIsMonthBatches(ws: seq<SlackMessage>)
    requires AllWellFormed(ws)
    ensures MonthBatches(Plan(ws), ws) && |Flatten(Plan(ws))| == |ws|
  {
    PlanAscending(ws);
    PlanCoversEveryMonth(ws);
    PlanContents(ws);
    PlanPermutation(ws);
    assert |Flatten(Plan(ws))| == |multiset(Flatten(Plan(ws)))|;
  }
}
