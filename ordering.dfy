/** `OrderBy(m => m.ParsedTimestamp)`, the sort used by the client, the orchestrator and the
    writer. LINQ's `OrderBy` is a stable sort; it is modelled as an insertion sort that puts
    each element after every earlier element whose key is not greater. */
module Ordering {
  import opened SlackModels

  /** The sort key: `ParsedTimestamp`, compared as .NET compares `DateTime`. */
  function Key(m: SlackMessage): nat
    requires WellFormed(m)
  {
    ParsedTimestamp(m).seconds
  }

  predicate SortedByTime(s: seq<SlackMessage>)
    requires AllWellFormed(s)
  {
    forall i, j :: 0 <= i < j < |s| ==> Key(s[i]) <= Key(s[j])
  }

  /** The elements of `s` whose key is `k`, in their order in `s`. */
  function WithKey(s: seq<SlackMessage>, k: nat): seq<SlackMessage>
    requires AllWellFormed(s)
  {
    if s == [] then []
    else WithKey(s[..|s| - 1], k) + (if Key(s[|s| - 1]) == k then [s[|s| - 1]] else [])
  }

  /** Inserts `m` into a sorted sequence after every element whose key is not greater. */
  function InsertByTime(s: seq<SlackMessage>, m: SlackMessage): (r: seq<SlackMessage>)
    requires AllWellFormed(s) && WellFormed(m) && SortedByTime(s)
    ensures |r| == |s| + 1 && AllWellFormed(r) && SortedByTime(r)
    ensures multiset(r) == multiset(s) + multiset{m}
  {
    if s == [] || Key(s[|s| - 1]) <= Key(m) then
      AppendSorted(s, m);
      s + [m]
    else
      var front := InsertByTime(s[..|s| - 1], m);
      InsertBelowLast(s, m, front);
      front + [s[|s| - 1]]
  }

  lemma AppendSorted(s: seq<SlackMessage>, m: SlackMessage)
    requires AllWellFormed(s) && WellFormed(m) && SortedByTime(s)
    requires s == [] || Key(s[|s| - 1]) <= Key(m)
    ensures AllWellFormed(s + [m]) && SortedByTime(s + [m])
  {
  }

  lemma InsertBelowLast(s: seq<SlackMessage>, m: SlackMessage, front: seq<SlackMessage>)
    requires AllWellFormed(s) && WellFormed(m) && SortedByTime(s) && s != []
    requires Key(m) < Key(s[|s| - 1])
    requires AllWellFormed(front) && SortedByTime(front)
    requires multiset(front) == multiset(s[..|s| - 1]) + multiset{m}
    ensures AllWellFormed(front + [s[|s| - 1]]) && SortedByTime(front + [s[|s| - 1]])
    ensures multiset(front + [s[|s| - 1]]) == multiset(s) + multiset{m}
  {
    var last := s[|s| - 1];
    assert s == s[..|s| - 1] + [last];
    forall i | 0 <= i < |front|
      ensures Key(front[i]) <= Key(last)
    {
      assert front[i] in multiset(front);
      if front[i] != m {
        assert front[i] in s[..|s| - 1];
      }
    }
  }

  /** `OrderBy(m => m.ParsedTimestamp)`: sorted, and a permutation of its input. */
  function SortByTime(s: seq<SlackMessage>): (r: seq<SlackMessage>)
    requires AllWellFormed(s)
    ensures |r| == |s| && AllWellFormed(r) && SortedByTime(r)
    ensures multiset(r) == multiset(s)
  {
    if s == [] then []
    else
      assert s == s[..|s| - 1] + [s[|s| - 1]];
      InsertByTime(SortByTime(s[..|s| - 1]), s[|s| - 1])
  }

  lemma WithKeyAppend(s: seq<SlackMessage>, x: SlackMessage, k: nat)
    requires AllWellFormed(s) && WellFormed(x)
    ensures WithKey(s + [x], k) == WithKey(s, k) + (if Key(x) == k then [x] else [])
  {
    assert (s + [x])[..|s|] == s;
  }

  lemma FrontSorted(s: seq<SlackMessage>)
    requires AllWellFormed(s) && SortedByTime(s) && s != []
    ensures AllWellFormed(s[..|s| - 1]) && SortedByTime(s[..|s| - 1])
    ensures s == s[..|s| - 1] + [s[|s| - 1]]
  {
  }

  /** Below the last element, insertion goes into the front and the last element stays last. */
  lemma InsertByTimeBelowLast(s: seq<SlackMessage>, m: SlackMessage)
    requires AllWellFormed(s) && WellFormed(m) && SortedByTime(s) && s != []
    requires Key(m) < Key(s[|s| - 1])
    ensures AllWellFormed(s[..|s| - 1]) && SortedByTime(s[..|s| - 1])
    ensures InsertByTime(s, m) == InsertByTime(s[..|s| - 1], m) + [s[|s| - 1]]
  {
    FrontSorted(s);
  }

  /** Inserting `m` adds it at the end of its own key's elements and disturbs no other key. */
  lemma {:induction false} InsertByTimeWithKey(s: seq<SlackMessage>, m: SlackMessage, k: nat)
    requires AllWellFormed(s) && WellFormed(m) && SortedByTime(s)
    ensures WithKey(InsertByTime(s, m), k) == WithKey(s, k) + (if Key(m) == k then [m] else [])
  {
    if s == [] || Key(s[|s| - 1]) <= Key(m) {
      WithKeyAppend(s, m, k);
    } else {
      InsertByTimeBelowLast(s, m);
      var front := s[..|s| - 1];
      var last := s[|s| - 1];
      var inserted := InsertByTime(front, m);
      InsertByTimeWithKey(front, m, k);
      WithKeyAppend(inserted, last, k);
      WithKeyAppend(front, last, k);
      assert s == front + [last];
      SwapDisjoint(WithKey(front, k), if Key(last) == k then [last] else [], if Key(m) == k then [m] else []);
    }
  }

  lemma SwapDisjoint(w: seq<SlackMessage>, xs: seq<SlackMessage>, ys: seq<SlackMessage>)
    requires xs == [] || ys == []
    ensures w + ys + xs == w + xs + ys
  {
    if xs == [] {
      assert w + ys + [] == w + ys && w + [] == w;
    } else {
      assert w + [] == w && w + xs + [] == w + xs;
    }
  }

  /** Stability: the messages that share a timestamp keep their input order. */
  lemma {:induction false} SortByTimeStable(s: seq<SlackMessage>, k: nat)
    requires AllWellFormed(s)
    ensures WithKey(SortByTime(s), k) == WithKey(s, k)
  {
    if s != [] {
      var front := s[..|s| - 1];
      SortByTimeStable(front, k);
      InsertByTimeWithKey(SortByTime(front), s[|s| - 1], k);
    }
  }

  /** Input that is already in order comes out unchanged. */
  lemma {:induction false} SortByTimeOfSorted(s: seq<SlackMessage>)
    requires AllWellFormed(s) && SortedByTime(s)
    ensures SortByTime(s) == s
  {
    if s != [] {
      FrontSorted(s);
      var front := s[..|s| - 1];
      var last := s[|s| - 1];
      SortByTimeOfSorted(front);
      assert front == [] || Key(front[|front| - 1]) <= Key(last);
      assert InsertByTime(front, last) == front + [last];
    }
  }

  lemma KeyUnnamed(m: SlackMessage)
    requires WellFormed(m)
    ensures WellFormed(Unnamed(m)) && Key(Unnamed(m)) == Key(m)
  {
  }

  lemma SortedUnnamed(s: seq<SlackMessage>)
    requires AllWellFormed(s) && SortedByTime(s)
    ensures SortedByTime(UnnamedAll(s))
  {
    var u := UnnamedAll(s);
    forall i | 0 <= i < |s|
      ensures Key(u[i]) == Key(s[i])
    {
      KeyUnnamed(s[i]);
    }
  }

  lemma UnnamedAppend(s: seq<SlackMessage>, m: SlackMessage)
    ensures UnnamedAll(s + [m]) == UnnamedAll(s) + [Unnamed(m)]
    ensures s != [] ==> UnnamedAll(s)[..|s| - 1] == UnnamedAll(s[..|s| - 1])
  {
  }

  /** The order does not depend on display names: clearing them commutes with insertion. */
  lemma {:induction false} InsertByTimeUnnamed(s: seq<SlackMessage>, m: SlackMessage)
    requires AllWellFormed(s) && WellFormed(m) && SortedByTime(s)
    ensures SortedByTime(UnnamedAll(s))
    ensures UnnamedAll(InsertByTime(s, m)) == InsertByTime(UnnamedAll(s), Unnamed(m))
  {
    SortedUnnamed(s);
    KeyUnnamed(m);
    var u := UnnamedAll(s);
    if s == [] || Key(s[|s| - 1]) <= Key(m) {
      UnnamedAppend(s, m);
      if s != [] {
        KeyUnnamed(s[|s| - 1]);
      }
    } else {
      var front := s[..|s| - 1];
      var last := s[|s| - 1];
      FrontSorted(s);
      InsertByTimeUnnamed(front, m);
      UnnamedAppend(s, m);
      KeyUnnamed(last);
      assert u[|u| - 1] == Unnamed(last);
      InsertByTimeBelowLast(u, Unnamed(m));
      UnnamedAppend(InsertByTime(front, m), last);
    }
  }

  /** Sorting messages and clearing their display names can be done in either order. */
  lemma {:induction false} SortByTimeUnnamed(s: seq<SlackMessage>)
    requires AllWellFormed(s)
    ensures UnnamedAll(SortByTime(s)) == SortByTime(UnnamedAll(s))
  {
    if s != [] {
      var front := s[..|s| - 1];
      SortByTimeUnnamed(front);
      InsertByTimeUnnamed(SortByTime(front), s[|s| - 1]);
      UnnamedAppend(s, s[|s| - 1]);
    }
  }
}
