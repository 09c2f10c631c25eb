/** `ArchiveOrchestrator.ArchiveChannelAsync`: fetch a channel's history, expand every thread
    with its replies, group the working set by calendar month and hand each month, in
    ascending order, to the writer. As with the client, the operation is given as a function
    of the client's state (`Archive`) and as a method of the class `ArchiveOrchestrator`
    proved to agree with it. */
module Orchestration {
  import opened Wrappers
  import opened Calendar
  import opened SlackModels
  import opened Ordering
  import opened SlackClients
  import opened JsonWriters
  import opened MonthGrouping

  // ---------------------------------------------------------------------------------------
  // Thread expansion
  // ---------------------------------------------------------------------------------------

  /** `message.ReplyCount > 0`: a null count compares as false. */
  predicate HasThread(m: SlackMessage) {
    m.replyCount.Some? && m.replyCount.value > 0
  }

  /** `Skip(1)`: a thread's replies without its parent. */
  function SkipFirst(s: seq<SlackMessage>): (r: seq<SlackMessage>)
    ensures |r| == if s == [] then 0 else |s| - 1
  {
    if s == [] then [] else s[1..]
  }

  /** The timestamps of the history messages that have a thread, in history order. */
  function ThreadRoots(ms: seq<SlackMessage>): seq<string> {
    if ms == [] then []
    else (if HasThread(ms[0]) then [ms[0].ts] else []) + ThreadRoots(ms[1..])
  }

  /** A thread is fetched for exactly the messages whose reply count is positive. */
  lemma {:induction false} ThreadRootsMembers(ms: seq<SlackMessage>, t: string)
    ensures t in ThreadRoots(ms) <==> exists k :: 0 <= k < |ms| && HasThread(ms[k]) && ms[k].ts == t
  {
    if ms != [] {
      ThreadRootsMembers(ms[1..], t);
      if exists k :: 0 <= k < |ms| && HasThread(ms[k]) && ms[k].ts == t {
        var k :| 0 <= k < |ms| && HasThread(ms[k]) && ms[k].ts == t;
        if k > 0 {
          assert ms[1..][k - 1] == ms[k];
        }
      }
      if exists k :: 0 <= k < |ms[1..]| && HasThread(ms[1..][k]) && ms[1..][k].ts == t {
        var k :| 0 <= k < |ms[1..]| && HasThread(ms[1..][k]) && ms[1..][k].ts == t;
        assert ms[k + 1] == ms[1..][k];
      }
    }
  }

  /** The working set: each history message followed at once by the replies of its thread
      minus the first, the parent. `threads` holds the fetched threads in history order. */
  function Interleave(ms: seq<SlackMessage>, threads: seq<seq<SlackMessage>>): (ws: seq<SlackMessage>)
    requires |threads| == |ThreadRoots(ms)|
    ensures |ws| >= |ms|
  {
    if ms == [] then []
    else if HasThread(ms[0]) then [ms[0]] + SkipFirst(threads[0]) + Interleave(ms[1..], threads[1..])
    else [ms[0]] + Interleave(ms[1..], threads)
  }

  /** The replies a thread adds to the working set: all but the parent. */
  function Dropped(threads: seq<seq<SlackMessage>>): nat {
    if threads == [] then 0 else |SkipFirst(threads[0])| + Dropped(threads[1..])
  }

  /** The working set has |history| + the sum of max(0, |replies| - 1) messages. */
  lemma {:induction false} InterleaveLength(ms: seq<SlackMessage>, threads: seq<seq<SlackMessage>>)
    requires |threads| == |ThreadRoots(ms)|
    ensures |Interleave(ms, threads)| == |ms| + Dropped(threads)
  {
    if ms != [] {
      if HasThread(ms[0]) {
        InterleaveLength(ms[1..], threads[1..]);
      } else {
        InterleaveLength(ms[1..], threads);
      }
    }
  }

  /** Every history message stays in the working set, in history order. */
  lemma {:induction false} InterleaveKeepsHistory(ms: seq<SlackMessage>, threads: seq<seq<SlackMessage>>)
    requires |threads| == |ThreadRoots(ms)|
    ensures multiset(ms) <= multiset(Interleave(ms, threads))
    ensures ms != [] ==> Interleave(ms, threads)[0] == ms[0]
  {
    if ms != [] {
      assert ms == [ms[0]] + ms[1..];
      if HasThread(ms[0]) {
        InterleaveKeepsHistory(ms[1..], threads[1..]);
      } else {
        InterleaveKeepsHistory(ms[1..], threads);
      }
    }
  }

  /** A message without a thread is followed directly by the rest of the expansion. */
  lemma InterleaveWithoutThreads(ms: seq<SlackMessage>)
    requires forall k :: 0 <= k < |ms| ==> !HasThread(ms[k])
    ensures ThreadRoots(ms) == [] && Interleave(ms, []) == ms
  {
    if ms != [] {
      InterleaveWithoutThreads(ms[1..]);
    }
  }

  /** What the expansion loop has done: the client's state after it, the thread timestamps
      it asked for, the threads it got back, and the working set or the exception. */
  datatype Expansion = Expansion(state: ClientState, fetched: seq<string>,
                                 threads: seq<seq<SlackMessage>>, result: Result<seq<SlackMessage>>)

  /** The `foreach` that builds `messagesWithThreads`, from client state `st`. */
  function Expand(network: seq<HttpOutcome>, st: ClientState, channelId: string, ms: seq<SlackMessage>): (e: Expansion)
    requires NetworkWellFormed(network) && AllWellFormed(ms)
    ensures e.result.Ok? ==> AllWellFormed(e.result.value)
    decreases |ms|
  {
    if ms == [] then Expansion(st, [], [], Ok([]))
    else
      var m := ms[0];
      if HasThread(m) then
        var r := Replies(network, st, channelId, m.ts);
        match r.result
        case Failed(err) => Expansion(r.state, [m.ts], [], Failed(err))
        case Ok(replies) =>
          var rest := Expand(network, r.state, channelId, ms[1..]);
          Expansion(rest.state, [m.ts] + rest.fetched, [replies] + rest.threads,
            match rest.result
            case Failed(err) => Failed(err)
            case Ok(tail) =>
              WorkingWellFormed(m, SkipFirst(replies), tail);
              Ok([m] + SkipFirst(replies) + tail))
      else
        var rest := Expand(network, st, channelId, ms[1..]);
        Expansion(rest.state, rest.fetched, rest.threads,
          match rest.result
          case Failed(err) => Failed(err)
          case Ok(tail) =>
            WorkingWellFormed(m, [], tail);
            assert [m] + [] + tail == [m] + tail;
            Ok([m] + tail))
  }

  /** The expansion asks for the threads of the messages with a positive reply count, in
      history order, stopping at the first that throws; when none throws, the working set is
      each history message followed by its thread's replies minus the parent. */
  lemma {:induction false} ExpandFollowsThreads(network: seq<HttpOutcome>, st: ClientState, channelId: string,
                                                ms: seq<SlackMessage>)
    requires NetworkWellFormed(network) && AllWellFormed(ms)
    ensures var e := Expand(network, st, channelId, ms);
      && e.fetched <= ThreadRoots(ms)
      && (e.result.Ok? ==>
            && e.fetched == ThreadRoots(ms) && |e.threads| == |e.fetched|
            && e.result.value == Interleave(ms, e.threads))
    decreases |ms|
  {
    if ms != [] {
      if HasThread(ms[0]) {
        var r := Replies(network, st, channelId, ms[0].ts);
        if r.result.Ok? {
          ExpandFollowsThreads(network, r.state, channelId, ms[1..]);
          ExpandThreadStep(network, st, channelId, ms);
        }
      } else {
        ExpandFollowsThreads(network, st, channelId, ms[1..]);
        ExpandPlainStep(network, st, channelId, ms);
      }
    }
  }

  lemma ExpandThreadStep(network: seq<HttpOutcome>, st: ClientState, channelId: string, ms: seq<SlackMessage>)
    requires NetworkWellFormed(network) && AllWellFormed(ms) && ms != [] && HasThread(ms[0])
    requires var r := Replies(network, st, channelId, ms[0].ts);
      && r.result.Ok?
      && var rest := Expand(network, r.state, channelId, ms[1..]);
      && rest.fetched <= ThreadRoots(ms[1..])
      && (rest.result.Ok? ==>
            && rest.fetched == ThreadRoots(ms[1..]) && |rest.threads| == |rest.fetched|
            && rest.result.value == Interleave(ms[1..], rest.threads))
    ensures var e := Expand(network, st, channelId, ms);
      && e.fetched <= ThreadRoots(ms)
      && (e.result.Ok? ==>
            && e.fetched == ThreadRoots(ms) && |e.threads| == |e.fetched|
            && e.result.value == Interleave(ms, e.threads))
  {
    var r := Replies(network, st, channelId, ms[0].ts);
    var rest := Expand(network, r.state, channelId, ms[1..]);
    var e := Expand(network, st, channelId, ms);
    assert e.fetched == [ms[0].ts] + rest.fetched;
    assert ThreadRoots(ms) == [ms[0].ts] + ThreadRoots(ms[1..]);
    if e.result.Ok? {
      assert e.threads == [r.result.value] + rest.threads;
      assert e.threads[1..] == rest.threads;
    }
  }

  lemma ExpandPlainStep(network: seq<HttpOutcome>, st: ClientState, channelId: string, ms: seq<SlackMessage>)
    requires NetworkWellFormed(network) && AllWellFormed(ms) && ms != [] && !HasThread(ms[0])
    requires var rest := Expand(network, st, channelId, ms[1..]);
      && rest.fetched <= ThreadRoots(ms[1..])
      && (rest.result.Ok? ==>
            && rest.fetched == ThreadRoots(ms[1..]) && |rest.threads| == |rest.fetched|
            && rest.result.value == Interleave(ms[1..], rest.threads))
    ensures var e := Expand(network, st, channelId, ms);
      && e.fetched <= ThreadRoots(ms)
      && (e.result.Ok? ==>
            && e.fetched == ThreadRoots(ms) && |e.threads| == |e.fetched|
            && e.result.value == Interleave(ms, e.threads))
  {
    assert ThreadRoots(ms) == [] + ThreadRoots(ms[1..]) == ThreadRoots(ms[1..]);
  }

  lemma WorkingWellFormed(m: SlackMessage, replies: seq<SlackMessage>, tail: seq<SlackMessage>)
    requires WellFormed(m) && AllWellFormed(replies) && AllWellFormed(tail)
    ensures AllWellFormed([m] + replies + tail)
  {
  }

  /** A history without threads needs no request and is its own working set. */
  lemma {:induction false} ExpandWithoutThreads(network: seq<HttpOutcome>, st: ClientState, channelId: string,
                                                ms: seq<SlackMessage>)
    requires NetworkWellFormed(network) && AllWellFormed(ms)
    requires forall k :: 0 <= k < |ms| ==> !HasThread(ms[k])
    ensures Expand(network, st, channelId, ms) == Expansion(st, [], [], Ok(ms))
  {
    if ms != [] {
      ExpandWithoutThreads(network, st, channelId, ms[1..]);
      assert [ms[0]] + ms[1..] == ms;
    }
  }

  // ---------------------------------------------------------------------------------------
  // One channel
  // ---------------------------------------------------------------------------------------

  /** What archiving one channel does: the client's state after it, the thread timestamps it
      asked for, the batches it handed to the writer, and whether it threw. */
  datatype ArchiveRun = ArchiveRun(state: ClientState, fetched: seq<string>, batches: seq<Batch>, outcome: Result<()>)

  /** `ArchiveChannelAsync(channelId, channelName, from, to)` with the window in Unix seconds. */
  function Archive(network: seq<HttpOutcome>, st: ClientState, channelId: string,
                   oldest: Option<int>, latest: Option<int>): (run: ArchiveRun)
    requires NetworkWellFormed(network)
    ensures BatchesWellFormed(run.batches)
  {
    var h := History(network, st, HistoryQuery(channelId, oldest, latest));
    match h.result
    case Failed(e) => ArchiveRun(h.state, [], [], Failed(e))
    case Ok(ms) =>
      if ms == [] then ArchiveRun(h.state, [], [], Ok(()))
      else ArchiveRunOf(Expand(network, h.state, channelId, ms))
  }

  /** The writer call for one batch, as a file write. */
  function WriteOf(outputPath: string, channelId: string, channelName: string, b: Batch): FileWrite
    requires ValidDateTime(b.month) && AllWellFormed(b.messages)
  {
    FileWrite(ArchivePath(outputPath, channelName, b.month), ArchiveLines(channelId, channelName, b.messages))
  }

  /** The writer calls for the first `n` batches of `bs`, in order, as file writes. */
  function WritesUpTo(outputPath: string, channelId: string, channelName: string, bs: seq<Batch>, n: nat): (ws: seq<FileWrite>)
    requires BatchesWellFormed(bs) && n <= |bs|
    ensures |ws| == n
  {
    if n == 0 then [] else WritesUpTo(outputPath, channelId, channelName, bs, n - 1) + [WriteOf(outputPath, channelId, channelName, bs[n - 1])]
  }

  lemma {:induction false} WritesUpToAt(outputPath: string, channelId: string, channelName: string, bs: seq<Batch>, n: nat, i: nat)
    requires BatchesWellFormed(bs) && i < n <= |bs|
    ensures WritesUpTo(outputPath, channelId, channelName, bs, n)[i] == WriteOf(outputPath, channelId, channelName, bs[i])
  {
    if i < n - 1 {
      WritesUpToAt(outputPath, channelId, channelName, bs, n - 1, i);
    }
  }

  /** The writer calls for `bs`, in order, as file writes. */
  function Writes(outputPath: string, channelId: string, channelName: string, bs: seq<Batch>): (ws: seq<FileWrite>)
    requires BatchesWellFormed(bs)
    ensures |ws| == |bs|
  {
    WritesUpTo(outputPath, channelId, channelName, bs, |bs|)
  }

  /** The i-th file write is the one for the i-th batch. */
  lemma WritesAt(outputPath: string, channelId: string, channelName: string, bs: seq<Batch>, i: nat)
    requires BatchesWellFormed(bs) && i < |bs|
    ensures Writes(outputPath, channelId, channelName, bs)[i] == WriteOf(outputPath, channelId, channelName, bs[i])
  {
    WritesUpToAt(outputPath, channelId, channelName, bs, |bs|, i);
  }

  /** An empty history: no thread is fetched and the writer is never called. */
  lemma EmptyHistoryWritesNothing(network: seq<HttpOutcome>, st: ClientState, channelId: string,
                                  oldest: Option<int>, latest: Option<int>)
    requires NetworkWellFormed(network)
    requires History(network, st, HistoryQuery(channelId, oldest, latest)).result == Ok([])
    ensures var run := Archive(network, st, channelId, oldest, latest);
      run.fetched == [] && run.batches == [] && run.outcome == Ok(())
      && run.state == History(network, st, HistoryQuery(channelId, oldest, latest)).state
  {
  }

  /** An exception is rethrown before any month is written. */
  lemma FailureWritesNothing(network: seq<HttpOutcome>, st: ClientState, channelId: string,
                             oldest: Option<int>, latest: Option<int>)
    requires NetworkWellFormed(network)
    ensures var run := Archive(network, st, channelId, oldest, latest);
      run.outcome.Failed? ==> run.batches == []
  {
  }

  /** Threads are fetched only for history messages with a positive reply count, in history
      order, and, when the run completes, for every one of them. */
  lemma ArchiveFetchesThreads(network: seq<HttpOutcome>, st: ClientState, channelId: string,
                              oldest: Option<int>, latest: Option<int>)
    requires NetworkWellFormed(network)
    ensures var run := Archive(network, st, channelId, oldest, latest);
      var h := History(network, st, HistoryQuery(channelId, oldest, latest));
      && (h.result.Failed? ==> run.fetched == [])
      && (h.result.Ok? ==>
            && run.fetched <= ThreadRoots(h.result.value)
            && (forall t :: t in run.fetched ==>
                  exists k :: 0 <= k < |h.result.value| && HasThread(h.result.value[k]) && h.result.value[k].ts == t)
            && (run.outcome.Ok? ==> run.fetched == ThreadRoots(h.result.value)))
  {
    var h := History(network, st, HistoryQuery(channelId, oldest, latest));
    if h.result.Ok? && h.result.value != [] {
      ExpandFollowsThreads(network, h.state, channelId, h.result.value);
      ExpandFetchesThreadRoots(network, h.state, channelId, h.result.value);
    }
  }

  /** The expansion asks only for threads of messages with a positive reply count. */
  lemma ExpandFetchesThreadRoots(network: seq<HttpOutcome>, st: ClientState, channelId: string, ms: seq<SlackMessage>)
    requires NetworkWellFormed(network) && AllWellFormed(ms)
    ensures var e := Expand(network, st, channelId, ms);
      forall t :: t in e.fetched ==> exists k :: 0 <= k < |ms| && HasThread(ms[k]) && ms[k].ts == t
  {
    var e := Expand(network, st, channelId, ms);
    ExpandFollowsThreads(network, st, channelId, ms);
    forall t | t in e.fetched
      ensures exists k :: 0 <= k < |ms| && HasThread(ms[k]) && ms[k].ts == t
    {
      ThreadRootsMembers(ms, t);
    }
  }

  /** On success the writer receives the month batches of the working set (see
      `MonthBatches`), and the working set has |history| + the sum of
      max(0, |replies| - 1) messages. */
  lemma ArchiveBatches(network: seq<HttpOutcome>, st: ClientState, channelId: string,
                       oldest: Option<int>, latest: Option<int>)
    requires NetworkWellFormed(network)
    ensures var h := History(network, st, HistoryQuery(channelId, oldest, latest));
      var run := Archive(network, st, channelId, oldest, latest);
      h.result.Ok? && h.result.value != [] && run.outcome.Ok? ==>
        var x := Expand(network, h.state, channelId, h.result.value);
        && x.result.Ok? && |x.threads| == |ThreadRoots(h.result.value)|
        && var ws := Interleave(h.result.value, x.threads);
        && x.result.value == ws
        && run.batches == Plan(ws)
        && MonthBatches(run.batches, ws)
        && |Flatten(run.batches)| == |h.result.value| + Dropped(x.threads)
  {
    var h := History(network, st, HistoryQuery(channelId, oldest, latest));
    if h.result.Ok? && h.result.value != [] {
      var x := Expand(network, h.state, channelId, h.result.value);
      ExpandFollowsThreads(network, h.state, channelId, h.result.value);
      if x.result.Ok? {
        InterleaveLength(h.result.value, x.threads);
        PlanIsMonthBatches(x.result.value);
      }
    }
  }

  // ---------------------------------------------------------------------------------------
  // What the files hold afterwards
  // ---------------------------------------------------------------------------------------

  /** A write that no later write overwrites decides what its file holds. */
  lemma {:induction false} ContentsOfLastWrite(log: seq<FileWrite>, writes: seq<FileWrite>, i: nat)
    requires i < |writes|
    requires forall j :: i < j < |writes| ==> writes[j].path != writes[i].path
    ensures Contents(log + writes, writes[i].path) == Some(writes[i].lines)
    decreases |writes|
  {
    var front := writes[..|writes| - 1];
    var last := writes[|writes| - 1];
    assert log + writes == (log + front) + [last];
    ContentsAfterWrite(log + front, last, writes[i].path);
    if i < |writes| - 1 {
      ContentsOfLastWrite(log, front, i);
    }
  }

  /** After a successful run, the file of each month written holds exactly that month's
      records, sorted by time: no month overwrites another. */
  lemma MonthFilesHoldTheirBatches(outputPath: string, channelId: string, channelName: string,
                                   ws: seq<SlackMessage>, log: seq<FileWrite>, i: nat)
    requires AllWellFormed(ws) && i < |Plan(ws)|
    ensures var bs := Plan(ws);
      Contents(log + Writes(outputPath, channelId, channelName, bs), ArchivePath(outputPath, channelName, bs[i].month))
        == Some(ArchiveLines(channelId, channelName, bs[i].messages))
  {
    var bs := Plan(ws);
    var writes := Writes(outputPath, channelId, channelName, bs);
    WritesAt(outputPath, channelId, channelName, bs, i);
    forall j | i < j < |writes|
      ensures writes[j].path != writes[i].path
    {
      WritesAt(outputPath, channelId, channelName, bs, j);
      PlanMonthsDistinct(ws, i, j);
      ArchivePathsDistinct(outputPath, channelName, bs[i].month, bs[j].month);
    }
    ContentsOfLastWrite(log, writes, i);
  }

  /** Every record of a month's file carries the channel it was archived for and a `ts_iso`
      that begins with the file name's "yyyy-MM", and the records are in time order. */
  lemma MonthFileRecords(channelId: string, channelName: string, ws: seq<SlackMessage>, i: nat, k: nat)
    requires AllWellFormed(ws) && i < |Plan(ws)|
    requires k < |Plan(ws)[i].messages|
    ensures var b := Plan(ws)[i]; var r := ArchiveLines(channelId, channelName, b.messages)[k];
      && |r.tsIso| == 20
      && r.tsIso[..7] == FormatYearMonth(b.month)
      && r.channelId == channelId && r.channelName == channelName
      && r == ToRecord(channelId, channelName, b.messages[k])
  {
    var b := Plan(ws)[i];
    PlanContents(ws);
    ArchiveLinesOfSorted(channelId, channelName, b.messages);
    var m := b.messages[k];
    PlanMonths(ws, i, k);
    TsIsoAgreesWithParsedTimestamp(m);
    FormatIsoStartsWithYearMonth(ParsedTimestamp(m));
    FormatYearMonthInjective(ParsedTimestamp(m), b.month);
  }

  // ---------------------------------------------------------------------------------------
  // Loop invariants of the orchestrator
  // ---------------------------------------------------------------------------------------

  /** The expansion `e` of the rest of the history, after a prefix that added `working` to the
      working set, asked for the threads `fetched` and got back `threads`. */
  function After(working: seq<SlackMessage>, fetched: seq<string>, threads: seq<seq<SlackMessage>>,
                 e: Expansion): Expansion {
    Expansion(e.state, fetched + e.fetched, threads + e.threads,
      match e.result
      case Failed(err) => Failed(err)
      case Ok(rest) => Ok(working + rest))
  }

  lemma AfterNothing(e: Expansion)
    ensures After([], [], [], e) == e
  {
    assert [] + e.fetched == e.fetched && [] + e.threads == e.threads;
    if e.result.Ok? {
      assert [] + e.result.value == e.result.value;
    }
  }

  lemma AfterTwice(w1: seq<SlackMessage>, f1: seq<string>, t1: seq<seq<SlackMessage>>,
                   w2: seq<SlackMessage>, f2: seq<string>, t2: seq<seq<SlackMessage>>, e: Expansion)
    ensures After(w1, f1, t1, After(w2, f2, t2, e)) == After(w1 + w2, f1 + f2, t1 + t2, e)
  {
    assert f1 + (f2 + e.fetched) == (f1 + f2) + e.fetched;
    assert t1 + (t2 + e.threads) == (t1 + t2) + e.threads;
    if e.result.Ok? {
      assert w1 + (w2 + e.result.value) == (w1 + w2) + e.result.value;
    }
  }

  /** One pass of the expansion loop over a message without a thread. */
  lemma ExpandPlain(network: seq<HttpOutcome>, st: ClientState, channelId: string, ms: seq<SlackMessage>)
    requires NetworkWellFormed(network) && AllWellFormed(ms) && ms != [] && !HasThread(ms[0])
    ensures Expand(network, st, channelId, ms) == After([ms[0]], [], [], Expand(network, st, channelId, ms[1..]))
  {
    var rest := Expand(network, st, channelId, ms[1..]);
    assert [] + rest.fetched == rest.fetched && [] + rest.threads == rest.threads;
  }

  /** One pass of the expansion loop over a message whose thread was fetched. */
  lemma ExpandThread(network: seq<HttpOutcome>, st: ClientState, channelId: string, ms: seq<SlackMessage>)
    requires NetworkWellFormed(network) && AllWellFormed(ms) && ms != [] && HasThread(ms[0])
    requires Replies(network, st, channelId, ms[0].ts).result.Ok?
    ensures var r := Replies(network, st, channelId, ms[0].ts);
      Expand(network, st, channelId, ms)
        == After([ms[0]] + SkipFirst(r.result.value), [ms[0].ts], [r.result.value], Expand(network, r.state, channelId, ms[1..]))
  {
    var r := Replies(network, st, channelId, ms[0].ts);
    var rest := Expand(network, r.state, channelId, ms[1..]);
    if rest.result.Ok? {
      assert [ms[0]] + SkipFirst(r.result.value) + rest.result.value
        == ([ms[0]] + SkipFirst(r.result.value)) + rest.result.value;
    }
  }

  /** One pass of the expansion loop whose thread fetch throws: the loop ends there. */
  lemma ExpandFailedStep(network: seq<HttpOutcome>, st: ClientState, channelId: string, ms: seq<SlackMessage>)
    requires NetworkWellFormed(network) && AllWellFormed(ms) && ms != [] && HasThread(ms[0])
    requires Replies(network, st, channelId, ms[0].ts).result.Failed?
    ensures var r := Replies(network, st, channelId, ms[0].ts);
      Expand(network, st, channelId, ms) == Expansion(r.state, [ms[0].ts], [], Failed(r.result.error))
  {
  }

  /** The rest of `Archive` once the history is non-empty and expanded to `x`. */
  function ArchiveRunOf(x: Expansion): (run: ArchiveRun)
    requires x.result.Ok? ==> AllWellFormed(x.result.value)
  {
    match x.result
    case Failed(e) => ArchiveRun(x.state, x.fetched, [], Failed(e))
    case Ok(ws) => ArchiveRun(x.state, x.fetched, Plan(ws), Ok(()))
  }

  // ---------------------------------------------------------------------------------------
  // The orchestrator
  // ---------------------------------------------------------------------------------------

  class ArchiveOrchestrator {
    /** `_slackClient`. */
    const client: SlackClient
    /** `_jsonWriter`. */
    const writer: JsonWriter

    constructor (client: SlackClient, writer: JsonWriter)
      ensures this.client == client && this.writer == writer
    {
      this.client := client;
      this.writer := writer;
    }

    /** The `foreach` of `ArchiveChannelAsync` that builds `messagesWithThreads`: each message,
        and after a message with a positive reply count its thread's replies minus the
        first. `fetched` and `threads` record the thread timestamps asked for and the
        threads got back. */
    method ExpandThreads(channelId: string, ms: seq<SlackMessage>)
      returns (ghost fetched: seq<string>, ghost threads: seq<seq<SlackMessage>>, working: Result<seq<SlackMessage>>)
      requires NetworkWellFormed(client.network) && AllWellFormed(ms)
      modifies client
      ensures Expansion(client.State(), fetched, threads, working)
        == Expand(client.network, old(client.State()), channelId, ms)
    {
      ghost var network := client.network;
      ghost var x := Expand(network, client.State(), channelId, ms);
      var done: seq<SlackMessage> := [];
      fetched, threads := [], [];
      AfterNothing(x);
      assert ms[0..] == ms;
      for i := 0 to |ms|
        invariant x == After(done, fetched, threads, Expand(network, client.State(), channelId, ms[i..]))
      {
        ghost var before := client.State();
        assert ms[i..][0] == ms[i] && ms[i..][1..] == ms[i + 1..];
        var m := ms[i];
        if m.replyCount.Some? && m.replyCount.value > 0 {
          var replies := client.GetThreadReplies(channelId, m.ts);
          if replies.Failed? {
            ExpandFailedStep(network, before, channelId, ms[i..]);
            fetched := fetched + [m.ts];
            assert threads + [] == threads;
            return fetched, threads, Failed(replies.error);
          }
          ExpandThread(network, before, channelId, ms[i..]);
          AfterTwice(done, fetched, threads, [m] + SkipFirst(replies.value), [m.ts], [replies.value],
            Expand(network, client.State(), channelId, ms[i + 1..]));
          done := done + ([m] + SkipFirst(replies.value));
          fetched := fetched + [m.ts];
          threads := threads + [replies.value];
        } else {
          ExpandPlain(network, before, channelId, ms[i..]);
          AfterTwice(done, fetched, threads, [m], [], [],
            Expand(network, client.State(), channelId, ms[i + 1..]));
          done := done + [m];
          assert fetched + [] == fetched && threads + [] == threads;
        }
      }
      assert ms[|ms|..] == [];
      assert fetched + [] == fetched && threads + [] == threads && done + [] == done;
      return fetched, threads, Ok(done);
    }

    /** The `foreach` over the month groups: one writer call per batch, in order. */
    method WriteMonths(channelId: string, channelName: string, months: seq<Batch>)
      requires BatchesWellFormed(months)
      modifies writer
      ensures writer.log == old(writer.log) + Writes(writer.outputPath, channelId, channelName, months)
    {
      for j := 0 to |months|
        invariant writer.log == old(writer.log) + WritesUpTo(writer.outputPath, channelId, channelName, months, j)
      {
        WriteMonth(channelId, channelName, months[j]);
      }
    }

    /** One `WriteChannelArchiveAsync` call, for the batch of one month. */
    method WriteMonth(channelId: string, channelName: string, b: Batch)
      requires ValidDateTime(b.month) && AllWellFormed(b.messages)
      modifies writer
      ensures writer.log == old(writer.log) + [WriteOf(writer.outputPath, channelId, channelName, b)]
    {
      writer.WriteChannelArchive(channelId, channelName, b.month, b.messages);
    }

    /** `ArchiveChannelAsync(channelId, channelName, from, to)`. `fetched` records the thread
        timestamps asked for; `outcome` is `Failed` when the method rethrows. */
    method ArchiveChannel(channelId: string, channelName: string, oldest: Option<int>, latest: Option<int>)
      returns (ghost fetched: seq<string>, outcome: Result<()>)
      requires NetworkWellFormed(client.network)
      modifies client, writer
      ensures var run := Archive(client.network, old(client.State()), channelId, oldest, latest);
        && client.State() == run.state && fetched == run.fetched && outcome == run.outcome
        && writer.log == old(writer.log) + Writes(writer.outputPath, channelId, channelName, run.batches)
    {
      ghost var network := client.network;
      ghost var run := Archive(network, client.State(), channelId, oldest, latest);
      fetched := [];
      var messages := client.GetChannelHistory(channelId, oldest, latest);
      if messages.Failed? {
        assert writer.log == old(writer.log) + [];
        return fetched, Failed(messages.error);
      }
      var ms := messages.value;
      if ms == [] {
        assert writer.log == old(writer.log) + [];
        return fetched, Ok(());
      }
      ghost var threads;
      var working;
      fetched, threads, working := ExpandThreads(channelId, ms);
      if working.Failed? {
        assert writer.log == old(writer.log) + [];
        return fetched, Failed(working.error);
      }
      var months := Plan(working.value);
      WriteMonths(channelId, channelName, months);
      return fetched, Ok(());
    }
  }
}
