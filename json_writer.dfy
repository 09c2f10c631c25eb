/** `JsonWriter`: one JSON Lines file per channel and month. The file system is a journal of
    `File.WriteAllLinesAsync` calls, each naming a path and the records written to it as its
    lines; the serialised JSON text of a record is not modelled. */
module JsonWriters {
  import opened Wrappers
  import opened Calendar
  import opened SlackModels
  import opened Ordering

  const SchemaVersion := "1.0"

  /** One line of an archive file: the anonymous `messageWithContext` object. `kind` is the
      member "type". */
  datatype ArchiveRecord = ArchiveRecord(
    schemaVersion: string,
    channelId: string,
    channelName: string,
    ts: string,
    tsIso: string,
    threadId: string,
    isRoot: bool,
    messageType: string,
    user: Option<string>,
    userDisplayName: Option<string>,
    actorUser: Option<string>,
    text: string,
    mentions: Option<seq<string>>,
    replyCount: Option<int>,
    threadTs: Option<string>,
    kind: Option<string>,
    subtype: Option<string>)

  /** The record written for message `m` of channel `channelId` named `channelName`. */
  function ToRecord(channelId: string, channelName: string, m: SlackMessage): (r: ArchiveRecord)
    requires WellFormed(m)
    ensures r.schemaVersion == SchemaVersion && r.channelId == channelId && r.channelName == channelName
    ensures MessageOf(r) == m
  {
    ArchiveRecord(SchemaVersion, channelId, channelName, m.ts, TsIso(m), ThreadId(m), IsRoot(m),
      MessageType(m), m.userId, m.userDisplayName, m.actorUser, m.text, Mentions(m),
      m.replyCount, m.threadTs, m.kind, m.subtype)
  }

  /** The message a record was written from, rebuilt from the record's own members. */
  function MessageOf(r: ArchiveRecord): SlackMessage {
    SlackMessage(r.ts, r.user, r.text, r.threadTs, r.replyCount, r.kind, r.subtype, r.userDisplayName, r.actorUser)
  }

  /** Every record carries the schema version and the channel it was written for, and its
      derived members agree with its copied ones: the thread id is the thread timestamp or
      the message's own, a root is its own thread, the type is never empty, and `ts_iso` is
      the 20-character rendering of the whole seconds of `ts`; each derived member is the
      value the message's own getter computes. */
  lemma RecordConsistent(channelId: string, channelName: string, m: SlackMessage)
    requires WellFormed(m)
    ensures var r := ToRecord(channelId, channelName, m);
      && r.threadId == ThreadId(m) && r.isRoot == IsRoot(m) && r.messageType == MessageType(m)
      && r.mentions == Mentions(m) && r.tsIso == TsIso(m)
    ensures var r := ToRecord(channelId, channelName, m);
      && r.schemaVersion == "1.0" && r.channelId == channelId && r.channelName == channelName
      && r.threadId == r.threadTs.GetOr(r.ts)
      && (r.isRoot <==> r.threadId == r.ts)
      && r.messageType != ""
      && (r.mentions.Some? ==> r.mentions.value != [] && r.text != "")
      && |r.tsIso| == 20 && r.tsIso[19] == 'Z'
      && ParseDecimal(r.tsIso[0..4]) == Year(FromUnixTimeSeconds(UnixSeconds(r.ts)))
      && ParseDecimal(r.tsIso[5..7]) == Month(FromUnixTimeSeconds(UnixSeconds(r.ts)))
  {
    TsIsoAgreesWithParsedTimestamp(m);
  }

  /** The records of `ms`, one per message, in the order of `ms`. */
  function Records(channelId: string, channelName: string, ms: seq<SlackMessage>): (rs: seq<ArchiveRecord>)
    requires AllWellFormed(ms)
    ensures |rs| == |ms|
  {
    seq(|ms|, i requires 0 <= i < |ms| => ToRecord(channelId, channelName, ms[i]))
  }

  /** `ToRecord` for channel `channelId` named `channelName`, as a partial function. */
  function RecordWriter(channelId: string, channelName: string): SlackMessage --> ArchiveRecord {
    (m: SlackMessage) requires WellFormed(m) => ToRecord(channelId, channelName, m)
  }

  /** The lines of an archive file: the records of the messages in time order. */
  function ArchiveLines(channelId: string, channelName: string, ms: seq<SlackMessage>): (lines: seq<ArchiveRecord>)
    requires AllWellFormed(ms)
    ensures |lines| == |ms|
  {
    Records(channelId, channelName, SortByTime(ms))
  }

  /** The whole seconds a record's `ts` stands for. */
  function RecordSeconds(r: ArchiveRecord): nat
    requires ValidTs(r.ts)
  {
    UnixSeconds(r.ts)
  }

  /** One line per message: the lines are the records of a reordering of the messages, so
      every message has exactly as many lines as it has occurrences; and the lines are in
      non-decreasing time order whatever the input order. */
  lemma ArchiveLinesOnePerMessage(channelId: string, channelName: string, ms: seq<SlackMessage>)
    requires AllWellFormed(ms)
    ensures var lines := ArchiveLines(channelId, channelName, ms);
      && |lines| == |ms|
      && multiset(MessagesOf(lines)) == multiset(ms)
      && (forall i :: 0 <= i < |lines| ==> ValidTs(lines[i].ts))
      && (forall i, j :: 0 <= i < j < |lines| ==> RecordSeconds(lines[i]) <= RecordSeconds(lines[j]))
  {
    var sorted := SortByTime(ms);
    var lines := ArchiveLines(channelId, channelName, ms);
    MessagesOfRecords(channelId, channelName, sorted);
    forall i, j | 0 <= i < j < |lines|
      ensures RecordSeconds(lines[i]) <= RecordSeconds(lines[j])
    {
      ParsedTimestampMonotone(sorted[i], sorted[j]);
    }
  }

  function MessagesOf(rs: seq<ArchiveRecord>): (ms: seq<SlackMessage>)
    ensures |ms| == |rs|
  {
    seq(|rs|, i requires 0 <= i < |rs| => MessageOf(rs[i]))
  }

  /** Reading the messages back from their records gives the messages, in order. */
  lemma MessagesOfRecords(channelId: string, channelName: string, ms: seq<SlackMessage>)
    requires AllWellFormed(ms)
    ensures MessagesOf(Records(channelId, channelName, ms)) == ms
  {
    forall i | 0 <= i < |ms|
      ensures MessagesOf(Records(channelId, channelName, ms))[i] == ms[i]
    {
      assert MessageOf(ToRecord(channelId, channelName, ms[i])) == ms[i];
    }
  }

  /** A batch already in time order is written in its own order: the sort is stable. */
  lemma ArchiveLinesOfSorted(channelId: string, channelName: string, ms: seq<SlackMessage>)
    requires AllWellFormed(ms) && SortedByTime(ms)
    ensures ArchiveLines(channelId, channelName, ms) == Records(channelId, channelName, ms)
  {
    SortByTimeOfSorted(ms);
  }

  /** Messages with the same timestamp keep their relative order in the file. */
  lemma ArchiveLinesStable(channelId: string, channelName: string, ms: seq<SlackMessage>, k: nat)
    requires AllWellFormed(ms)
    ensures var sorted := SortByTime(ms);
      && ArchiveLines(channelId, channelName, ms) == Records(channelId, channelName, sorted)
      && WithKey(sorted, k) == WithKey(ms, k)
  {
    SortByTimeStable(ms, k);
  }

  // ---------------------------------------------------------------------------------------
  // Paths
  // ---------------------------------------------------------------------------------------

  /** `Path.Combine(first, second)` on a system whose only separator is '/': an empty part
      gives the other, a rooted second part replaces the first, and otherwise the parts are
      joined by one separator unless the first already ends with it. */
  function Combine(first: string, second: string): (path: string)
    ensures second != "" && second[0] != '/' && first != "" ==>
      path == first + (if first[|first| - 1] == '/' then "" else "/") + second
  {
    if first == "" then second
    else if second == "" then first
    else if second[0] == '/' then second
    else if first[|first| - 1] == '/' then first + second
    else first + "/" + second
  }

  /** `$"{monthDate:yyyy-MM}.jsonl"`. */
  function FileName(monthDate: DateTime): (name: string)
    requires ValidDateTime(monthDate)
    ensures |name| == 13 && name[0] != '/'
  {
    CivilFieldRanges(monthDate);
    FormatYearMonth(monthDate) + ".jsonl"
  }

  /** The file `WriteChannelArchiveAsync` writes for `channelName` and `monthDate`. */
  function ArchivePath(outputPath: string, channelName: string, monthDate: DateTime): (path: string)
    requires ValidDateTime(monthDate)
    ensures |path| >= 13
    ensures outputPath != "" && outputPath[|outputPath| - 1] != '/' && channelName != ""
      && channelName[0] != '/' && channelName[|channelName| - 1] != '/'
      ==> path == outputPath + "/" + channelName + "/" + FileName(monthDate)
  {
    Combine(Combine(outputPath, channelName), FileName(monthDate))
  }

  /** The usual shape of the path, `<outputPath>/<channelName>/<yyyy-MM>.jsonl`, and in every
      case a path that ends with the file name. */
  lemma ArchivePathShape(outputPath: string, channelName: string, monthDate: DateTime)
    requires ValidDateTime(monthDate)
    ensures var path := ArchivePath(outputPath, channelName, monthDate);
      && |path| >= 13 && path[|path| - 13..] == FormatYearMonth(monthDate) + ".jsonl"
      && (outputPath != "" && outputPath[|outputPath| - 1] != '/' && channelName != ""
          && channelName[0] != '/' && channelName[|channelName| - 1] != '/'
          ==> path == outputPath + "/" + channelName + "/" + FormatYearMonth(monthDate) + ".jsonl")
  {
    var dir := Combine(outputPath, channelName);
    var name := FileName(monthDate);
    if dir != "" {
      var path := Combine(dir, name);
      assert path[|path| - 13..] == name;
    }
  }

  /** Different months of one channel are written to different files. */
  lemma ArchivePathsDistinct(outputPath: string, channelName: string, t1: DateTime, t2: DateTime)
    requires ValidDateTime(t1) && ValidDateTime(t2)
    requires Year(t1) != Year(t2) || Month(t1) != Month(t2)
    ensures ArchivePath(outputPath, channelName, t1) != ArchivePath(outputPath, channelName, t2)
  {
    ArchivePathShape(outputPath, channelName, t1);
    ArchivePathShape(outputPath, channelName, t2);
    FormatYearMonthInjective(t1, t2);
    assert (FormatYearMonth(t1) + ".jsonl")[..7] == FormatYearMonth(t1);
    assert (FormatYearMonth(t2) + ".jsonl")[..7] == FormatYearMonth(t2);
  }

  // ---------------------------------------------------------------------------------------
  // The file system and the writer
  // ---------------------------------------------------------------------------------------

  /** One `File.WriteAllLinesAsync(path, lines)`. */
  datatype FileWrite = FileWrite(path: string, lines: seq<ArchiveRecord>)

  /** What a file holds after the writes of `log`: the lines of the last write to it. */
  function Contents(log: seq<FileWrite>, path: string): (c: Option<seq<ArchiveRecord>>)
    ensures c.Some? <==> exists i :: 0 <= i < |log| && log[i].path == path
  {
    if log == [] then None
    else if log[|log| - 1].path == path then Some(log[|log| - 1].lines)
    else Contents(log[..|log| - 1], path)
  }

  /** A write replaces what its file held and leaves every other file alone. */
  lemma ContentsAfterWrite(log: seq<FileWrite>, w: FileWrite, path: string)
    ensures Contents(log + [w], path) == if w.path == path then Some(w.lines) else Contents(log, path)
  {
    assert (log + [w])[..|log|] == log;
  }

  class JsonWriter {
    /** `ArchiveOptions.OutputPath`. */
    const outputPath: string
    /** Every file write so far, in order. */
    var log: seq<FileWrite>

    constructor (outputPath: string)
      ensures this.outputPath == outputPath && log == []
    {
      this.outputPath := outputPath;
      log := [];
    }

    /** `WriteChannelArchiveAsync(channelId, channelName, monthDate, messages)`. */
    method WriteChannelArchive(channelId: string, channelName: string, monthDate: DateTime, messages: seq<SlackMessage>)
      requires ValidDateTime(monthDate) && AllWellFormed(messages)
      modifies this
      ensures log == old(log) + [FileWrite(ArchivePath(outputPath, channelName, monthDate),
                                           ArchiveLines(channelId, channelName, messages))]
    {
      var channelDir := Combine(outputPath, channelName);
      var fileName := FileName(monthDate);
      var filePath := Combine(channelDir, fileName);
      var sortedMessages := SortByTime(messages);
      var lines := SerializeAll(channelId, channelName, sortedMessages);
      log := log + [FileWrite(filePath, lines)];
    }

    /** The `foreach` that serialises each message, in the given order, into one line. */
    method SerializeAll(channelId: string, channelName: string, messages: seq<SlackMessage>)
      returns (lines: seq<ArchiveRecord>)
      requires AllWellFormed(messages)
      ensures lines == Records(channelId, channelName, messages)
    {
      lines := MapEach(RecordWriter(channelId, channelName), messages);
    }

    /** Applies `f` to each element of `xs`, in order, appending each result. */
    method MapEach<X, Y>(f: X --> Y, xs: seq<X>) returns (ys: seq<Y>)
      requires forall i :: 0 <= i < |xs| ==> f.requires(xs[i])
      ensures |ys| == |xs| && forall i :: 0 <= i < |xs| ==> ys[i] == f(xs[i])
    {
      ys := [];
      for i := 0 to |xs|
        invariant |ys| == i
        invariant forall k :: 0 <= k < i ==> ys[k] == f(xs[k])
      {
        ys := ys + [f(xs[i])];
      }
    }
  }
}
