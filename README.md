# SlackChannelReader archive pipeline in Dafny

A Dafny model of the archiving core of SlackChannelReader, a C# tool that copies the
history of chat channels into JSON Lines files, one file per channel and calendar month.
The model covers four parts of the tool:

- **Message getters** (`slack_models.dfy`, module `SlackModels`). These are the values a
  `SlackMessage` derives from its own fields: `ThreadId`, `IsRoot`, `MessageType`,
  `Mentions`, `ParsedTimestamp` and `TsIso`. The conversion from Unix seconds to a UTC
  calendar time and the two formats `yyyy-MM-ddTHH:mm:ssZ` and `yyyy-MM` are in
  `calendar.dfy` (module `Calendar`). That module builds the Gregorian calendar from day
  counts, using integers only.
- **The API client** (`slack_client.dfy`, module `SlackClients`). This covers:
  - the retry loop of `GetWithRetryAsync`;
  - the per-client user cache;
  - the display-name fallback chain;
  - the cursor-driven pagination of `GetChannelHistoryAsync`;
  - `GetThreadRepliesAsync`.

  The HTTP server is a fixed script of outcomes: the i-th request gets the i-th outcome.
  Each operation is written twice. A function of the client's state (`ClientState`: the
  cache, the requests sent, the delays awaited) specifies it. A method of the class
  `SlackClient` performs it step by step, and its `ensures` says it agrees with that
  function. The properties the tool promises are proved as lemmas about the functions.
- **Orchestration of one channel** (`orchestration.dfy`, module `Orchestration`, and
  `month_grouping.dfy`, module `MonthGrouping`). `ArchiveChannelAsync` fetches the
  history. It then expands every thread with its replies minus the parent, groups the
  working set by calendar month, orders the months, and calls the writer once per month.
  The class `ArchiveOrchestrator` holds a `SlackClient` and a `JsonWriter`.
- **The archive writer** (`json_writer.dfy`, module `JsonWriters`). It computes the path
  `<OutputPath>/<channelName>/<yyyy-MM>.jsonl` and sorts the batch by time. It turns each
  message into one `ArchiveRecord`, whose members are those of the anonymous object the
  tool serialises. The file system is a journal of `File.WriteAllLinesAsync` calls, kept
  in the class `JsonWriter`.

The stable time sort that `OrderBy(m => m.ParsedTimestamp)` performs is in `ordering.dfy`
(module `Ordering`). `Option` and `Result` are in `wrappers.dfy`.

Three behaviours of the code shape the model:

- **429 answers.** A 429 "too many requests" answer uses up one of the three attempts of
  `GetWithRetryAsync`, because its `continue` advances the loop counter. Three 429s in a
  row make the call return `null` without throwing.
- **UTC months.** Month grouping is in UTC. `ParsedTimestamp` is
  `DateTimeOffset.FromUnixTimeSeconds(..).DateTime`, whose offset is 0, so the clock is
  UTC.
- **Replies and timestamps.** The code neither checks that the first reply of a thread is
  its root nor that timestamps are unique: `Skip(1)` drops whatever comes first, and the
  sort is proved stable for equal timestamps.

## Model

| member | source | states |
|---|---|---|
| SlackModels.SecondsPrefix | Models/SlackMessage.cs:31 | the part of `ts` before the first '.' is a prefix of `ts` that holds no '.', and is followed by the '.' when it is shorter |
| SlackModels.UnixSeconds | Models/SlackMessage.cs:66 | `long.Parse` of the seconds prefix is within the range `FromUnixTimeSeconds` accepts |
| SlackModels.ParsedTimestamp | Models/SlackMessage.cs:66 | the parsed timestamp is a representable `DateTime` |
| SlackModels.TimestampDependsOnSecondsOnly | Models/SlackMessage.cs:66 | two messages whose `ts` share the part before the first '.' get the same `ParsedTimestamp` and the same `TsIso`; the fraction is ignored |
| SlackModels.ParsedTimestampMonotone | Models/SlackMessage.cs:66 | `ParsedTimestamp` orders messages exactly as their integer seconds do, in both directions |
| SlackModels.TsIso | Models/SlackMessage.cs:31 | `ts_iso` is always 20 characters; its layout and fields are stated by TsIsoAgreesWithParsedTimestamp |
| SlackModels.TsIsoAgreesWithParsedTimestamp | Models/SlackMessage.cs:31 | `TsIso` is 20 characters `yyyy-MM-ddTHH:mm:ssZ`, separators in place, and its six digit fields read back as the year, month, day, hour, minute and second of `ParsedTimestamp` |
| SlackModels.ThreadId | Models/SlackMessage.cs:33 | the thread timestamp when there is one, otherwise the message's own timestamp |
| SlackModels.IsRoot | Models/SlackMessage.cs:33-35 | a message is a root exactly when its thread id is its own timestamp |
| SlackModels.MessageType | Models/SlackMessage.cs:52-62 | `channel_join` gives `member_joined_channel`, `channel_leave` gives `member_left_channel`, any other non-empty subtype is returned as it is, an absent or empty one gives `message`; never empty |
| SlackModels.Mentions | Models/SlackMessage.cs:41-50 | when present, the list is non-empty and every id is a non-empty run of A–Z/0–9 |
| SlackModels.ScanFindsIds | Models/SlackMessage.cs:46-48 | every group the `<@([A-Z0-9]+)>` scan captures is a non-empty run of A–Z/0–9 |
| SlackModels.ScanEmptyIffNoMatch | Models/SlackMessage.cs:46-47 | the scan finds nothing exactly when the pattern matches at no position of the text |
| SlackModels.MentionsAbsentIffNoReference | Models/SlackMessage.cs:45-47 | `Mentions` is null exactly when no position of the text starts a `<@ID>` reference (an empty text included) |
| SlackModels.ScanReferences | Models/SlackMessage.cs:46-48 | scanning a text made of references `<@id1><@id2>…` yields exactly `id1, id2, …`, in order |
| SlackModels.MentionsOfReferences | Models/SlackMessage.cs:45-48 | round trip: the mentions of a text made of references are the referenced ids, left to right, one per match; no ids gives null |
| SlackModels.LowerCaseReferenceIsNoMention | Models/SlackMessage.cs:46 | `<@u1>` mentions no one: lower-case letters are not id characters |
| Calendar.Pad | Models/SlackMessage.cs:31 | a zero-padded field has exactly its width and only digits |
| Calendar.ParsePad | Models/SlackMessage.cs:31 | reading a zero-padded field back gives the number whenever it fits the width |
| Calendar.FromUnixTimeSeconds | Models/SlackMessage.cs:66 | every Unix time in range gives a representable `DateTime` |
| Calendar.FromUnixTimeSecondsMonotone | Models/SlackMessage.cs:66 | the conversion preserves and reflects order, and is injective |
| Calendar.UnixRangeAnchors | Models/SlackMessage.cs:31 | Unix second 0 is midnight on 1 January 1970, and the largest second `FromUnixTimeSeconds` accepts is the last one before year 10000 |
| Calendar.CivilFieldRanges | Models/SlackMessage.cs:66 | year 1–9999, month 1–12, day within its month, hour below 24, minute and second below 60 |
| Calendar.FormatIsoFields | Models/SlackMessage.cs:31 | `yyyy-MM-ddTHH:mm:ssZ` is 20 characters with fixed separators, and its fields read back as the civil fields |
| Calendar.FormatYearMonthInjective | Services/JsonWriter.cs:25 | two instants give the same `yyyy-MM` exactly when they share year and month |
| Calendar.FormatIsoStartsWithYearMonth | Services/JsonWriter.cs:48 | the `ts_iso` rendering begins with the `yyyy-MM` rendering of the same instant |
| Calendar.MonthStartFields | Services/ArchiveOrchestrator.cs:75 | `new DateTime(y, m, 1)` has year `y`, month `m`, day 1 and time 00:00:00 |
| Calendar.MonthStartInjective | Services/ArchiveOrchestrator.cs:75 | two month starts are equal exactly when their years and months are |
| Calendar.MonthStartValid | Services/ArchiveOrchestrator.cs:75 | every month of years 1–9999 starts at a representable instant |
| Calendar.MonthStartMonotone | Services/ArchiveOrchestrator.cs:76 | later calendar months have later keys, so `OrderBy(g => g.Key)` is calendar order |
| Ordering.InsertByTime | Services/SlackClient.cs:71 | inserting into a time-sorted sequence keeps it sorted and adds exactly that message |
| Ordering.SortByTime | Services/SlackClient.cs:71 | `OrderBy(m => m.ParsedTimestamp)` is sorted by time and a permutation of its input |
| Ordering.SortByTimeStable | Services/SlackClient.cs:71 | messages with the same timestamp keep their input order |
| Ordering.SortByTimeOfSorted | Services/JsonWriter.cs:29 | an input already in time order comes out unchanged |
| Ordering.InsertByTimeUnnamed | Services/SlackClient.cs:71 | where an inserted message goes does not depend on display names |
| Ordering.SortByTimeUnnamed | Services/SlackClient.cs:71 | the sort does not depend on display names: clearing them before or after sorting gives the same sequence |
| SlackClients.Retry | Services/SlackClient.cs:124-172 | a whole call makes one to three attempts; its result is given by RetryFromLast and its waits by RetryBackoff |
| SlackClients.RetryFrom | Services/SlackClient.cs:129-169 | the loop from iteration `retry` on sends at most the attempts left, and at least one while any are left |
| SlackClients.RetryFromLast | Services/SlackClient.cs:129-171 | from any iteration on, the call's result is decided by the answer to its last request: a body exactly when that answer is `ok: true`, and then its body; an exception exactly when the third attempt failed in transport; null exactly when the answer is `ok: false` or the third attempt got a 429 |
| SlackClients.RetryFromFetchedDelivered | Services/SlackClient.cs:150-157 | a body the call returns is the `ok: true` answer to the call's last request |
| SlackClients.SendLast | Services/SlackClient.cs:124-172 | a whole call: its last request is the one it was given, and its result is the body, null or exception that this request's answer decides, as in RetryFromLast |
| SlackClients.RetryAttempts | Services/SlackClient.cs:126-129 | each call sends between one and three requests |
| SlackClients.ApplicationErrorIsFinal | Services/SlackClient.cs:150-155 | an `ok: false` answer returns null at once: one request, no wait |
| SlackClients.TransportFailureThenSuccess | Services/SlackClient.cs:159-167 | after one transport failure the call waits 1 s and retries |
| SlackClients.TwoTransportFailuresThenSuccess | Services/SlackClient.cs:159-167 | after two transport failures the call has waited 1 s, then 2 s |
| SlackClients.ThreeTransportFailuresThrow | Services/SlackClient.cs:159-167 | three transport failures: waits of 1 s and 2 s, and the third is rethrown |
| SlackClients.RateLimitThenSuccess | Services/SlackClient.cs:135-141 | a 429 waits its Retry-After delta, or 60 s without one, and uses up one attempt |
| SlackClients.ThreeRateLimitsGiveNull | Services/SlackClient.cs:129-171 | three 429s in a row exhaust the budget: three waits, then null, no exception |
| SlackClients.RateLimitKeepsBackoff | Services/SlackClient.cs:135-167 | a 429 does not double the transport backoff: a later transport failure still waits 1 s |
| SlackClients.RetryFromWaits | Services/SlackClient.cs:129-169 | from any iteration on, every attempt but the last got a 429 or a transport failure, and each wait follows such an attempt: its Retry-After (60 s without one) after a 429, the backoff doubled once per earlier transport failure after a transport failure |
| SlackClients.RetryBackoff | Services/SlackClient.cs:126-169 | a call makes one to three attempts, and its waits are 1 s, 2 s, … for transport failures, counting only transport failures, and Retry-After or 60 s for 429s |
| SlackClients.Send | Services/SlackClient.cs:124-172 | a request never changes the user cache |
| SlackClients.SlackClient.constructor | Services/SlackClient.cs:15 | a new client has an empty cache and has sent nothing |
| SlackClients.SlackClient.Get | Services/SlackClient.cs:133 | one request: the scripted outcome for its sequence number, recorded as sent |
| SlackClients.SlackClient.Delay | Services/SlackClient.cs:140 | one recorded wait of the given seconds; nothing else changes |
| SlackClients.SlackClient.GetWithRetry | Services/SlackClient.cs:124-172 | the loop's result, the requests it sent and the waits it made are those of `Send` |
| SlackClients.UserInfo | Services/SlackClient.cs:93-108 | a user the lookup returns is cached under its id afterwards; see UserInfoCacheHit, UserInfoCache and UserInfoRequests |
| SlackClients.UserInfoCacheHit | Services/SlackClient.cs:95-96 | a cached id returns the cached user, with no request and no change of state |
| SlackClients.UserInfoCache | Services/SlackClient.cs:101-107 | a lookup that finds a user stores it under that id; one that finds none leaves the cache as it was; entries for other ids never change |
| SlackClients.UserInfoRequests | Services/SlackClient.cs:98-99 | a cache miss sends one to three `users.info` requests for that id and nothing else |
| SlackClients.SlackClient.GetUserInfo | Services/SlackClient.cs:93-108 | the method's result, cache and requests are those `UserInfo` specifies |
| SlackClients.ProfileName | Services/SlackClient.cs:117-121 | the display name if non-empty, else the real name if non-empty, else the account name |
| SlackClients.DisplayName | Services/SlackClient.cs:110-122 | a cached id gets its user's profile name with no request and no change of state; see DisplayNameFallback for the fallback chain |
| SlackClients.DisplayNameFallback | Services/SlackClient.cs:112-121 | an unresolved user gives `User-` followed by the raw id; a resolved one the first non-empty of display name, real name, name |
| SlackClients.SlackClient.GetUserDisplayName | Services/SlackClient.cs:110-122 | the method's name and new state are those `DisplayName` specifies |
| SlackClients.Enrich | Services/SlackClient.cs:58-64 | only `UserDisplayName` changes; every message with a non-empty author gets one; the others are untouched |
| SlackClients.EnrichExtendsCache | Services/SlackClient.cs:58-64 | enriching a page never changes a cached entry |
| SlackClients.EnrichNames | Services/SlackClient.cs:58-64 | each author gets the placeholder or the name of the user cached for its id; an author already cached gets that user's name |
| SlackClients.SlackClient.EnrichMessages | Services/SlackClient.cs:58-64 | the loop's messages and new state are those `Enrich` specifies |
| SlackClients.HistoryRequestFor | Services/SlackClient.cs:34-51 | a history request carries a cursor exactly when the cursor is non-empty |
| SlackClients.HistoryFrom | Services/SlackClient.cs:32-69 | the collected messages are all well formed |
| SlackClients.HistoryFromLastPage | Services/SlackClient.cs:66-69 | a page with no next cursor costs one request, adds its messages and ends the loop |
| SlackClients.HistoryFromLinkedPage | Services/SlackClient.cs:66-69 | a page with a next cursor adds its messages and the loop goes on with that cursor |
| SlackClients.HistoryFromChain | Services/SlackClient.cs:32-69 | over a chain of pages, one request per page with the previous page's cursor, and every page's messages in page order |
| SlackClients.HistoryFollowsCursors | Services/SlackClient.cs:27-72 | the first request has no cursor, each later one the previous page's cursor, and the result is every message of every page, sorted by time |
| SlackClients.EnrichSendsLookups | Services/SlackClient.cs:58-64 | naming a page's authors sends nothing but `users.info` requests |
| SlackClients.HistoryFromRun | Services/SlackClient.cs:32-69 | for any server, each normal exit of the loop received a run of pages linked by cursors, page `i` being the server's `ok: true` answer to a request sent in this run that is the run's `i`-th; the history requests sent are that run's, each one to three times, with only user lookups between them; a run that does not end on a page without a next cursor ends on one more request, the last one sent, whose answer gave no page; the messages are those collected before and then every page's, each with at most its display name set: set on every message with an author, the display name kept on every other message |
| SlackClients.HistoryPagination | Services/SlackClient.cs:27-72 | for any server, a successful call received a run of pages linked by cursors that starts without a cursor, page `i` being the server's `ok: true` answer to a request of this call that is the run's `i`-th; the history requests sent are exactly that run's, each one to three times, and nothing else was sent but user lookups; the loop stopped on a page without a next cursor, or on a last request whose answer was null or had no messages; the result with display names cleared is every message of every page in a stable time order; every message with an author has a display name, and every message without one is a page's message unchanged |
| SlackClients.History | Services/SlackClient.cs:27-72 | the history is sorted by time; its pages, and the display name on every message with an author, are stated by HistoryPagination |
| SlackClients.HistoryOrdered | Services/SlackClient.cs:71 | the history is sorted by time, a permutation of the collected pages, and stable for equal timestamps |
| SlackClients.SlackClient.GetChannelHistory | Services/SlackClient.cs:27-72 | the `do`/`while` loop's result and new state are those `History` specifies |
| SlackClients.Replies | Services/SlackClient.cs:74-91 | the replies are sorted by time |
| SlackClients.FailedRepliesAreEmpty | Services/SlackClient.cs:79-80 | a null response, or one without messages, gives an empty list |
| SlackClients.SortEnriched | Services/SlackClient.cs:82-90 | sorting an enriched page gives, with display names cleared, the page sorted, and every message with an author keeps its name |
| SlackClients.RepliesOfPage | Services/SlackClient.cs:74-91 | a delivered page of replies comes back whole: as many replies as the page has, equal with display names cleared to the page in a stable time order, every reply with an author named, and every reply without one a message of the page, unchanged |
| SlackClients.SlackClient.GetThreadReplies | Services/SlackClient.cs:74-91 | the method's result and new state are those `Replies` specifies |
| JsonWriters.ToRecord | Services/JsonWriter.cs:42-61 | a record carries the schema version and the channel id and name it is written for, and every message field is copied into it unchanged, so the message can be rebuilt from it; see RecordConsistent for the derived fields |
| JsonWriters.RecordConsistent | Services/JsonWriter.cs:44-56 | schema version "1.0"; channel id and name from the arguments; `thread_id`, `is_root`, `message_type`, `mentions` and `ts_iso` are the message's `ThreadId`, `IsRoot`, `MessageType`, `Mentions` and `TsIso`; a thread id is the thread timestamp or the own one, a root is its own thread, the type is never empty, mentions are absent for an empty text, and `ts_iso` has 20 characters ending in 'Z' whose year and month are those of the timestamp |
| JsonWriters.Records | Services/JsonWriter.cs:38-65 | one record per message |
| JsonWriters.ArchiveLines | Services/JsonWriter.cs:29-65 | one line per message; contents and order are stated by ArchiveLinesOnePerMessage, ArchiveLinesOfSorted and ArchiveLinesStable |
| JsonWriters.ArchiveLinesOnePerMessage | Services/JsonWriter.cs:29-65 | one line per message, as many lines per message as it has occurrences, in non-decreasing time order whatever the input order |
| JsonWriters.MessagesOfRecords | Services/JsonWriter.cs:39-64 | reading the messages back from the records gives the messages, in order |
| JsonWriters.ArchiveLinesOfSorted | Services/JsonWriter.cs:29 | a batch already in time order is written in its own order |
| JsonWriters.ArchiveLinesStable | Services/JsonWriter.cs:29 | messages with the same timestamp keep their relative order in the file |
| JsonWriters.Combine | Services/JsonWriter.cs:22 | two non-empty relative parts are joined by exactly one '/' |
| JsonWriters.FileName | Services/JsonWriter.cs:25 | the file name is 13 characters and relative |
| JsonWriters.ArchivePath | Services/JsonWriter.cs:22-26 | for a plain output path and channel name the path is `OutputPath/channelName/yyyy-MM.jsonl`, and it is never shorter than that file name; the suffix in every case is stated by ArchivePathShape, distinctness by ArchivePathsDistinct |
| JsonWriters.ArchivePathShape | Services/JsonWriter.cs:22-26 | the path ends with `yyyy-MM.jsonl`, and is `OutputPath/channelName/yyyy-MM.jsonl` for plain relative names |
| JsonWriters.ArchivePathsDistinct | Services/JsonWriter.cs:22-26 | different months of a channel go to different files |
| JsonWriters.Contents | Services/JsonWriter.cs:67 | a file has contents exactly when some write named it |
| JsonWriters.ContentsAfterWrite | Services/JsonWriter.cs:67 | a write replaces its file's lines and leaves every other file alone |
| JsonWriters.JsonWriter.constructor | Services/JsonWriter.cs:14-18 | a new writer has written nothing |
| JsonWriters.JsonWriter.WriteChannelArchive | Services/JsonWriter.cs:20-70 | one file write: the archive path of the month, holding the records of the messages in time order |
| JsonWriters.JsonWriter.SerializeAll | Services/JsonWriter.cs:38-65 | the loop yields the records of the messages, in the given order |
| JsonWriters.JsonWriter.MapEach | Services/JsonWriter.cs:39-64 | the loop appends one result per element, in order |
| MonthGrouping.MonthOf | Services/ArchiveOrchestrator.cs:75 | the group key is a representable `DateTime` |
| MonthGrouping.MonthOfFields | Services/ArchiveOrchestrator.cs:75 | the key has the year and month of the message's timestamp, day 1, 00:00:00 |
| MonthGrouping.SameMonthIff | Services/ArchiveOrchestrator.cs:75 | two messages share a key exactly when they fall in the same calendar year and month |
| MonthGrouping.InMonth | Services/ArchiveOrchestrator.cs:74-75 | the messages picked for a key all have that key |
| MonthGrouping.GroupByMonth | Services/ArchiveOrchestrator.cs:74-75 | every group has a representable month key and well-formed members; what the groups hold is stated by GroupByMonthGroups and GroupByMonthMembers |
| MonthGrouping.GroupByMonthGroups | Services/ArchiveOrchestrator.cs:74-75 | `GroupBy` yields one group per month that occurs, with distinct keys, each holding exactly its month's messages in input order |
| MonthGrouping.GroupByMonthMembers | Services/ArchiveOrchestrator.cs:74-75 | grouping neither drops nor duplicates a message |
| MonthGrouping.SortGroups | Services/ArchiveOrchestrator.cs:76 | `OrderBy(g => g.Key)` gives strictly ascending keys and a permutation of the groups |
| MonthGrouping.ToBatches | Services/ArchiveOrchestrator.cs:78-81 | each batch is its group's key and its group's messages sorted by time |
| MonthGrouping.Plan | Services/ArchiveOrchestrator.cs:74-81 | every batch has a representable month and well-formed messages; what the plan holds is stated by PlanIsMonthBatches |
| MonthGrouping.PlanAscending | Services/ArchiveOrchestrator.cs:76-86 | the writer is called in strictly ascending month order, so once per month |
| MonthGrouping.PlanContents | Services/ArchiveOrchestrator.cs:74-81 | each batch is non-empty and is exactly its month's messages, sorted by time |
| MonthGrouping.PlanCoversEveryMonth | Services/ArchiveOrchestrator.cs:74-75 | every message's month has a batch |
| MonthGrouping.PlanPermutation | Services/ArchiveOrchestrator.cs:74-86 | the batches together are a permutation of the working set |
| MonthGrouping.PlanMonths | Services/ArchiveOrchestrator.cs:74-81 | every message of a batch falls in the batch's year and month |
| MonthGrouping.PlanMonthsDistinct | Services/ArchiveOrchestrator.cs:74-76 | different batches are different calendar months |
| MonthGrouping.PlanIsMonthBatches | Services/ArchiveOrchestrator.cs:74-86 | all of the above together, and the batches hold as many messages as the working set |
| Orchestration.SkipFirst | Services/ArchiveOrchestrator.cs:68 | `Skip(1)` drops one element, none from an empty list |
| Orchestration.ThreadRootsMembers | Services/ArchiveOrchestrator.cs:62-65 | a thread is due for a timestamp exactly when a history message with that timestamp has a positive reply count |
| Orchestration.Interleave | Services/ArchiveOrchestrator.cs:56-71 | the working set is at least as long as the history; see InterleaveLength, InterleaveKeepsHistory and ExpandFollowsThreads |
| Orchestration.InterleaveLength | Services/ArchiveOrchestrator.cs:56-71 | the working set has \|history\| + Σ max(0, \|replies\| − 1) messages |
| Orchestration.InterleaveKeepsHistory | Services/ArchiveOrchestrator.cs:58-60 | every history message stays in the working set, and the first comes first |
| Orchestration.InterleaveWithoutThreads | Services/ArchiveOrchestrator.cs:58-71 | a history without threads is its own working set |
| Orchestration.Expand | Services/ArchiveOrchestrator.cs:56-71 | the working set holds only well-formed messages |
| Orchestration.ExpandFollowsThreads | Services/ArchiveOrchestrator.cs:56-71 | threads are asked for in history order, stopping at the first that throws; with no exception, the working set is each message followed by its replies minus the first |
| Orchestration.ExpandWithoutThreads | Services/ArchiveOrchestrator.cs:58-71 | with no positive reply count, no thread is fetched and nothing changes |
| Orchestration.ExpandFetchesThreadRoots | Services/ArchiveOrchestrator.cs:62-65 | a thread is fetched only for a message whose reply count is positive |
| Orchestration.ExpandFailedStep | Services/ArchiveOrchestrator.cs:65 | a thread fetch that throws ends the expansion with that exception |
| Orchestration.Archive | Services/ArchiveOrchestrator.cs:39-96 | every batch for the writer has a valid month and well-formed messages |
| Orchestration.EmptyHistoryWritesNothing | Services/ArchiveOrchestrator.cs:46-53 | an empty history fetches no thread, calls no writer and completes |
| Orchestration.FailureWritesNothing | Services/ArchiveOrchestrator.cs:91-95 | a run that rethrows has handed no batch to the writer |
| Orchestration.ArchiveFetchesThreads | Services/ArchiveOrchestrator.cs:58-71 | threads are fetched only for history messages with a positive reply count, in history order, and for all of them when the run completes |
| Orchestration.ArchiveBatches | Services/ArchiveOrchestrator.cs:56-86 | on success the writer gets the month batches of the working set, which has \|history\| + Σ max(0, \|replies\| − 1) messages |
| Orchestration.Writes | Services/ArchiveOrchestrator.cs:78-86 | one file write per batch |
| Orchestration.WritesAt | Services/ArchiveOrchestrator.cs:78-86 | the i-th file write is the writer call for the i-th batch, with `channelId` and `channelName` unchanged |
| Orchestration.ContentsOfLastWrite | Services/JsonWriter.cs:67 | a write that no later write overwrites decides its file's contents |
| Orchestration.MonthFilesHoldTheirBatches | Services/ArchiveOrchestrator.cs:78-86 | afterwards each month's file holds exactly that month's records in time order: no month overwrites another |
| Orchestration.MonthFileRecords | Services/ArchiveOrchestrator.cs:74-86 | every record of a month's file names the channel and has a `ts_iso` beginning with the file's `yyyy-MM` |
| Orchestration.ArchiveOrchestrator.constructor | Services/ArchiveOrchestrator.cs:15-25 | the orchestrator keeps the client and the writer it is given |
| Orchestration.ArchiveOrchestrator.ExpandThreads | Services/ArchiveOrchestrator.cs:56-71 | the `foreach` builds the working set, thread fetches and client state that `Expand` specifies |
| Orchestration.ArchiveOrchestrator.WriteMonth | Services/ArchiveOrchestrator.cs:86 | one writer call for the batch's month and messages |
| Orchestration.ArchiveOrchestrator.WriteMonths | Services/ArchiveOrchestrator.cs:78-87 | one writer call per batch, in batch order, and no other write |
| Orchestration.ArchiveOrchestrator.ArchiveChannel | Services/ArchiveOrchestrator.cs:39-96 | the client state, the threads fetched, the outcome and the files written are those `Archive` specifies |

## Left out

- HTTP transport is not modelled: the base address, the bearer header, URL strings and
  `EnsureSuccessStatusCode`. A request is a `Request` value. Its outcome is a transport
  failure (`HttpRequestException`), a 429 with an optional delta, or a decoded body with
  its "ok" flag.
- The server is a finite script. Requests past its end fail in transport. This bounds the
  pagination loop, which has no progress guard of its own.
- JSON parsing and serialisation are not modelled (`JsonDocument`, `JsonSerializer`, the
  snake-case naming policy). Bodies and archive lines are structured values. Exceptions
  other than `HttpRequestException` are not modelled, such as a malformed body or a
  missing "ok" member.
- `Task.Delay` does no waiting: each delay is only recorded, in seconds.
- Concurrency is left out. `ArchiveChannelsAsync` and its `Task.WhenAll` over channels
  are not modelled, and neither is sharing one unsynchronised `_userCache` between
  concurrent channels. The model is one sequential client.
- The file system is left out. `Directory.CreateDirectory` is not modelled.
  `File.WriteAllLinesAsync` is a journal entry of a path and its records.
- The local-time conversion of the `from`/`to` window into `oldest`/`latest` depends on the
  machine's time zone. The window is given directly in Unix seconds.
- Program.cs is not part of this model: host set-up, command-line date parsing and the
  local clock.
- Logging is not modelled.
- `Mentions` uses a direct scanner for `<@([A-Z0-9]+)>` instead of a regular-expression
  engine. `MatchAt` argues that backtracking finds no other match.
- SlackModels.UnixSeconds, SlackModels.ParsedTimestamp and SlackModels.TsIso require a `ts`
  with a non-empty decimal seconds prefix no larger than 253402300799.
  - The exceptions `long.Parse` and `FromUnixTimeSeconds` throw on other strings are not
    modelled, so every message the server delivers is assumed to satisfy this.
  - Negative seconds, which `long.Parse` accepts, are also excluded.
- .NET counts `DateTime` in 100 ns ticks. The model counts whole seconds, which is every
  value this code builds.
- A `null` `profile` in a `users.info` answer would throw in `GetUserDisplayNameAsync`. A
  user always has a profile in the model.
- `ConversationHistoryResponse.HasMore` is read by nothing in the code, and the model
  ignores it too.
- Calendar.FormatIso models `ToString("yyyy-MM-ddTHH:mm:ssZ")` in the invariant culture
  only: Gregorian calendar, ASCII digits, ':' as the time separator. The code formats with
  the current culture, whose calendar or time separator may differ.
- Calendar.FormatYearMonth models `{monthDate:yyyy-MM}` in the invariant culture only, for
  the same reason.
- JsonWriters.Combine models `Path.Combine` on a system whose only separator is '/'. The
  Windows separators '\\' and drive-rooted paths are not modelled.
- SlackModels.ValidTs accepts only plain decimal digits before the first '.'. `long.Parse`
  also accepts a leading sign and surrounding whitespace; such timestamps are excluded.
- SlackClients.HistoryFromLastPage states the exact new state only for a page answered at
  the first attempt whose authors are all cached, so that no `users.info` request is sent.
- SlackClients.HistoryFromLinkedPage has the same restriction as HistoryFromLastPage.
- SlackClients.HistoryFromChain has the same restriction: every page answered at the first
  attempt, every author cached. SlackClients.HistoryPagination covers any server and any
  cache. Its statement is weaker in two ways: the number of attempts per request is only
  bounded, and the interleaved lookups are only known to be `users.info` requests.
- SlackClients.HistoryPagination and SlackClients.HistoryFromRun tie page `i` to a sent
  request equal to the run's `i`-th. When the server repeats a cursor, two requests of the
  run are equal, and the lemma does not say which of their copies received the page.
- SlackClients.HistoryFollowsCursors has the same restriction as HistoryFromChain.
- SlackClients.HistoryPagination and SlackClients.RepliesOfPage state that a message without
  an author is a message of the pages, unchanged, after the sort. They do not count copies:
  two such messages that differ only in their display name are not told apart.
