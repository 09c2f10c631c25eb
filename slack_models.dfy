/** The records the archiver reads from the chat API (`Models/`), and the values that
    `SlackMessage` derives from its own fields. */
module SlackModels {
  import opened Wrappers
  import opened Calendar

  // ---------------------------------------------------------------------------------------
  // Records
  // ---------------------------------------------------------------------------------------

  datatype SlackUserProfile = SlackUserProfile(displayName: string, realName: string)

  datatype SlackUser = SlackUser(id: string, name: string, profile: SlackUserProfile)

  /** `new SlackUser()`: what deserialisation leaves when the JSON has no "user" member. */
  const DefaultUser := SlackUser("", "", SlackUserProfile("", ""))

  /** A message as received, plus the two fields the archiver fills in (`userDisplayName`,
      `actorUser`). `kind` is the JSON member "type". */
  datatype SlackMessage = SlackMessage(
    ts: string,
    userId: Option<string>,
    text: string,
    threadTs: Option<string>,
    replyCount: Option<int>,
    kind: Option<string>,
    subtype: Option<string>,
    userDisplayName: Option<string>,
    actorUser: Option<string>)

  datatype ResponseMetadata = ResponseMetadata(nextCursor: Option<string>)

  /** The payload of `conversations.history` and `conversations.replies`. */
  datatype ConversationHistoryResponse = ConversationHistoryResponse(
    messages: Option<seq<SlackMessage>>,
    hasMore: bool,
    responseMetadata: Option<ResponseMetadata>)

  /** The payload of `users.info`. */
  datatype UserInfoResponse = UserInfoResponse(user: Option<SlackUser>)

  /** `response.ResponseMetadata?.NextCursor`. */
  function NextCursor(page: ConversationHistoryResponse): Option<string> {
    match page.responseMetadata
    case None => None
    case Some(meta) => meta.nextCursor
  }

  /** `!string.IsNullOrEmpty(s)`. */
  predicate NonEmpty(s: Option<string>) {
    s.Some? && s.value != ""
  }

  // ---------------------------------------------------------------------------------------
  // Timestamps
  // ---------------------------------------------------------------------------------------

  /** `ts.Split('.')[0]`: everything before the first '.'. */
  function SecondsPrefix(ts: string): (p: string)
    ensures p <= ts && '.' !in p
    ensures |p| < |ts| ==> ts[|p|] == '.'
  {
    if ts == [] || ts[0] == '.' then [] else [ts[0]] + SecondsPrefix(ts[1..])
  }

  /** The timestamps the model accepts: the seconds prefix is a non-empty run of decimal
      digits that `FromUnixTimeSeconds` can convert. */
  predicate ValidTs(ts: string) {
    var p := SecondsPrefix(ts);
    p != [] && AllDigits(p) && ParseDecimal(p) <= MaxUnixSeconds
  }

  predicate WellFormed(m: SlackMessage) {
    ValidTs(m.ts)
  }

  predicate AllWellFormed(ms: seq<SlackMessage>) {
    forall i :: 0 <= i < |ms| ==> WellFormed(ms[i])
  }

  /** A message with its display name cleared: the message as the API returns it, before
      the client fills in `UserDisplayName`. */
  function Unnamed(m: SlackMessage): SlackMessage {
    m.(userDisplayName := None)
  }

  function UnnamedAll(ms: seq<SlackMessage>): (r: seq<SlackMessage>)
    ensures |r| == |ms| && forall i :: 0 <= i < |ms| ==> r[i] == Unnamed(ms[i])
    ensures AllWellFormed(ms) ==> AllWellFormed(r)
  {
    seq(|ms|, i requires 0 <= i < |ms| => Unnamed(ms[i]))
  }

  lemma UnnamedConcat(a: seq<SlackMessage>, b: seq<SlackMessage>)
    ensures UnnamedAll(a + b) == UnnamedAll(a) + UnnamedAll(b)
  {
    assert forall i :: 0 <= i < |a + b| ==> UnnamedAll(a + b)[i] == (UnnamedAll(a) + UnnamedAll(b))[i];
  }

  /** `long.Parse(ts.Split('.')[0])`. */
  function UnixSeconds(ts: string): (s: nat)
    requires ValidTs(ts)
    ensures s <= MaxUnixSeconds
  {
    ParseDecimal(SecondsPrefix(ts))
  }

  /** `ParsedTimestamp`: the whole seconds of `ts` as a UTC `DateTime`. */
  function ParsedTimestamp(m: SlackMessage): (t: DateTime)
    requires WellFormed(m)
    ensures ValidDateTime(t)
  {
    FromUnixTimeSeconds(UnixSeconds(m.ts))
  }

  /** `TsIso`: the same instant rendered as "yyyy-MM-ddTHH:mm:ssZ". */
  function TsIso(m: SlackMessage): (s: string)
    requires WellFormed(m)
    ensures |s| == 20
  {
    FormatIso(ParsedTimestamp(m))
  }

  /** Only the seconds before the first '.' matter: the fraction is ignored. */
  lemma TimestampDependsOnSecondsOnly(a: SlackMessage, b: SlackMessage)
    requires WellFormed(a) && WellFormed(b)
    requires SecondsPrefix(a.ts) == SecondsPrefix(b.ts)
    ensures ParsedTimestamp(a) == ParsedTimestamp(b) && TsIso(a) == TsIso(b)
  {
  }

  /** Ordering messages by `ParsedTimestamp` is ordering them by their integer seconds. */
  lemma ParsedTimestampMonotone(a: SlackMessage, b: SlackMessage)
    requires WellFormed(a) && WellFormed(b)
    ensures ParsedTimestamp(a).seconds <= ParsedTimestamp(b).seconds <==> UnixSeconds(a.ts) <= UnixSeconds(b.ts)
  {
    FromUnixTimeSecondsMonotone(UnixSeconds(a.ts), UnixSeconds(b.ts));
  }

  /** `TsIso` is the fixed-width rendering of `ParsedTimestamp`: its fields read back as the
      year, month, day, hour, minute and second of that instant. */
  lemma TsIsoAgreesWithParsedTimestamp(m: SlackMessage)
    requires WellFormed(m)
    ensures var s := TsIso(m); var t := ParsedTimestamp(m);
      && |s| == 20 && s[4] == '-' && s[7] == '-' && s[10] == 'T' && s[13] == ':' && s[16] == ':' && s[19] == 'Z'
      && AllDigits(s[0..4]) && ParseDecimal(s[0..4]) == Year(t)
      && AllDigits(s[5..7]) && ParseDecimal(s[5..7]) == Month(t)
      && AllDigits(s[8..10]) && ParseDecimal(s[8..10]) == Day(t)
      && AllDigits(s[11..13]) && ParseDecimal(s[11..13]) == Hour(t)
      && AllDigits(s[14..16]) && ParseDecimal(s[14..16]) == Minute(t)
      && AllDigits(s[17..19]) && ParseDecimal(s[17..19]) == Second(t)
  {
    FormatIsoFields(ParsedTimestamp(m));
  }

  // ---------------------------------------------------------------------------------------
  // Thread structure and message type
  // ---------------------------------------------------------------------------------------

  /** `ThreadId`: the thread's root timestamp, or the message's own for an unthreaded one. */
  function ThreadId(m: SlackMessage): (r: string)
    ensures m.threadTs.Some? ==> r == m.threadTs.value
    ensures m.threadTs.None? ==> r == m.ts
  {
    m.threadTs.GetOr(m.ts)
  }

  /** `IsRoot`: the message is not a reply. */
  predicate IsRoot(m: SlackMessage)
    ensures IsRoot(m) <==> ThreadId(m) == m.ts
  {
    m.threadTs.None? || m.threadTs.value == m.ts
  }

  /** `MessageType`: join and leave events get their event names, any other subtype is kept,
      and a plain message is "message". */
  function MessageType(m: SlackMessage): (r: string)
    ensures r != ""
    ensures m.subtype == Some("channel_join") ==> r == "member_joined_channel"
    ensures m.subtype == Some("channel_leave") ==> r == "member_left_channel"
    ensures NonEmpty(m.subtype) && m.subtype.value != "channel_join" && m.subtype.value != "channel_leave"
            ==> r == m.subtype.value
    ensures !NonEmpty(m.subtype) ==> r == "message"
  {
    if m.subtype == Some("channel_join") then "member_joined_channel"
    else if m.subtype == Some("channel_leave") then "member_left_channel"
    else if NonEmpty(m.subtype) then m.subtype.value
    else "message"
  }

  // ---------------------------------------------------------------------------------------
  // Mentions: the matches of <@([A-Z0-9]+)> in the text
  // ---------------------------------------------------------------------------------------

  predicate IsIdChar(c: char) {
    'A' <= c <= 'Z' || '0' <= c <= '9'
  }

  predicate IsUserId(id: string) {
    id != [] && forall i :: 0 <= i < |id| ==> IsIdChar(id[i])
  }

  /** The length of the run of id characters that starts at `i`. */
  function IdRun(s: string, i: nat): (n: nat)
    requires i <= |s|
    ensures i + n <= |s|
    ensures forall k :: i <= k < i + n ==> IsIdChar(s[k])
    ensures i + n < |s| ==> !IsIdChar(s[i + n])
    decreases |s| - i
  {
    if i < |s| && IsIdChar(s[i]) then 1 + IdRun(s, i + 1) else 0
  }

  /** Where the pattern matches at `i`, the index of its closing '>'. The greedy `+` takes
      the whole run of id characters; a shorter run would be followed by an id character,
      not '>', so backtracking finds nothing else. */
  function MatchAt(s: string, i: nat): (r: Option<nat>)
    requires i <= |s|
    ensures r.Some? ==> i + 3 <= r.value < |s|
  {
    if i + 2 <= |s| && s[i] == '<' && s[i + 1] == '@' then
      var n := IdRun(s, i + 2);
      if n > 0 && i + 2 + n < |s| && s[i + 2 + n] == '>' then Some(i + 2 + n) else None
    else None
  }

  /** The captured ids of the matches in `s`, left to right; after a match the search
      resumes after its '>', otherwise one character further on. */
  function ScanMentions(s: string): (ids: seq<string>)
    decreases |s|
  {
    if s == [] then []
    else match MatchAt(s, 0)
      case Some(j) => [s[2..j]] + ScanMentions(s[j + 1..])
      case None => ScanMentions(s[1..])
  }

  /** Every id the scan captures is a non-empty run of id characters. */
  lemma {:induction false} ScanFindsIds(s: string)
    ensures forall k :: 0 <= k < |ScanMentions(s)| ==> IsUserId(ScanMentions(s)[k])
    decreases |s|
  {
    if s != [] {
      match MatchAt(s, 0)
      case Some(j) =>
        ScanFindsIds(s[j + 1..]);
        assert IsUserId(s[2..j]);
      case None =>
        ScanFindsIds(s[1..]);
    }
  }

  /** `Mentions`: null for an empty text or a text with no match, the captured ids otherwise. */
  function Mentions(m: SlackMessage): (r: Option<seq<string>>)
    ensures r.Some? ==> r.value != [] && forall k :: 0 <= k < |r.value| ==> IsUserId(r.value[k])
  {
    if m.text == "" then None
    else
      var ids := ScanMentions(m.text);
      ScanFindsIds(m.text);
      if ids == [] then None else Some(ids)
  }

  /** The pattern matches at no position of `s`. */
  predicate NoMatch(s: string) {
    forall k :: 0 <= k < |s| ==> MatchAt(s, k).None?
  }

  /** Where nothing matches at the first position, dropping it keeps `NoMatch` as it was. */
  lemma NoMatchTail(s: string)
    requires s != [] && MatchAt(s, 0).None?
    ensures NoMatch(s) <==> NoMatch(s[1..])
  {
    if NoMatch(s) {
      forall k | 0 <= k < |s| - 1
        ensures MatchAt(s[1..], k).None?
      {
        MatchAtShift(s, s[1..], 1, k);
      }
    }
    if NoMatch(s[1..]) {
      forall k | 1 <= k < |s|
        ensures MatchAt(s, k).None?
      {
        MatchAtShift(s, s[1..], 1, k - 1);
      }
    }
  }

  /** The scan finds nothing exactly when the pattern matches at no position. */
  lemma {:induction false} ScanEmptyIffNoMatch(s: string)
    ensures ScanMentions(s) == [] <==> NoMatch(s)
    decreases |s|
  {
    if s != [] && MatchAt(s, 0).None? {
      ScanEmptyIffNoMatch(s[1..]);
      NoMatchTail(s);
    }
  }

  /** `Mentions` is absent exactly when the text has no `<@ID>` reference. */
  lemma MentionsAbsentIffNoReference(m: SlackMessage)
    ensures Mentions(m).None? <==> forall k :: 0 <= k < |m.text| ==> MatchAt(m.text, k).None?
  {
    ScanEmptyIffNoMatch(m.text);
  }

  /** The reference `<@id>` as it appears in a message. */
  function Reference(id: string): string {
    "<@" + id + ">"
  }

  function References(ids: seq<string>): string {
    if ids == [] then "" else Reference(ids[0]) + References(ids[1..])
  }

  /** The run at `d + i` of a text whose suffix from `d` is `s` is the run at `i` of `s`. */
  lemma {:induction false} IdRunShift(t: string, s: string, d: nat, i: nat)
    requires d <= |t| && t[d..] == s && i <= |s|
    ensures IdRun(t, d + i) == IdRun(s, i)
    decreases |s| - i
  {
    if i < |s| {
      assert t[d + i] == s[i];
      IdRunShift(t, s, d, i + 1);
    }
  }

  lemma MatchAtShift(t: string, s: string, d: nat, i: nat)
    requires d <= |t| && t[d..] == s && i <= |s|
    ensures MatchAt(t, d + i) == (if MatchAt(s, i).Some? then Some(d + MatchAt(s, i).value) else None)
  {
    if i + 2 <= |s| {
      IdRunShift(t, s, d, i + 2);
    }
  }

  lemma ReferenceMatches(id: string, rest: string)
    requires IsUserId(id)
    ensures MatchAt(Reference(id) + rest, 0) == Some(|id| + 2)
  {
    var after := ">" + rest;
    var s := Reference(id) + rest;
    assert s == "<@" + (id + after);
    assert s[0] == '<' && s[1] == '@' && s[2..] == id + after;
    IdRunShift(s, id + after, 2, 0);
    IdRunPrefix(id, after);
    assert IdRun(s, 2) == |id|;
    assert s[|id| + 2] == after[0] == '>';
  }

  lemma {:induction false} IdRunPrefix(id: string, rest: string)
    requires forall k :: 0 <= k < |id| ==> IsIdChar(id[k])
    requires rest != [] && !IsIdChar(rest[0])
    ensures IdRun(id + rest, 0) == |id|
  {
    if id != [] {
      assert (id + rest)[1..] == id[1..] + rest;
      IdRunShift(id + rest, id[1..] + rest, 1, 0);
      IdRunPrefix(id[1..], rest);
    }
  }

  /** Scanning a run of references finds exactly their ids, in order. */
  lemma {:induction false} ScanReferences(ids: seq<string>)
    requires forall k :: 0 <= k < |ids| ==> IsUserId(ids[k])
    ensures ScanMentions(References(ids)) == ids
  {
    if ids != [] {
      var head := Reference(ids[0]);
      var tail := References(ids[1..]);
      var s := head + tail;
      ReferenceMatches(ids[0], tail);
      assert s[2..|ids[0]| + 2] == ids[0];
      assert s[|ids[0]| + 3..] == tail;
      ScanReferences(ids[1..]);
    }
  }

  /** Round trip: the mentions of a text made of references are the referenced ids. */
  lemma MentionsOfReferences(m: SlackMessage, ids: seq<string>)
    requires forall k :: 0 <= k < |ids| ==> IsUserId(ids[k])
    requires m.text == References(ids)
    ensures Mentions(m) == if ids == [] then None else Some(ids)
  {
    ScanReferences(ids);
  }

  /** Lower-case letters are not id characters: `<@u1>` mentions no one. */
  lemma LowerCaseReferenceIsNoMention(m: SlackMessage)
    requires m.text == "<@u1>"
    ensures Mentions(m) == None
  {
    assert IdRun(m.text, 2) == 0;
    ScanEmptyIffNoMatch(m.text);
  }
}
