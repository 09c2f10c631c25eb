/** `SlackClient`: the retrying request loop, the per-client user cache, display-name
    resolution, paged channel history and thread replies.

    The HTTP server is a fixed, finite script: the i-th request the client ever sends gets
    the i-th outcome of the script, and every request past its end fails in transport (the
    server is gone). Each operation is given twice: as a function of the client's state
    (`ClientState`) that says what it returns and what the state becomes, and as a method of
    the class `SlackClient` that does it step by step and is proved to agree with the function. */
module SlackClients {
  import opened Wrappers
  import opened SlackModels
  import opened Ordering

  /** `limit=200` on every history request. */
  const PageLimit := 200
  /** `maxRetries`: attempts per request, 429 answers included. */
  const MaxRetries := 3
  /** The first transport-failure backoff, in seconds; it doubles after each use. */
  const InitialBackoff := 1
  /** The wait after a 429 that carries no Retry-After delta, in seconds. */
  const DefaultRetryAfter := 60

  // ---------------------------------------------------------------------------------------
  // Requests and the scripted server
  // ---------------------------------------------------------------------------------------

  /** The three endpoints; each value stands for the URL the client builds. */
  datatype Request =
    | HistoryRequest(channel: string, limit: nat, oldest: Option<int>, latest: Option<int>, cursor: Option<string>)
    | RepliesRequest(channel: string, threadTs: string)
    | UserInfoRequest(userId: string)

  /** A decoded JSON body. */
  datatype Json = HistoryJson(history: ConversationHistoryResponse) | UserInfoJson(info: UserInfoResponse)

  /** What one `GetAsync` yields. `TransportFailure` is an `HttpRequestException`: a failed
      connection, or a status other than 429 that `EnsureSuccessStatusCode` rejects. */
  datatype HttpOutcome =
    | TransportFailure
    | TooManyRequests(retryAfter: Option<nat>)
    | Delivered(ok: bool, body: Json)

  /** `JsonSerializer.Deserialize<ConversationHistoryResponse>`: a body of another shape
      leaves every member at its default. */
  function AsHistory(body: Json): ConversationHistoryResponse {
    if body.HistoryJson? then body.history else ConversationHistoryResponse(Some([]), false, None)
  }

  /** `JsonSerializer.Deserialize<UserInfoResponse>`, with the same defaulting. */
  function AsUserInfo(body: Json): UserInfoResponse {
    if body.UserInfoJson? then body.info else UserInfoResponse(Some(DefaultUser))
  }

  /** The outcome the server scripts for the request with sequence number `i`. */
  function Outcome(network: seq<HttpOutcome>, i: nat): HttpOutcome {
    if i < |network| then network[i] else TransportFailure
  }

  /** Every message the server can deliver has a timestamp the model can parse. */
  predicate NetworkWellFormed(network: seq<HttpOutcome>) {
    forall o :: o in network && o.Delivered? && o.body.HistoryJson? && o.body.history.messages.Some?
      ==> AllWellFormed(o.body.history.messages.value)
  }

  lemma PageWellFormed(network: seq<HttpOutcome>, body: Json)
    requires NetworkWellFormed(network) && Delivered(true, body) in network
    requires AsHistory(body).messages.Some?
    ensures AllWellFormed(AsHistory(body).messages.value)
  {
    if !body.HistoryJson? {
      assert AsHistory(body).messages.value == [];
    }
  }

  // ---------------------------------------------------------------------------------------
  // GetWithRetryAsync
  // ---------------------------------------------------------------------------------------

  /** How a call of `GetWithRetryAsync` ends: the deserialised body, `null`, or a rethrown
      `HttpRequestException`. */
  datatype Fetch = Fetched(body: Json) | NoResult | Thrown

  /** A call's result, the number of requests it sent, and the delays it awaited (seconds). */
  datatype RetryRun = RetryRun(fetch: Fetch, attempts: nat, waits: seq<nat>)

  /** The loop of `GetWithRetryAsync` from iteration `retry` on, with backoff `delay`, when
      its first request is request number `start`. */
  function RetryFrom(network: seq<HttpOutcome>, start: nat, retry: nat, delay: nat): (run: RetryRun)
    requires retry <= MaxRetries
    ensures run.attempts <= MaxRetries - retry
    ensures retry < MaxRetries ==> run.attempts >= 1
    decreases MaxRetries - retry
  {
    if retry == MaxRetries then RetryRun(NoResult, 0, [])
    else match Outcome(network, start + retry)
      case TooManyRequests(after) =>
        var rest := RetryFrom(network, start, retry + 1, delay);
        RetryRun(rest.fetch, rest.attempts + 1, [after.GetOr(DefaultRetryAfter)] + rest.waits)
      case TransportFailure =>
        if retry == MaxRetries - 1 then RetryRun(Thrown, 1, [])
        else
          var rest := RetryFrom(network, start, retry + 1, 2 * delay);
          RetryRun(rest.fetch, rest.attempts + 1, [delay] + rest.waits)
      case Delivered(ok, body) =>
        RetryRun(if ok then Fetched(body) else NoResult, 1, [])
  }

  /** A whole call of `GetWithRetryAsync` whose first request is request number `start`. */
  function Retry(network: seq<HttpOutcome>, start: nat): (run: RetryRun)
    ensures 1 <= run.attempts <= MaxRetries
  {
    RetryFrom(network, start, 0, InitialBackoff)
  }

  /** A call that does not throw was answered within the script. */
  lemma {:induction false} RetryFromWithinScript(network: seq<HttpOutcome>, start: nat, retry: nat, delay: nat)
    requires retry <= MaxRetries
    ensures var run := RetryFrom(network, start, retry, delay);
      run.fetch != Thrown && run.attempts > 0 ==> start + retry + run.attempts <= |network|
    decreases MaxRetries - retry
  {
    if retry < MaxRetries {
      match Outcome(network, start + retry)
      case TooManyRequests(_) =>
        RetryFromWithinScript(network, start, retry + 1, delay);
      case TransportFailure =>
        if retry < MaxRetries - 1 {
          RetryFromWithinScript(network, start, retry + 1, 2 * delay);
        }
      case Delivered(_, _) =>
    }
  }

  /** How a call ends is decided by the answer to its last request: the body of an
      `ok: true` answer; null for an `ok: false` answer or for a 429 at the third attempt;
      the rethrown exception for a transport failure at the third attempt. */
  lemma {:induction false} RetryFromLast(network: seq<HttpOutcome>, start: nat, retry: nat, delay: nat)
    requires retry < MaxRetries
    ensures var run := RetryFrom(network, start, retry, delay);
      var last := Outcome(network, start + retry + run.attempts - 1);
      && run.attempts >= 1
      && (run.fetch.Fetched? <==> last.Delivered? && last.ok)
      && (run.fetch.Fetched? ==> last == Delivered(true, run.fetch.body))
      && (run.fetch.Thrown? <==> retry + run.attempts == MaxRetries && last == TransportFailure)
      && (run.fetch.NoResult? <==>
            (last.Delivered? && !last.ok) || (retry + run.attempts == MaxRetries && last.TooManyRequests?))
    decreases MaxRetries - retry
  {
    if retry < MaxRetries - 1 {
      match Outcome(network, start + retry)
      case TooManyRequests(_) =>
        RetryFromLast(network, start, retry + 1, delay);
      case TransportFailure =>
        RetryFromLast(network, start, retry + 1, 2 * delay);
      case Delivered(_, _) =>
    }
  }

  /** A body the call returns is the answer, with "ok": true, to the call's last request. */
  lemma RetryFromFetchedDelivered(network: seq<HttpOutcome>, start: nat, retry: nat, delay: nat)
    requires retry <= MaxRetries
    ensures var run := RetryFrom(network, start, retry, delay);
      run.fetch.Fetched? ==>
        && start + retry + run.attempts - 1 < |network|
        && network[start + retry + run.attempts - 1] == Delivered(true, run.fetch.body)
        && Delivered(true, run.fetch.body) in network
  {
    if retry < MaxRetries {
      RetryFromLast(network, start, retry, delay);
    }
  }

  /** The number of transport failures among requests `start + from` to `start + to - 1`. */
  function TransportFailures(network: seq<HttpOutcome>, start: nat, from: nat, to: nat): nat
    decreases to - from
  {
    if from >= to then 0
    else (if Outcome(network, start + from) == TransportFailure then 1 else 0) + TransportFailures(network, start, from + 1, to)
  }

  function Pow2(n: nat): (p: nat)
    ensures p >= 1
  {
    if n == 0 then 1 else 2 * Pow2(n - 1)
  }

  /** The wait after attempt `retry + i` of a loop resumed at `retry` with backoff `delay`:
      a rate limit waits its `Retry-After` seconds (60 without one), a transport failure waits
      the backoff, which doubles with every earlier transport failure. */
  function WaitAfter(network: seq<HttpOutcome>, start: nat, retry: nat, delay: nat, i: nat): nat {
    match Outcome(network, start + retry + i)
    case TooManyRequests(after) => after.GetOr(DefaultRetryAfter)
    case _ => delay * Pow2(TransportFailures(network, start, retry, retry + i))
  }

  /** Attempt `retry + i` failed in a way the loop retries: a rate limit or a transport failure. */
  predicate FailedTransiently(network: seq<HttpOutcome>, start: nat, retry: nat, i: nat) {
    !Outcome(network, start + retry + i).Delivered?
  }

  lemma ShiftAfterRateLimit(network: seq<HttpOutcome>, start: nat, retry: nat, delay: nat, i: nat)
    requires Outcome(network, start + retry).TooManyRequests? && i > 0
    ensures WaitAfter(network, start, retry + 1, delay, i - 1) == WaitAfter(network, start, retry, delay, i)
    ensures FailedTransiently(network, start, retry + 1, i - 1) == FailedTransiently(network, start, retry, i)
  {
    assert start + (retry + 1) + (i - 1) == start + retry + i;
  }

  lemma ShiftAfterTransportFailure(network: seq<HttpOutcome>, start: nat, retry: nat, delay: nat, i: nat)
    requires Outcome(network, start + retry) == TransportFailure && i > 0
    ensures WaitAfter(network, start, retry + 1, 2 * delay, i - 1) == WaitAfter(network, start, retry, delay, i)
    ensures FailedTransiently(network, start, retry + 1, i - 1) == FailedTransiently(network, start, retry, i)
  {
    assert start + (retry + 1) + (i - 1) == start + retry + i;
    var p := Pow2(TransportFailures(network, start, retry + 1, retry + i));
    assert TransportFailures(network, start, retry, retry + i) == 1 + TransportFailures(network, start, retry + 1, retry + i);
    assert 2 * delay * p == delay * (2 * p);
  }

  /** The waits of `run` are those `WaitAfter` gives, each after an attempt that failed
      transiently, and every attempt but the last failed so. */
  predicate WaitsAgree(network: seq<HttpOutcome>, start: nat, retry: nat, delay: nat, run: RetryRun) {
    && |run.waits| <= run.attempts
    && (forall i :: 0 <= i < |run.waits| ==> run.waits[i] == WaitAfter(network, start, retry, delay, i))
    && (forall i :: 0 <= i < |run.waits| ==> FailedTransiently(network, start, retry, i))
    && (forall i :: 0 <= i < run.attempts - 1 ==> FailedTransiently(network, start, retry, i))
  }

  lemma WaitsAfterRateLimit(network: seq<HttpOutcome>, start: nat, retry: nat, delay: nat, rest: RetryRun, run: RetryRun)
    requires Outcome(network, start + retry).TooManyRequests?
    requires WaitsAgree(network, start, retry + 1, delay, rest)
    requires run == RetryRun(rest.fetch, rest.attempts + 1, [Outcome(network, start + retry).retryAfter.GetOr(DefaultRetryAfter)] + rest.waits)
    ensures WaitsAgree(network, start, retry, delay, run)
  {
    forall i | 0 < i < |run.waits| + run.attempts
      ensures i < |run.waits| ==> run.waits[i] == WaitAfter(network, start, retry, delay, i)
      ensures FailedTransiently(network, start, retry + 1, i - 1) == FailedTransiently(network, start, retry, i)
    {
      ShiftAfterRateLimit(network, start, retry, delay, i);
    }
  }

  lemma WaitsAfterTransportFailure(network: seq<HttpOutcome>, start: nat, retry: nat, delay: nat, rest: RetryRun, run: RetryRun)
    requires Outcome(network, start + retry) == TransportFailure
    requires WaitsAgree(network, start, retry + 1, 2 * delay, rest)
    requires run == RetryRun(rest.fetch, rest.attempts + 1, [delay] + rest.waits)
    ensures WaitsAgree(network, start, retry, delay, run)
  {
    forall i | 0 < i < |run.waits| + run.attempts
      ensures i < |run.waits| ==> run.waits[i] == WaitAfter(network, start, retry, delay, i)
      ensures FailedTransiently(network, start, retry + 1, i - 1) == FailedTransiently(network, start, retry, i)
    {
      ShiftAfterTransportFailure(network, start, retry, delay, i);
    }
  }

  lemma {:induction false} RetryFromWaits(network: seq<HttpOutcome>, start: nat, retry: nat, delay: nat)
    requires retry <= MaxRetries
    ensures WaitsAgree(network, start, retry, delay, RetryFrom(network, start, retry, delay))
    decreases MaxRetries - retry
  {
    if retry < MaxRetries {
      var run := RetryFrom(network, start, retry, delay);
      match Outcome(network, start + retry)
      case TooManyRequests(after) =>
        RetryFromWaits(network, start, retry + 1, delay);
        WaitsAfterRateLimit(network, start, retry, delay, RetryFrom(network, start, retry + 1, delay), run);
      case TransportFailure =>
        if retry < MaxRetries - 1 {
          RetryFromWaits(network, start, retry + 1, 2 * delay);
          WaitsAfterTransportFailure(network, start, retry, delay, RetryFrom(network, start, retry + 1, 2 * delay), run);
        }
      case Delivered(_, _) =>
    }
  }

  /** Backoff: every attempt of a call but its last failed transiently, and after such an
      attempt the call waited 1 s, 2 s, 4 s, ... for transport failures, counting only
      transport failures, and the `Retry-After` seconds (60 without one) for rate limits. */
  lemma RetryBackoff(network: seq<HttpOutcome>, start: nat)
    ensures var run := Retry(network, start);
      && 1 <= run.attempts <= MaxRetries
      && |run.waits| <= run.attempts
      && (forall i :: 0 <= i < |run.waits| ==> run.waits[i] == WaitAfter(network, start, 0, InitialBackoff, i))
      && (forall i :: 0 <= i < |run.waits| ==> FailedTransiently(network, start, 0, i))
      && (forall i :: 0 <= i < run.attempts - 1 ==> FailedTransiently(network, start, 0, i))
  {
    RetryFromWaits(network, start, 0, InitialBackoff);
  }

  /** At most three requests per call, and at least one. */
  lemma RetryAttempts(network: seq<HttpOutcome>, start: nat)
    ensures 1 <= Retry(network, start).attempts <= MaxRetries
  {
  }

  /** `ok: false` ends the call at once: null, one request, no wait. */
  lemma ApplicationErrorIsFinal(network: seq<HttpOutcome>, start: nat, body: Json)
    requires Outcome(network, start) == Delivered(false, body)
    ensures Retry(network, start) == RetryRun(NoResult, 1, [])
  {
  }

  /** Transport failures wait 1 s, then 2 s, and the third one is rethrown. */
  lemma ThreeTransportFailuresThrow(network: seq<HttpOutcome>, start: nat)
    requires Outcome(network, start) == TransportFailure
    requires Outcome(network, start + 1) == TransportFailure
    requires Outcome(network, start + 2) == TransportFailure
    ensures Retry(network, start) == RetryRun(Thrown, 3, [1, 2])
  {
  }

  /** After one transport failure the call waits 1 s and retries. */
  lemma TransportFailureThenSuccess(network: seq<HttpOutcome>, start: nat, body: Json)
    requires Outcome(network, start) == TransportFailure
    requires Outcome(network, start + 1) == Delivered(true, body)
    ensures Retry(network, start) == RetryRun(Fetched(body), 2, [1])
  {
  }

  /** After two transport failures the call has waited 1 s and then 2 s. */
  lemma TwoTransportFailuresThenSuccess(network: seq<HttpOutcome>, start: nat, body: Json)
    requires Outcome(network, start) == TransportFailure
    requires Outcome(network, start + 1) == TransportFailure
    requires Outcome(network, start + 2) == Delivered(true, body)
    ensures Retry(network, start) == RetryRun(Fetched(body), 3, [1, 2])
  {
  }

  /** A 429 waits its Retry-After delta (60 s without one) and uses up one attempt. */
  lemma RateLimitThenSuccess(network: seq<HttpOutcome>, start: nat, after: Option<nat>, body: Json)
    requires Outcome(network, start) == TooManyRequests(after)
    requires Outcome(network, start + 1) == Delivered(true, body)
    ensures Retry(network, start) == RetryRun(Fetched(body), 2, [after.GetOr(DefaultRetryAfter)])
  {
  }

  /** Three 429s in a row use up the budget: null, not an exception. */
  lemma ThreeRateLimitsGiveNull(network: seq<HttpOutcome>, start: nat, a0: Option<nat>, a1: Option<nat>, a2: Option<nat>)
    requires Outcome(network, start) == TooManyRequests(a0)
    requires Outcome(network, start + 1) == TooManyRequests(a1)
    requires Outcome(network, start + 2) == TooManyRequests(a2)
    ensures Retry(network, start) == RetryRun(NoResult, 3,
      [a0.GetOr(DefaultRetryAfter), a1.GetOr(DefaultRetryAfter), a2.GetOr(DefaultRetryAfter)])
  {
  }

  /** A 429 does not double the transport backoff: a later transport failure still waits 1 s. */
  lemma RateLimitKeepsBackoff(network: seq<HttpOutcome>, start: nat, after: Option<nat>)
    requires Outcome(network, start) == TooManyRequests(after)
    requires Outcome(network, start + 1) == TransportFailure
    requires Outcome(network, start + 2) == TransportFailure
    ensures Retry(network, start) == RetryRun(Thrown, 3, [after.GetOr(DefaultRetryAfter), 1])
  {
  }

  // ---------------------------------------------------------------------------------------
  // Client state and the specification of each operation
  // ---------------------------------------------------------------------------------------

  /** `_userCache`, plus the requests sent and the delays awaited so far. */
  datatype ClientState = ClientState(cache: map<string, SlackUser>, sent: seq<Request>, waits: seq<nat>)

  /** An operation's new state and its result. */
  datatype Step<T> = Step(state: ClientState, result: Result<T>)

  /** The new state and outcome of one `GetWithRetryAsync` call. */
  datatype Sent = Sent(state: ClientState, fetch: Fetch)

  function Repeat(req: Request, n: nat): (rs: seq<Request>)
    ensures |rs| == n && forall i :: 0 <= i < n ==> rs[i] == req
  {
    if n == 0 then [] else Repeat(req, n - 1) + [req]
  }

  /** `GetWithRetryAsync(url)` for the request `req`. */
  function Send(network: seq<HttpOutcome>, st: ClientState, req: Request): (s: Sent)
    ensures s.state.cache == st.cache
  {
    var run := Retry(network, |st.sent|);
    Sent(st.(sent := st.sent + Repeat(req, run.attempts), waits := st.waits + run.waits), run.fetch)
  }

  /** A call that does not throw sends at least one request and stays within the script. */
  lemma SendProgress(network: seq<HttpOutcome>, st: ClientState, req: Request)
    ensures var s := Send(network, st, req);
      s.fetch != Thrown ==> |st.sent| < |s.state.sent| <= |network|
  {
    RetryFromWithinScript(network, |st.sent|, 0, InitialBackoff);
  }

  lemma SendFetchedDelivered(network: seq<HttpOutcome>, st: ClientState, req: Request)
    ensures var s := Send(network, st, req);
      s.fetch.Fetched? ==> Delivered(true, s.fetch.body) in network
  {
    RetryFromFetchedDelivered(network, |st.sent|, 0, InitialBackoff);
  }

  /** A call's result is decided by the answer to its last request, which is `req` itself:
      the request with sequence number `k` receives `Outcome(network, k)`. */
  lemma SendLast(network: seq<HttpOutcome>, st: ClientState, req: Request)
    ensures |Send(network, st, req).state.sent| > |st.sent|
    ensures var s := Send(network, st, req);
      var k := |s.state.sent| - 1;
      var last := Outcome(network, k);
      && s.state.sent[k] == req
      && (s.fetch.Fetched? <==> last.Delivered? && last.ok)
      && (s.fetch.Fetched? ==> last == Delivered(true, s.fetch.body))
      && (s.fetch.Thrown? <==> k == |st.sent| + MaxRetries - 1 && last == TransportFailure)
      && (s.fetch.NoResult? <==>
            (last.Delivered? && !last.ok) || (k == |st.sent| + MaxRetries - 1 && last.TooManyRequests?))
  {
    RetryFromLast(network, |st.sent|, 0, InitialBackoff);
  }

  /** `GetUserInfoAsync(userId)`: the cached user, or a lookup whose user is cached. */
  function UserInfo(network: seq<HttpOutcome>, st: ClientState, userId: string): (r: Step<Option<SlackUser>>)
    ensures r.result.Ok? && r.result.value.Some? ==> userId in r.state.cache && r.state.cache[userId] == r.result.value.value
  {
    if userId in st.cache then Step(st, Ok(Some(st.cache[userId])))
    else
      var s := Send(network, st, UserInfoRequest(userId));
      match s.fetch
      case Thrown => Step(s.state, Failed(HttpRequestFailed))
      case NoResult => Step(s.state, Ok(None))
      case Fetched(body) =>
        var user := AsUserInfo(body).user;
        if user.Some? then Step(s.state.(cache := s.state.cache[userId := user.value]), Ok(user))
        else Step(s.state, Ok(None))
  }

  /** The name `GetUserDisplayNameAsync` shows for a resolved user: the profile's display
      name, else its real name, else the account name. */
  function ProfileName(user: SlackUser): (name: string)
    ensures user.profile.displayName != "" ==> name == user.profile.displayName
    ensures user.profile.displayName == "" && user.profile.realName != "" ==> name == user.profile.realName
    ensures user.profile.displayName == "" && user.profile.realName == "" ==> name == user.name
  {
    if user.profile.displayName != "" then user.profile.displayName
    else if user.profile.realName != "" then user.profile.realName
    else user.name
  }

  /** The name shown for an id that cannot be resolved. */
  function Placeholder(userId: string): string {
    "User-" + userId
  }

  function DisplayNameOf(user: Option<SlackUser>, userId: string): string {
    if user.Some? then ProfileName(user.value) else Placeholder(userId)
  }

  /** The fallback chain picks the first non-empty name, and falls back to a placeholder that
      contains the raw id. */
  lemma DisplayNameFallback(user: Option<SlackUser>, userId: string)
    ensures user.None? ==> DisplayNameOf(user, userId) == "User-" + userId
    ensures user.Some? && user.value.profile.displayName == "" && user.value.profile.realName != ""
      ==> DisplayNameOf(user, userId) == user.value.profile.realName
    ensures user.Some? && (user.value.profile.displayName != "" || user.value.profile.realName != "" || user.value.name != "")
      ==> DisplayNameOf(user, userId) != ""
    ensures user.None? ==> DisplayNameOf(user, userId)[5..] == userId
  {
  }

  /** `GetUserDisplayNameAsync(userId)`. */
  function DisplayName(network: seq<HttpOutcome>, st: ClientState, userId: string): (r: Step<string>)
    ensures userId in st.cache ==> r == Step(st, Ok(ProfileName(st.cache[userId])))
  {
    var u := UserInfo(network, st, userId);
    match u.result
    case Failed(e) => Step(u.state, Failed(e))
    case Ok(user) => Step(u.state, Ok(DisplayNameOf(user, userId)))
  }

  /** One pass of the enrichment loop: a message with an author gets its display name. */
  function EnrichMessage(network: seq<HttpOutcome>, st: ClientState, m: SlackMessage): Step<SlackMessage> {
    if NonEmpty(m.userId) then
      var n := DisplayName(network, st, m.userId.value);
      match n.result
      case Failed(e) => Step(n.state, Failed(e))
      case Ok(name) => Step(n.state, Ok(m.(userDisplayName := Some(name))))
    else Step(st, Ok(m))
  }

  /** The loop over a page's messages that assigns `UserDisplayName`: only the display name
      of a message changes, every message with an author gets one, and the others keep theirs. */
  function Enrich(network: seq<HttpOutcome>, st: ClientState, ms: seq<SlackMessage>): (r: Step<seq<SlackMessage>>)
    ensures r.result.Ok? ==> |r.result.value| == |ms|
    ensures r.result.Ok? ==> forall k :: 0 <= k < |ms| ==>
      && r.result.value[k] == ms[k].(userDisplayName := r.result.value[k].userDisplayName)
      && (NonEmpty(ms[k].userId) ==> r.result.value[k].userDisplayName.Some?)
      && (!NonEmpty(ms[k].userId) ==> r.result.value[k] == ms[k])
    decreases |ms|
  {
    if ms == [] then Step(st, Ok([]))
    else
      var first := EnrichMessage(network, st, ms[0]);
      match first.result
      case Failed(e) => Step(first.state, Failed(e))
      case Ok(m) =>
        var rest := Enrich(network, first.state, ms[1..]);
        match rest.result
        case Failed(e) => Step(rest.state, Failed(e))
        case Ok(tail) => Step(rest.state, Ok([m] + tail))
  }

  /** The query part of a history request. */
  datatype HistoryQuery = HistoryQuery(channel: string, oldest: Option<int>, latest: Option<int>)

  /** The request for one page: the cursor goes in only when it is non-empty. */
  function HistoryRequestFor(q: HistoryQuery, cursor: Option<string>): (req: Request)
    ensures req.HistoryRequest? && (req.cursor.Some? <==> NonEmpty(cursor))
  {
    HistoryRequest(q.channel, PageLimit, q.oldest, q.latest, if NonEmpty(cursor) then cursor else None)
  }

  /** The `do`/`while` loop of `GetChannelHistoryAsync` from a page requested with `cursor`,
      having collected `acc` so far. */
  function HistoryFrom(network: seq<HttpOutcome>, st: ClientState, q: HistoryQuery, cursor: Option<string>,
                       acc: seq<SlackMessage>): (r: Step<seq<SlackMessage>>)
    requires NetworkWellFormed(network) && AllWellFormed(acc)
    ensures r.result.Ok? ==> AllWellFormed(r.result.value)
    decreases |network| - |st.sent|
  {
    var s := Send(network, st, HistoryRequestFor(q, cursor));
    match s.fetch
    case Thrown => Step(s.state, Failed(HttpRequestFailed))
    case NoResult => Step(s.state, Ok(acc))
    case Fetched(body) =>
      var page := AsHistory(body);
      if page.messages.None? then Step(s.state, Ok(acc))
      else
        var e := Enrich(network, s.state, page.messages.value);
        match e.result
        case Failed(err) => Step(e.state, Failed(err))
        case Ok(named) =>
          SendFetchedDelivered(network, st, HistoryRequestFor(q, cursor));
          PageWellFormed(network, body);
          var all := acc + named;
          assert AllWellFormed(all) by {
            assert forall k :: 0 <= k < |named| ==> named[k].ts == page.messages.value[k].ts;
          }
          if !NonEmpty(NextCursor(page)) then Step(e.state, Ok(all))
          else
            SendProgress(network, st, HistoryRequestFor(q, cursor));
            EnrichProgress(network, s.state, page.messages.value);
            HistoryFrom(network, e.state, q, NextCursor(page), all)
  }

  /** `GetChannelHistoryAsync(channel, from, to)`: every page, then a stable sort by time. */
  function History(network: seq<HttpOutcome>, st: ClientState, q: HistoryQuery): (r: Step<seq<SlackMessage>>)
    requires NetworkWellFormed(network)
    ensures r.result.Ok? ==> AllWellFormed(r.result.value) && SortedByTime(r.result.value)
  {
    var r := HistoryFrom(network, st, q, None, []);
    match r.result
    case Failed(e) => Step(r.state, Failed(e))
    case Ok(ms) => Step(r.state, Ok(SortByTime(ms)))
  }

  /** `GetThreadRepliesAsync(channel, threadTs)`: a failed fetch gives an empty list. */
  function Replies(network: seq<HttpOutcome>, st: ClientState, channel: string, threadTs: string): (r: Step<seq<SlackMessage>>)
    requires NetworkWellFormed(network)
    ensures r.result.Ok? ==> AllWellFormed(r.result.value) && SortedByTime(r.result.value)
  {
    var s := Send(network, st, RepliesRequest(channel, threadTs));
    match s.fetch
    case Thrown => Step(s.state, Failed(HttpRequestFailed))
    case NoResult => Step(s.state, Ok([]))
    case Fetched(body) =>
      var page := AsHistory(body);
      if page.messages.None? then Step(s.state, Ok([]))
      else
        var e := Enrich(network, s.state, page.messages.value);
        match e.result
        case Failed(err) => Step(e.state, Failed(err))
        case Ok(named) =>
          SendFetchedDelivered(network, st, RepliesRequest(channel, threadTs));
          PageWellFormed(network, body);
          assert forall k :: 0 <= k < |named| ==> named[k].ts == page.messages.value[k].ts;
          Step(e.state, Ok(SortByTime(named)))
  }

  // ---------------------------------------------------------------------------------------
  // Properties of the specification
  // ---------------------------------------------------------------------------------------

  /** `c2` keeps every entry of `c1` unchanged. */
  predicate Extends(c1: map<string, SlackUser>, c2: map<string, SlackUser>) {
    forall k :: k in c1 ==> k in c2 && c2[k] == c1[k]
  }

  /** A cached id is answered from the cache, with no request and no change of state. */
  lemma UserInfoCacheHit(network: seq<HttpOutcome>, st: ClientState, userId: string)
    requires userId in st.cache
    ensures UserInfo(network, st, userId) == Step(st, Ok(Some(st.cache[userId])))
  {
  }

  /** A lookup changes the cache only by storing the user it found under `userId`; a lookup
      that finds no one leaves the cache as it was. */
  lemma UserInfoCache(network: seq<HttpOutcome>, st: ClientState, userId: string)
    ensures var r := UserInfo(network, st, userId);
      && (r.result == Ok(None) || r.result.Failed? ==> r.state.cache == st.cache)
      && (r.result.Ok? && r.result.value.Some? ==>
            r.state.cache == st.cache[userId := r.result.value.value])
      && (forall k :: k != userId ==> (k in r.state.cache <==> k in st.cache))
      && Extends(st.cache, r.state.cache)
  {
  }

  /** A miss sends only `users.info` requests for that id, one to three of them. */
  lemma UserInfoRequests(network: seq<HttpOutcome>, st: ClientState, userId: string)
    requires userId !in st.cache
    ensures var r := UserInfo(network, st, userId);
      && |st.sent| < |r.state.sent| <= |st.sent| + MaxRetries
      && r.state.sent[..|st.sent|] == st.sent
      && forall i :: |st.sent| <= i < |r.state.sent| ==> r.state.sent[i] == UserInfoRequest(userId)
  {
  }

  lemma UserInfoProgress(network: seq<HttpOutcome>, st: ClientState, userId: string)
    requires |st.sent| <= |network|
    ensures var r := UserInfo(network, st, userId);
      r.result.Ok? ==> |st.sent| <= |r.state.sent| <= |network|
  {
    SendProgress(network, st, UserInfoRequest(userId));
  }

  lemma {:induction false} EnrichProgress(network: seq<HttpOutcome>, st: ClientState, ms: seq<SlackMessage>)
    requires |st.sent| <= |network|
    ensures var r := Enrich(network, st, ms);
      r.result.Ok? ==> |st.sent| <= |r.state.sent| <= |network|
    decreases |ms|
  {
    if ms != [] && NonEmpty(ms[0].userId) {
      UserInfoProgress(network, st, ms[0].userId.value);
      var first := EnrichMessage(network, st, ms[0]);
      if first.result.Ok? {
        EnrichProgress(network, first.state, ms[1..]);
      }
    } else if ms != [] {
      EnrichProgress(network, st, ms[1..]);
    }
  }

  /** Enrichment never changes a cached entry. */
  lemma {:induction false} EnrichExtendsCache(network: seq<HttpOutcome>, st: ClientState, ms: seq<SlackMessage>)
    ensures Extends(st.cache, Enrich(network, st, ms).state.cache)
    decreases |ms|
  {
    if ms != [] {
      if NonEmpty(ms[0].userId) {
        UserInfoCache(network, st, ms[0].userId.value);
      }
      var first := EnrichMessage(network, st, ms[0]);
      if first.result.Ok? {
        EnrichExtendsCache(network, first.state, ms[1..]);
      }
    }
  }

  /** Each author gets the name of the user the client ends up caching for that id, or the
      placeholder when no lookup of it succeeded in time; authors already cached get the
      cached user's name. */
  lemma {:induction false} EnrichNames(network: seq<HttpOutcome>, st: ClientState, ms: seq<SlackMessage>)
    ensures var r := Enrich(network, st, ms);
      r.result.Ok? ==> forall k :: 0 <= k < |ms| && NonEmpty(ms[k].userId) ==>
        var id := ms[k].userId.value;
        && (r.result.value[k].userDisplayName == Some(Placeholder(id))
            || (id in r.state.cache && r.result.value[k].userDisplayName == Some(ProfileName(r.state.cache[id]))))
        && (id in st.cache ==> r.result.value[k].userDisplayName == Some(ProfileName(st.cache[id])))
    decreases |ms|
  {
    if ms != [] {
      var first := EnrichMessage(network, st, ms[0]);
      if first.result.Ok? {
        var rest := Enrich(network, first.state, ms[1..]);
        EnrichNames(network, first.state, ms[1..]);
        EnrichExtendsCache(network, first.state, ms[1..]);
        if NonEmpty(ms[0].userId) {
          UserInfoCache(network, st, ms[0].userId.value);
        }
        var r := Enrich(network, st, ms);
        if r.result.Ok? {
          forall k | 1 <= k < |ms| && NonEmpty(ms[k].userId)
            ensures ms[k].userId.value in st.cache ==>
              r.result.value[k].userDisplayName == Some(ProfileName(st.cache[ms[k].userId.value]))
          {
            assert ms[1..][k - 1] == ms[k];
            assert r.result.value[k] == rest.result.value[k - 1];
          }
        }
      }
    }
  }

  /** History and thread results come out in time order, as a permutation of the collected
      messages, with equal timestamps left in arrival order. */
  lemma HistoryOrdered(network: seq<HttpOutcome>, st: ClientState, q: HistoryQuery)
    requires NetworkWellFormed(network)
    ensures var r := History(network, st, q); var raw := HistoryFrom(network, st, q, None, []);
      r.result.Ok? ==>
        && raw.result.Ok?
        && AllWellFormed(r.result.value) && SortedByTime(r.result.value)
        && multiset(r.result.value) == multiset(raw.result.value)
        && forall k :: WithKey(r.result.value, k) == WithKey(raw.result.value, k)
  {
    var raw := HistoryFrom(network, st, q, None, []);
    if raw.result.Ok? {
      forall k { SortByTimeStable(raw.result.value, k); }
    }
  }

  /** A thread fetch that gets no body, or a body without messages, yields an empty list. */
  lemma FailedRepliesAreEmpty(network: seq<HttpOutcome>, st: ClientState, channel: string, threadTs: string)
    requires NetworkWellFormed(network)
    requires var s := Send(network, st, RepliesRequest(channel, threadTs));
      s.fetch == NoResult || (s.fetch.Fetched? && AsHistory(s.fetch.body).messages.None?)
    ensures Replies(network, st, channel, threadTs).result == Ok([])
  {
  }

  /** Every message with an author has a display name. */
  predicate AuthorsNamed(ms: seq<SlackMessage>) {
    forall i :: 0 <= i < |ms| && NonEmpty(ms[i].userId) ==> ms[i].userDisplayName.Some?
  }

  lemma AuthorsNamedPermutation(ms: seq<SlackMessage>, r: seq<SlackMessage>)
    requires AuthorsNamed(ms) && multiset(r) == multiset(ms)
    ensures AuthorsNamed(r)
  {
    forall i | 0 <= i < |r| && NonEmpty(r[i].userId)
      ensures r[i].userDisplayName.Some?
    {
      assert r[i] in multiset(ms);
    }
  }

  /** `r` is `src` enriched position by position: a message with an author has a display
      name, and a message without one keeps the display name it had. */
  predicate NamedFrom(src: seq<SlackMessage>, r: seq<SlackMessage>) {
    && |r| == |src|
    && forall k :: 0 <= k < |src| ==>
         && (NonEmpty(src[k].userId) ==> r[k].userDisplayName.Some?)
         && (!NonEmpty(src[k].userId) ==> r[k].userDisplayName == src[k].userDisplayName)
  }

  /** Every message of `ms` without an author is a message of `src`, unchanged. */
  predicate UnauthoredFrom(ms: seq<SlackMessage>, src: seq<SlackMessage>) {
    forall i :: 0 <= i < |ms| && !NonEmpty(ms[i].userId) ==> ms[i] in src
  }

  /** Enrichment seen from outside: when only display names differ, every author is named
      and every message without an author is the original one. */
  lemma NamedFromUnnamed(src: seq<SlackMessage>, r: seq<SlackMessage>)
    requires NamedFrom(src, r) && UnnamedAll(r) == UnnamedAll(src)
    ensures AuthorsNamed(r) && UnauthoredFrom(r, src)
  {
    forall k | 0 <= k < |r|
      ensures r[k].userId == src[k].userId
      ensures !NonEmpty(r[k].userId) ==> r[k] == src[k]
    {
      assert Unnamed(r[k]) == UnnamedAll(r)[k] == UnnamedAll(src)[k] == Unnamed(src[k]);
    }
  }

  lemma UnauthoredPermutation(ms: seq<SlackMessage>, r: seq<SlackMessage>, src: seq<SlackMessage>)
    requires UnauthoredFrom(ms, src) && multiset(r) == multiset(ms)
    ensures UnauthoredFrom(r, src)
  {
    forall i | 0 <= i < |r| && !NonEmpty(r[i].userId)
      ensures r[i] in src
    {
      assert r[i] in multiset(ms);
    }
  }

  lemma EnrichedUnnamed(page: seq<SlackMessage>, named: seq<SlackMessage>)
    requires |named| == |page|
    requires forall k :: 0 <= k < |page| ==> named[k] == page[k].(userDisplayName := named[k].userDisplayName)
    ensures UnnamedAll(named) == UnnamedAll(page)
    ensures forall k :: 0 <= k < |page| ==> named[k].ts == page[k].ts
  {
  }

  /** Sorting an enriched page: with display names cleared it is the page sorted, and every
      message with an author keeps the name enrichment gave it. */
  lemma SortEnriched(page: seq<SlackMessage>, named: seq<SlackMessage>)
    requires AllWellFormed(page) && |named| == |page| && AuthorsNamed(named)
    requires forall k :: 0 <= k < |page| ==> named[k] == page[k].(userDisplayName := named[k].userDisplayName)
    ensures AllWellFormed(named)
    ensures UnnamedAll(SortByTime(named)) == SortByTime(UnnamedAll(page))
    ensures AuthorsNamed(SortByTime(named))
  {
    EnrichedUnnamed(page, named);
    SortByTimeUnnamed(named);
    AuthorsNamedPermutation(named, SortByTime(named));
  }

  /** A delivered page of replies comes back whole: with display names cleared, the result is
      the page in a stable order by time, every reply with an author has a name, and every
      reply without one is a message of the page, unchanged. */
  lemma RepliesOfPage(network: seq<HttpOutcome>, st: ClientState, channel: string, threadTs: string)
    requires NetworkWellFormed(network)
    ensures var s := Send(network, st, RepliesRequest(channel, threadTs));
      var r := Replies(network, st, channel, threadTs);
      s.fetch.Fetched? && AsHistory(s.fetch.body).messages.Some? && r.result.Ok? ==>
        var page := AsHistory(s.fetch.body).messages.value;
        && AllWellFormed(page)
        && |r.result.value| == |page|
        && UnnamedAll(r.result.value) == SortByTime(UnnamedAll(page))
        && AuthorsNamed(r.result.value)
        && UnauthoredFrom(r.result.value, page)
  {
    var s := Send(network, st, RepliesRequest(channel, threadTs));
    if s.fetch.Fetched? && AsHistory(s.fetch.body).messages.Some? {
      var page := AsHistory(s.fetch.body).messages.value;
      SendFetchedDelivered(network, st, RepliesRequest(channel, threadTs));
      PageWellFormed(network, s.fetch.body);
      var e := Enrich(network, s.state, page);
      if e.result.Ok? {
        assert AuthorsNamed(e.result.value) by {
          assert forall k :: 0 <= k < |page| ==> e.result.value[k].userId == page[k].userId;
        }
        SortEnriched(page, e.result.value);
        NamedFromUnnamed(page, e.result.value);
        UnauthoredPermutation(e.result.value, SortByTime(e.result.value), page);
      }
    }
  }

  // ---------------------------------------------------------------------------------------
  // Pagination over a well-behaved server
  // ---------------------------------------------------------------------------------------

  /** Messages whose authors are all cached already, so enrichment needs no request. */
  predicate AuthorsCached(cache: map<string, SlackUser>, ms: seq<SlackMessage>) {
    forall k :: 0 <= k < |ms| && NonEmpty(ms[k].userId) ==> ms[k].userId.value in cache
  }

  /** The display names given from the cache alone; authors the cache lacks are left as they are. */
  function NamedFromCache(cache: map<string, SlackUser>, ms: seq<SlackMessage>): (r: seq<SlackMessage>)
    ensures |r| == |ms|
  {
    if ms == [] then []
    else
      var m := ms[0];
      var head := if NonEmpty(m.userId) && m.userId.value in cache
        then m.(userDisplayName := Some(ProfileName(cache[m.userId.value]))) else m;
      [head] + NamedFromCache(cache, ms[1..])
  }

  lemma {:induction false} EnrichFromCache(network: seq<HttpOutcome>, st: ClientState, ms: seq<SlackMessage>)
    requires AuthorsCached(st.cache, ms)
    ensures Enrich(network, st, ms) == Step(st, Ok(NamedFromCache(st.cache, ms)))
    decreases |ms|
  {
    if ms != [] {
      EnrichFromCache(network, st, ms[1..]);
    }
  }

  /** A chain of pages linked by cursors: each page has messages, every page but the last
      names a next cursor, and the last names none. */
  predicate CursorChain(pages: seq<ConversationHistoryResponse>) {
    && pages != []
    && (forall i :: 0 <= i < |pages| ==> pages[i].messages.Some?)
    && (forall i :: 0 <= i < |pages| - 1 ==> NonEmpty(NextCursor(pages[i])))
    && !NonEmpty(NextCursor(pages[|pages| - 1]))
  }

  /** The requests that walk such a chain, starting with `cursor`. */
  function ChainRequests(q: HistoryQuery, cursor: Option<string>, pages: seq<ConversationHistoryResponse>): (rs: seq<Request>)
    ensures |rs| == |pages|
    decreases |pages|
  {
    if pages == [] then [] else [HistoryRequestFor(q, cursor)] + ChainRequests(q, NextCursor(pages[0]), pages[1..])
  }

  /** The messages of a chain of pages, named from the cache. */
  function ChainMessages(cache: map<string, SlackUser>, pages: seq<ConversationHistoryResponse>): seq<SlackMessage>
  {
    if pages == [] then [] else NamedFromCache(cache, pages[0].messages.GetOr([])) + ChainMessages(cache, pages[1..])
  }

  lemma SendDelivered(network: seq<HttpOutcome>, st: ClientState, req: Request, body: Json)
    requires Outcome(network, |st.sent|) == Delivered(true, body)
    ensures Send(network, st, req) == Sent(st.(sent := st.sent + [req]), Fetched(body))
  {
    assert Repeat(req, 1) == [req];
    assert st.waits + [] == st.waits;
  }

  /** The facts both kinds of cached page share: the page costs one request, needs no
      lookup, and its messages are well formed. */
  lemma CachedPage(network: seq<HttpOutcome>, st: ClientState, q: HistoryQuery,
                   cursor: Option<string>, page: ConversationHistoryResponse)
    requires NetworkWellFormed(network)
    requires Outcome(network, |st.sent|) == Delivered(true, HistoryJson(page))
    requires page.messages.Some? && AuthorsCached(st.cache, page.messages.value)
    ensures var st1 := st.(sent := st.sent + [HistoryRequestFor(q, cursor)]);
      && Send(network, st, HistoryRequestFor(q, cursor)) == Sent(st1, Fetched(HistoryJson(page)))
      && Enrich(network, st1, page.messages.value) == Step(st1, Ok(NamedFromCache(st.cache, page.messages.value)))
      && AllWellFormed(NamedFromCache(st.cache, page.messages.value))
  {
    var req := HistoryRequestFor(q, cursor);
    SendDelivered(network, st, req, HistoryJson(page));
    var st1 := st.(sent := st.sent + [req]);
    EnrichFromCache(network, st1, page.messages.value);
    assert network[|st.sent|] == Delivered(true, HistoryJson(page));
    PageWellFormed(network, HistoryJson(page));
  }

  /** The last page of a chain: one request, its messages added, and the loop ends. */
  lemma HistoryFromLastPage(network: seq<HttpOutcome>, st: ClientState, q: HistoryQuery,
                            cursor: Option<string>, acc: seq<SlackMessage>, page: ConversationHistoryResponse)
    requires NetworkWellFormed(network) && AllWellFormed(acc)
    requires Outcome(network, |st.sent|) == Delivered(true, HistoryJson(page))
    requires page.messages.Some? && AuthorsCached(st.cache, page.messages.value)
    requires !NonEmpty(NextCursor(page))
    ensures var all := acc + NamedFromCache(st.cache, page.messages.value);
      && AllWellFormed(all)
      && HistoryFrom(network, st, q, cursor, acc) == Step(st.(sent := st.sent + [HistoryRequestFor(q, cursor)]), Ok(all))
  {
    CachedPage(network, st, q, cursor, page);
  }

  /** A page that names a next cursor: one request, its messages added, and the loop goes on
      with that cursor. */
  lemma HistoryFromLinkedPage(network: seq<HttpOutcome>, st: ClientState, q: HistoryQuery,
                              cursor: Option<string>, acc: seq<SlackMessage>, page: ConversationHistoryResponse)
    requires NetworkWellFormed(network) && AllWellFormed(acc)
    requires Outcome(network, |st.sent|) == Delivered(true, HistoryJson(page))
    requires page.messages.Some? && AuthorsCached(st.cache, page.messages.value)
    requires NonEmpty(NextCursor(page))
    ensures var all := acc + NamedFromCache(st.cache, page.messages.value);
      && AllWellFormed(all)
      && HistoryFrom(network, st, q, cursor, acc)
        == HistoryFrom(network, st.(sent := st.sent + [HistoryRequestFor(q, cursor)]), q, NextCursor(page), all)
  {
    CachedPage(network, st, q, cursor, page);
  }

  /** The pages after the first of a chain form a chain served from the next request on. */
  lemma ChainTail(network: seq<HttpOutcome>, st: ClientState, st1: ClientState, pages: seq<ConversationHistoryResponse>)
    requires CursorChain(pages) && |pages| > 1 && |st1.sent| == |st.sent| + 1 && st1.cache == st.cache
    requires forall i :: 0 <= i < |pages| ==> Outcome(network, |st.sent| + i) == Delivered(true, HistoryJson(pages[i]))
    requires forall i :: 0 <= i < |pages| ==> AuthorsCached(st.cache, pages[i].messages.value)
    ensures NonEmpty(NextCursor(pages[0])) && CursorChain(pages[1..])
    ensures forall i :: 0 <= i < |pages[1..]| ==> Outcome(network, |st1.sent| + i) == Delivered(true, HistoryJson(pages[1..][i]))
    ensures forall i :: 0 <= i < |pages[1..]| ==> AuthorsCached(st1.cache, pages[1..][i].messages.value)
  {
    forall i | 0 <= i < |pages[1..]|
      ensures Outcome(network, |st1.sent| + i) == Delivered(true, HistoryJson(pages[1..][i]))
    {
      assert Outcome(network, |st.sent| + (i + 1)) == Delivered(true, HistoryJson(pages[i + 1]));
    }
  }

  /** A chain of one page. */
  lemma HistoryFromSinglePage(network: seq<HttpOutcome>, st: ClientState, q: HistoryQuery,
                              cursor: Option<string>, acc: seq<SlackMessage>,
                              pages: seq<ConversationHistoryResponse>)
    requires NetworkWellFormed(network) && AllWellFormed(acc) && CursorChain(pages) && |pages| == 1
    requires Outcome(network, |st.sent|) == Delivered(true, HistoryJson(pages[0]))
    requires AuthorsCached(st.cache, pages[0].messages.value)
    ensures AllWellFormed(acc + ChainMessages(st.cache, pages))
    ensures HistoryFrom(network, st, q, cursor, acc)
      == Step(st.(sent := st.sent + ChainRequests(q, cursor, pages)), Ok(acc + ChainMessages(st.cache, pages)))
  {
    var page := pages[0];
    HistoryFromLastPage(network, st, q, cursor, acc, page);
    ChainSplit(st, q, cursor, acc, pages);
    var st1 := st.(sent := st.sent + [HistoryRequestFor(q, cursor)]);
    var all := acc + NamedFromCache(st.cache, page.messages.value);
    assert pages[1..] == [];
    assert all + ChainMessages(st.cache, []) == all;
    assert st1.(sent := st1.sent + ChainRequests(q, NextCursor(page), [])) == st1;
  }

  /** What the first page of a chain adds, followed by what the rest adds, is what the whole
      chain adds. */
  lemma ChainSplit(st: ClientState, q: HistoryQuery, cursor: Option<string>, acc: seq<SlackMessage>,
                   pages: seq<ConversationHistoryResponse>)
    requires pages != []
    ensures var st1 := st.(sent := st.sent + [HistoryRequestFor(q, cursor)]);
      var all := acc + NamedFromCache(st.cache, pages[0].messages.GetOr([]));
      && all + ChainMessages(st.cache, pages[1..]) == acc + ChainMessages(st.cache, pages)
      && st1.(sent := st1.sent + ChainRequests(q, NextCursor(pages[0]), pages[1..]))
        == st.(sent := st.sent + ChainRequests(q, cursor, pages))
  {
    var named := NamedFromCache(st.cache, pages[0].messages.GetOr([]));
    var rest := pages[1..];
    assert ChainMessages(st.cache, pages) == named + ChainMessages(st.cache, rest);
    assert acc + named + ChainMessages(st.cache, rest) == acc + (named + ChainMessages(st.cache, rest));
    var req := HistoryRequestFor(q, cursor);
    assert ChainRequests(q, cursor, pages) == [req] + ChainRequests(q, NextCursor(pages[0]), rest);
    assert st.sent + [req] + ChainRequests(q, NextCursor(pages[0]), rest) == st.sent + ChainRequests(q, cursor, pages);
  }

  lemma {:induction false} HistoryFromChain(network: seq<HttpOutcome>, st: ClientState, q: HistoryQuery,
                                            cursor: Option<string>, acc: seq<SlackMessage>,
                                            pages: seq<ConversationHistoryResponse>)
    requires NetworkWellFormed(network) && AllWellFormed(acc) && CursorChain(pages)
    requires forall i :: 0 <= i < |pages| ==> Outcome(network, |st.sent| + i) == Delivered(true, HistoryJson(pages[i]))
    requires forall i :: 0 <= i < |pages| ==> AuthorsCached(st.cache, pages[i].messages.value)
    ensures AllWellFormed(acc + ChainMessages(st.cache, pages))
    ensures HistoryFrom(network, st, q, cursor, acc)
      == Step(st.(sent := st.sent + ChainRequests(q, cursor, pages)), Ok(acc + ChainMessages(st.cache, pages)))
    decreases |pages|
  {
    assert Outcome(network, |st.sent| + 0) == Delivered(true, HistoryJson(pages[0]));
    if |pages| == 1 {
      HistoryFromSinglePage(network, st, q, cursor, acc, pages);
    } else {
      var st1 := st.(sent := st.sent + [HistoryRequestFor(q, cursor)]);
      ChainTail(network, st, st1, pages);
      HistoryFromLinkedPage(network, st, q, cursor, acc, pages[0]);
      HistoryFromChain(network, st1, q, NextCursor(pages[0]), acc + NamedFromCache(st.cache, pages[0].messages.value), pages[1..]);
      ChainSplit(st, q, cursor, acc, pages);
    }
  }

  /** Pagination: against a server that answers a chain of pages, the client sends one
      request per page, the first without a cursor and each later one with the cursor the
      previous page named, and returns every message of every page, sorted by time. */
  lemma HistoryFollowsCursors(network: seq<HttpOutcome>, st: ClientState, q: HistoryQuery,
                              pages: seq<ConversationHistoryResponse>)
    requires NetworkWellFormed(network) && CursorChain(pages)
    requires forall i :: 0 <= i < |pages| ==> Outcome(network, |st.sent| + i) == Delivered(true, HistoryJson(pages[i]))
    requires forall i :: 0 <= i < |pages| ==> AuthorsCached(st.cache, pages[i].messages.value)
    ensures var msgs := ChainMessages(st.cache, pages);
      && AllWellFormed(msgs)
      && History(network, st, q) == Step(st.(sent := st.sent + ChainRequests(q, None, pages)), Ok(SortByTime(msgs)))
  {
    HistoryFromChain(network, st, q, None, [], pages);
    assert [] + ChainMessages(st.cache, pages) == ChainMessages(st.cache, pages);
  }

  // ---------------------------------------------------------------------------------------
  // Pagination in general
  // ---------------------------------------------------------------------------------------

  /** The history requests of `rs`, in order: `users.info` and replies requests are dropped. */
  function HistoryRequests(rs: seq<Request>): (h: seq<Request>)
    ensures |h| <= |rs|
  {
    if rs == [] then [] else (if rs[0].HistoryRequest? then [rs[0]] else []) + HistoryRequests(rs[1..])
  }

  lemma {:induction false} HistoryRequestsAppend(a: seq<Request>, b: seq<Request>)
    ensures HistoryRequests(a + b) == HistoryRequests(a) + HistoryRequests(b)
    decreases |a|
  {
    if a == [] {
      assert a + b == b;
    } else {
      var ab := a + b;
      assert ab[0] == a[0] && ab[1..] == a[1..] + b;
      HistoryRequestsAppend(a[1..], b);
    }
  }

  /** Each request of `reqs` sent `attempts[i]` times in a row, as the retry loop sends it. */
  function Retried(reqs: seq<Request>, attempts: seq<nat>): seq<Request>
    requires |attempts| == |reqs|
  {
    if reqs == [] then [] else Repeat(reqs[0], attempts[0]) + Retried(reqs[1..], attempts[1..])
  }

  /** `b` is `a` followed by `users.info` requests only. */
  predicate LookupsAfter(a: seq<Request>, b: seq<Request>) {
    && |a| <= |b| && b[..|a|] == a
    && forall i :: |a| <= i < |b| ==> b[i].UserInfoRequest?
  }

  lemma {:induction false} LookupsHaveNoHistory(rs: seq<Request>)
    requires forall i :: 0 <= i < |rs| ==> rs[i].UserInfoRequest?
    ensures HistoryRequests(rs) == []
    decreases |rs|
  {
    if rs != [] {
      LookupsHaveNoHistory(rs[1..]);
    }
  }

  lemma {:induction false} EnrichSendsLookups(network: seq<HttpOutcome>, st: ClientState, ms: seq<SlackMessage>)
    ensures LookupsAfter(st.sent, Enrich(network, st, ms).state.sent)
    decreases |ms|
  {
    if ms != [] {
      var first := EnrichMessage(network, st, ms[0]);
      if NonEmpty(ms[0].userId) && ms[0].userId.value !in st.cache {
        UserInfoRequests(network, st, ms[0].userId.value);
      }
      assert LookupsAfter(st.sent, first.state.sent);
      if first.result.Ok? {
        EnrichSendsLookups(network, first.state, ms[1..]);
        var last := Enrich(network, first.state, ms[1..]).state.sent;
        assert last[..|st.sent|] == last[..|first.state.sent|][..|st.sent|];
      }
    }
  }

  /** The messages of a run of pages, in page order. */
  function PageMessages(pages: seq<ConversationHistoryResponse>): seq<SlackMessage> {
    if pages == [] then [] else pages[0].messages.GetOr([]) + PageMessages(pages[1..])
  }

  /** The pages the history loop received with messages, in order: every page but the last
      names a next cursor, and the run ends either on a page that names none or, when
      `nullEnd` holds, with one more request (whose answer `FinalAnswer` describes). */
  predicate PageRun(pages: seq<ConversationHistoryResponse>, nullEnd: bool) {
    && (forall i :: 0 <= i < |pages| ==> pages[i].messages.Some?)
    && (forall i :: 0 <= i < |pages| - 1 ==> NonEmpty(NextCursor(pages[i])))
    && (if pages == [] then nullEnd else nullEnd == NonEmpty(NextCursor(pages[|pages| - 1])))
  }

  /** The cursor after a run of pages requested from `cursor`. */
  function LastCursor(cursor: Option<string>, pages: seq<ConversationHistoryResponse>): Option<string> {
    if pages == [] then cursor else NextCursor(pages[|pages| - 1])
  }

  /** The requests of such a run: one per page, plus the final unanswered one. */
  function RunRequests(q: HistoryQuery, cursor: Option<string>, pages: seq<ConversationHistoryResponse>,
                       nullEnd: bool): (rs: seq<Request>)
    ensures |rs| == |pages| + (if nullEnd then 1 else 0)
  {
    ChainRequests(q, cursor, pages) + (if nullEnd then [HistoryRequestFor(q, LastCursor(cursor, pages))] else [])
  }

  /** Request number `k` of `sent` is `req`, and the server answered it with "ok": true and
      the content `page`. */
  predicate AnswerAt(network: seq<HttpOutcome>, sent: seq<Request>, k: nat, req: Request,
                     page: ConversationHistoryResponse) {
    && k < |sent| && sent[k] == req
    && Outcome(network, k).Delivered? && Outcome(network, k).ok && AsHistory(Outcome(network, k).body) == page
  }

  /** Some request of `sent` from number `from` on is `req` and got `page` as its answer. */
  predicate AnsweredIn(network: seq<HttpOutcome>, sent: seq<Request>, from: nat, req: Request,
                       page: ConversationHistoryResponse) {
    exists k :: from <= k < |sent| && AnswerAt(network, sent, k, req, page)
  }

  /** The last of `attempt` copies of `req` sent after `sent` got `body`: its page is the
      answer to `req`, in every later record of the requests. */
  lemma LastAttemptAnswered(network: seq<HttpOutcome>, sent: seq<Request>, req: Request, attempt: nat,
                            body: Json, later: seq<Request>)
    requires 1 <= attempt && |sent| + attempt <= |later| && later[..|sent| + attempt] == sent + Repeat(req, attempt)
    requires Outcome(network, |sent| + attempt - 1) == Delivered(true, body)
    ensures AnsweredIn(network, later, |sent|, req, AsHistory(body))
  {
    var k := |sent| + attempt - 1;
    assert later[k] == (sent + Repeat(req, attempt))[k];
    assert AnswerAt(network, later, k, req, AsHistory(body));
  }

  /** The same, when user lookups went out after the last attempt. */
  lemma LookupsThenAnswered(network: seq<HttpOutcome>, sent: seq<Request>, req: Request, attempt: nat,
                            body: Json, sent2: seq<Request>, later: seq<Request>)
    requires 1 <= attempt && LookupsAfter(sent + Repeat(req, attempt), sent2)
    requires |sent2| <= |later| && later[..|sent2|] == sent2
    requires Outcome(network, |sent| + attempt - 1) == Delivered(true, body)
    ensures |sent| <= |sent2| && AnsweredIn(network, later, |sent|, req, AsHistory(body))
  {
    var a := sent + Repeat(req, attempt);
    assert later[..|a|] == later[..|sent2|][..|a|];
    LastAttemptAnswered(network, sent, req, attempt, body, later);
  }

  /** The last request of `sent` is `req`, and its answer gave no page: null (an `ok: false`
      answer, a third 429) or a body without messages. */
  predicate FinalAnswer(network: seq<HttpOutcome>, sent: seq<Request>, req: Request) {
    && |sent| > 0 && sent[|sent| - 1] == req
    && var o := Outcome(network, |sent| - 1);
       !(o.Delivered? && o.ok && AsHistory(o.body).messages.Some?)
  }

  /** What one page followed by a run of pages amounts to. */
  lemma RunRequestsCons(q: HistoryQuery, cursor: Option<string>, page: ConversationHistoryResponse,
                pages: seq<ConversationHistoryResponse>, nullEnd: bool, attempt: nat, attempts: seq<nat>)
    requires page.messages.Some? && NonEmpty(NextCursor(page)) && PageRun(pages, nullEnd)
    requires |attempts| == |RunRequests(q, NextCursor(page), pages, nullEnd)|
    ensures PageRun([page] + pages, nullEnd)
    ensures PageMessages([page] + pages) == page.messages.value + PageMessages(pages)
    ensures RunRequests(q, cursor, [page] + pages, nullEnd)
      == [HistoryRequestFor(q, cursor)] + RunRequests(q, NextCursor(page), pages, nullEnd)
    ensures Retried(RunRequests(q, cursor, [page] + pages, nullEnd), [attempt] + attempts)
      == Repeat(HistoryRequestFor(q, cursor), attempt) + Retried(RunRequests(q, NextCursor(page), pages, nullEnd), attempts)
  {
    var all := [page] + pages;
    assert all[1..] == pages;
    assert LastCursor(cursor, all) == LastCursor(NextCursor(page), pages);
    var rest := RunRequests(q, NextCursor(page), pages, nullEnd);
    assert ChainRequests(q, cursor, all) == [HistoryRequestFor(q, cursor)] + ChainRequests(q, NextCursor(page), pages);
    assert ([HistoryRequestFor(q, cursor)] + rest)[1..] == rest;
    assert ([attempt] + attempts)[1..] == attempts;
  }

  /** What a run of one request amounts to. */
  lemma RunSingle(q: HistoryQuery, cursor: Option<string>, pages: seq<ConversationHistoryResponse>,
                  nullEnd: bool, attempt: nat)
    requires |pages| + (if nullEnd then 1 else 0) == 1
    ensures RunRequests(q, cursor, pages, nullEnd) == [HistoryRequestFor(q, cursor)]
    ensures Retried([HistoryRequestFor(q, cursor)], [attempt]) == Repeat(HistoryRequestFor(q, cursor), attempt)
    ensures PageMessages(pages) == if nullEnd then [] else pages[0].messages.GetOr([])
  {
    var req := HistoryRequestFor(q, cursor);
    assert Repeat(req, attempt) + [] == Repeat(req, attempt);
    if !nullEnd {
      assert pages[1..] == [];
      assert ChainRequests(q, cursor, pages) == [req] + [];
      assert PageMessages(pages) == pages[0].messages.GetOr([]) + [];
    }
  }

  lemma RepeatedHistory(req: Request, n: nat)
    requires req.HistoryRequest?
    ensures HistoryRequests(Repeat(req, n)) == Repeat(req, n)
  {
    if n > 0 {
      HistoryRequestsAppend(Repeat(req, n - 1), [req]);
    }
  }

  /** The requests after `a` in `a + x + y`, with lookups dropped. */
  lemma SentAfter(a: seq<Request>, x: seq<Request>, b: seq<Request>, c: seq<Request>)
    requires LookupsAfter(a + x, b) && |b| <= |c| && c[..|b|] == b
    ensures |a| <= |c| && c[..|a|] == a
    ensures HistoryRequests(c[|a|..]) == HistoryRequests(x) + HistoryRequests(c[|b|..])
  {
    var ax := a + x;
    var lookups := b[|ax|..];
    var tail := c[|b|..];
    assert b == ax + lookups;
    assert c == b + tail;
    assert c == a + (x + lookups + tail);
    assert c[..|a|] == a && c[|a|..] == x + lookups + tail;
    LookupsHaveNoHistory(lookups);
    HistoryRequestsAppend(x, lookups);
    HistoryRequestsAppend(x + lookups, tail);
    assert HistoryRequests(x) + [] == HistoryRequests(x);
  }

  /** `r` is a normal return of the history loop started with `cursor` on `acc` after the
      requests `sent`, having received `pages`: they form a run linked by cursors; page `i`
      is the server's answer to a request sent after `sent` that is the run's `i`-th; each
      request of the run went out `attempts[i]` times with nothing else sent but user
      lookups; a run that ends on a further request ends on that request, whose answer gave
      no page; and the messages are those of `acc` and then of every page, each with at
      most its display name set: set on every message with an author, kept on the others. */
  predicate LoopRun(network: seq<HttpOutcome>, sent: seq<Request>, q: HistoryQuery, cursor: Option<string>,
                    acc: seq<SlackMessage>, r: Step<seq<SlackMessage>>,
                    pages: seq<ConversationHistoryResponse>, nullEnd: bool, attempts: seq<nat>)
  {
    && r.result.Ok?
    && PageRun(pages, nullEnd)
    && (forall i :: 0 <= i < |pages| ==>
          AnsweredIn(network, r.state.sent, |sent|, RunRequests(q, cursor, pages, nullEnd)[i], pages[i]))
    && |attempts| == |RunRequests(q, cursor, pages, nullEnd)|
    && (forall i :: 0 <= i < |attempts| ==> 1 <= attempts[i] <= MaxRetries)
    && |sent| <= |r.state.sent| && r.state.sent[..|sent|] == sent
    && HistoryRequests(r.state.sent[|sent|..]) == Retried(RunRequests(q, cursor, pages, nullEnd), attempts)
    && (nullEnd ==> FinalAnswer(network, r.state.sent, RunRequests(q, cursor, pages, nullEnd)[|pages|]))
    && UnnamedAll(r.result.value) == UnnamedAll(acc) + UnnamedAll(PageMessages(pages))
    && |acc| <= |r.result.value| && r.result.value[..|acc|] == acc
    && NamedFrom(PageMessages(pages), r.result.value[|acc|..])
  }

  /** One pass of the loop, as `HistoryFrom` takes it. */
  lemma HistoryFromPass(network: seq<HttpOutcome>, st: ClientState, q: HistoryQuery,
                        cursor: Option<string>, acc: seq<SlackMessage>)
    requires NetworkWellFormed(network) && AllWellFormed(acc)
    ensures var s := Send(network, st, HistoryRequestFor(q, cursor));
      var r := HistoryFrom(network, st, q, cursor, acc);
      r.result.Ok? ==>
        if s.fetch.Fetched? && AsHistory(s.fetch.body).messages.Some? then
          var page := AsHistory(s.fetch.body);
          var e := Enrich(network, s.state, page.messages.value);
          && e.result.Ok? && AllWellFormed(page.messages.value)
          && Delivered(true, s.fetch.body) in network
          && if NonEmpty(NextCursor(page))
             then |st.sent| < |e.state.sent| <= |network|
               && AllWellFormed(acc + e.result.value)
               && r == HistoryFrom(network, e.state, q, NextCursor(page), acc + e.result.value)
             else r == Step(e.state, Ok(acc + e.result.value))
        else !s.fetch.Thrown? && r == Step(s.state, Ok(acc))
  {
    var req := HistoryRequestFor(q, cursor);
    var s := Send(network, st, req);
    SendFetchedDelivered(network, st, req);
    if s.fetch.Fetched? && AsHistory(s.fetch.body).messages.Some? {
      var page := AsHistory(s.fetch.body);
      PageWellFormed(network, s.fetch.body);
      SendProgress(network, st, req);
      EnrichProgress(network, s.state, page.messages.value);
    }
  }

  /** A pass that gets no page ends the run. */
  lemma RunOfNoPage(network: seq<HttpOutcome>, st: ClientState, q: HistoryQuery, cursor: Option<string>,
                    acc: seq<SlackMessage>, s: Sent, r: Step<seq<SlackMessage>>)
    requires s == Send(network, st, HistoryRequestFor(q, cursor)) && r == Step(s.state, Ok(acc))
    requires !s.fetch.Thrown? && !(s.fetch.Fetched? && AsHistory(s.fetch.body).messages.Some?)
    ensures LoopRun(network, st.sent, q, cursor, acc, r, [], true, [Retry(network, |st.sent|).attempts])
  {
    RetryAttempts(network, |st.sent|);
    NoPageFinal(network, st, HistoryRequestFor(q, cursor));
    RunOfNone(network, st.sent, q, cursor, acc, Retry(network, |st.sent|).attempts, r);
  }

  /** A request sent `attempt` times after `sent`, whose last answer gave no page, ends a
      run of no pages. */
  lemma RunOfNone(network: seq<HttpOutcome>, sent: seq<Request>, q: HistoryQuery, cursor: Option<string>,
                  acc: seq<SlackMessage>, attempt: nat, r: Step<seq<SlackMessage>>)
    requires 1 <= attempt <= MaxRetries
    requires r.state.sent == sent + Repeat(HistoryRequestFor(q, cursor), attempt) && r.result == Ok(acc)
    requires FinalAnswer(network, r.state.sent, HistoryRequestFor(q, cursor))
    ensures LoopRun(network, sent, q, cursor, acc, r, [], true, [attempt])
  {
    var req := HistoryRequestFor(q, cursor);
    RepeatedHistory(req, attempt);
    RunSingle(q, cursor, [], true, attempt);
    assert r.state.sent[|sent|..] == Repeat(req, attempt);
    assert UnnamedAll(acc) + UnnamedAll([]) == UnnamedAll(acc);
    assert acc[|acc|..] == [];
  }

  /** A call that neither throws nor gets a page ends on its own request, answered without one. */
  lemma NoPageFinal(network: seq<HttpOutcome>, st: ClientState, req: Request)
    requires var s := Send(network, st, req);
      !s.fetch.Thrown? && !(s.fetch.Fetched? && AsHistory(s.fetch.body).messages.Some?)
    ensures FinalAnswer(network, Send(network, st, req).state.sent, req)
  {
    SendLast(network, st, req);
  }

  /** A page that names no next cursor, requested `attempt` times after `sent` and then named
      by lookups ending the run, is a run of its own. */
  lemma RunOfOne(network: seq<HttpOutcome>, sent: seq<Request>, q: HistoryQuery, cursor: Option<string>,
                 acc: seq<SlackMessage>, body: Json, page: ConversationHistoryResponse, attempt: nat,
                 named: seq<SlackMessage>, r: Step<seq<SlackMessage>>)
    requires 1 <= attempt <= MaxRetries
    requires LookupsAfter(sent + Repeat(HistoryRequestFor(q, cursor), attempt), r.state.sent)
    requires Outcome(network, |sent| + attempt - 1) == Delivered(true, body) && page == AsHistory(body)
    requires page.messages.Some? && !NonEmpty(NextCursor(page))
    requires UnnamedAll(named) == UnnamedAll(page.messages.value)
    requires NamedFrom(page.messages.value, named)
    requires r.result == Ok(acc + named)
    ensures LoopRun(network, sent, q, cursor, acc, r, [page], false, [attempt])
  {
    assert PageMessages([page]) == page.messages.value + PageMessages([]);
    assert (acc + named)[..|acc|] == acc && (acc + named)[|acc|..] == named;
    var req := HistoryRequestFor(q, cursor);
    RunSingle(q, cursor, [page], false, attempt);
    UnnamedConcat(acc, named);
    RequestsOfLastCall(sent, req, attempt, r.state.sent);
    LastAttemptAnswered(network, sent, req, attempt, body, r.state.sent);
    SingleAnswered(network, r.state.sent, |sent|, RunRequests(q, cursor, [page], false), req, page);
  }

  lemma SingleAnswered(network: seq<HttpOutcome>, later: seq<Request>, from: nat, reqs: seq<Request>,
                       req: Request, page: ConversationHistoryResponse)
    requires reqs == [req] && AnsweredIn(network, later, from, req, page)
    ensures forall i :: 0 <= i < |[page]| ==> AnsweredIn(network, later, from, reqs[i], [page][i])
  {
    assert [page][0] == page;
  }

  /** A history request sent `attempt` times after `sent` and then only user lookups. */
  lemma RequestsOfLastCall(sent: seq<Request>, req: Request, attempt: nat, later: seq<Request>)
    requires req.HistoryRequest? && LookupsAfter(sent + Repeat(req, attempt), later)
    ensures |sent| <= |later| && later[..|sent|] == sent
    ensures HistoryRequests(later[|sent|..]) == Repeat(req, attempt)
  {
    RepeatedHistory(req, attempt);
    SentAfter(sent, Repeat(req, attempt), later, later);
    assert later[|later|..] == [];
    assert HistoryRequests(Repeat(req, attempt)) + [] == Repeat(req, attempt);
  }

  /** A page that names no next cursor ends the run. */
  lemma RunOfLastPage(network: seq<HttpOutcome>, st: ClientState, q: HistoryQuery, cursor: Option<string>,
                      acc: seq<SlackMessage>, s: Sent, page: ConversationHistoryResponse,
                      e: Step<seq<SlackMessage>>, r: Step<seq<SlackMessage>>)
    requires s == Send(network, st, HistoryRequestFor(q, cursor))
    requires s.fetch.Fetched? && page == AsHistory(s.fetch.body)
    requires page.messages.Some? && !NonEmpty(NextCursor(page))
    requires e == Enrich(network, s.state, page.messages.value) && e.result.Ok?
    requires r == Step(e.state, Ok(acc + e.result.value))
    ensures LoopRun(network, st.sent, q, cursor, acc, r, [page], false, [Retry(network, |st.sent|).attempts])
  {
    RetryAttempts(network, |st.sent|);
    SendLast(network, st, HistoryRequestFor(q, cursor));
    EnrichSendsLookups(network, s.state, page.messages.value);
    EnrichedUnnamed(page.messages.value, e.result.value);
    assert NamedFrom(page.messages.value, e.result.value);
    RunOfOne(network, st.sent, q, cursor, acc, s.fetch.body, page, Retry(network, |st.sent|).attempts, e.result.value, r);
  }

  /** A page that names a next cursor, requested `attempt` times after `sent` and then named
      by lookups ending at `sent2`, followed by the run from that cursor, is a run. */
  lemma RunCons(network: seq<HttpOutcome>, sent: seq<Request>, q: HistoryQuery, cursor: Option<string>,
                acc: seq<SlackMessage>, body: Json, page: ConversationHistoryResponse, attempt: nat,
                named: seq<SlackMessage>, sent2: seq<Request>, r: Step<seq<SlackMessage>>,
                rest: seq<ConversationHistoryResponse>, restNull: bool, restAttempts: seq<nat>)
    requires 1 <= attempt <= MaxRetries
    requires LookupsAfter(sent + Repeat(HistoryRequestFor(q, cursor), attempt), sent2)
    requires Outcome(network, |sent| + attempt - 1) == Delivered(true, body) && page == AsHistory(body)
    requires page.messages.Some? && NonEmpty(NextCursor(page))
    requires UnnamedAll(named) == UnnamedAll(page.messages.value)
    requires NamedFrom(page.messages.value, named)
    requires LoopRun(network, sent2, q, NextCursor(page), acc + named, r, rest, restNull, restAttempts)
    ensures LoopRun(network, sent, q, cursor, acc, r, [page] + rest, restNull, [attempt] + restAttempts)
  {
    var req := HistoryRequestFor(q, cursor);
    RepeatedHistory(req, attempt);
    RunRequestsCons(q, cursor, page, rest, restNull, attempt, restAttempts);
    SentAfter(sent, Repeat(req, attempt), sent2, r.state.sent);
    UnnamedCons(acc, named, page.messages.value, PageMessages(rest));
    NamedCons(acc, named, page.messages.value, PageMessages(rest), r.result.value);
    if restNull {
      ConsFinal(RunRequests(q, cursor, [page] + rest, restNull), req, RunRequests(q, NextCursor(page), rest, restNull), |rest|);
    }
    LookupsThenAnswered(network, sent, req, attempt, body, sent2, r.state.sent);
    ConsAnswered(network, r.state.sent, |sent|, |sent2|, req, RunRequests(q, NextCursor(page), rest, restNull),
                 page, rest, attempt, restAttempts);
  }

  lemma ConsFinal(reqs: seq<Request>, req: Request, restReqs: seq<Request>, n: nat)
    requires reqs == [req] + restReqs && n < |restReqs|
    ensures reqs[n + 1] == restReqs[n]
  {
  }

  lemma ConsAnswered(network: seq<HttpOutcome>, later: seq<Request>, from: nat, from2: nat,
                     req: Request, restReqs: seq<Request>,
                     page: ConversationHistoryResponse, rest: seq<ConversationHistoryResponse>,
                     attempt: nat, restAttempts: seq<nat>)
    requires from <= from2 && |rest| <= |restReqs|
    requires AnsweredIn(network, later, from, req, page)
    requires forall i :: 0 <= i < |rest| ==> AnsweredIn(network, later, from2, restReqs[i], rest[i])
    requires 1 <= attempt <= MaxRetries && forall i :: 0 <= i < |restAttempts| ==> 1 <= restAttempts[i] <= MaxRetries
    ensures forall i :: 0 <= i < |[page] + rest| ==>
      AnsweredIn(network, later, from, ([req] + restReqs)[i], ([page] + rest)[i])
    ensures forall i :: 0 <= i < |[attempt] + restAttempts| ==> 1 <= ([attempt] + restAttempts)[i] <= MaxRetries
  {
    var pages := [page] + rest;
    var reqs := [req] + restReqs;
    assert forall i :: 0 < i < |pages| ==> pages[i] == rest[i - 1] && reqs[i] == restReqs[i - 1];
    var attempts := [attempt] + restAttempts;
    assert forall i :: 0 < i < |attempts| ==> attempts[i] == restAttempts[i - 1];
  }

  lemma UnnamedCons(acc: seq<SlackMessage>, named: seq<SlackMessage>, msgs: seq<SlackMessage>, later: seq<SlackMessage>)
    requires UnnamedAll(named) == UnnamedAll(msgs)
    ensures UnnamedAll(acc + named) + UnnamedAll(later) == UnnamedAll(acc) + UnnamedAll(msgs + later)
  {
    UnnamedConcat(acc, named);
    UnnamedConcat(msgs, later);
    AppendAssoc(UnnamedAll(acc), UnnamedAll(named), UnnamedAll(later));
  }

  lemma NamedCons(acc: seq<SlackMessage>, named: seq<SlackMessage>, msgs: seq<SlackMessage>,
                  later: seq<SlackMessage>, x: seq<SlackMessage>)
    requires |acc + named| <= |x| && x[..|acc + named|] == acc + named
    requires NamedFrom(msgs, named) && NamedFrom(later, x[|acc + named|..])
    ensures |acc| <= |x| && x[..|acc|] == acc && NamedFrom(msgs + later, x[|acc|..])
  {
    var tail := x[|acc + named|..];
    assert x == acc + named + tail;
    assert x[|acc|..] == named + tail;
  }

  lemma AppendAssoc<T>(a: seq<T>, b: seq<T>, c: seq<T>)
    ensures a + b + c == a + (b + c)
  {
  }

  /** A page that names a next cursor is followed by the run from that cursor. */
  lemma RunOfLinkedPage(network: seq<HttpOutcome>, st: ClientState, q: HistoryQuery, cursor: Option<string>,
                        acc: seq<SlackMessage>, s: Sent, page: ConversationHistoryResponse,
                        e: Step<seq<SlackMessage>>, r: Step<seq<SlackMessage>>,
                        rest: seq<ConversationHistoryResponse>, restNull: bool, restAttempts: seq<nat>)
    requires s == Send(network, st, HistoryRequestFor(q, cursor))
    requires s.fetch.Fetched? && page == AsHistory(s.fetch.body)
    requires page.messages.Some? && NonEmpty(NextCursor(page))
    requires e == Enrich(network, s.state, page.messages.value) && e.result.Ok?
    requires LoopRun(network, e.state.sent, q, NextCursor(page), acc + e.result.value, r, rest, restNull, restAttempts)
    ensures LoopRun(network, st.sent, q, cursor, acc, r, [page] + rest, restNull,
                    [Retry(network, |st.sent|).attempts] + restAttempts)
  {
    var attempt := Retry(network, |st.sent|).attempts;
    RetryAttempts(network, |st.sent|);
    SendLast(network, st, HistoryRequestFor(q, cursor));
    EnrichSendsLookups(network, s.state, page.messages.value);
    EnrichedUnnamed(page.messages.value, e.result.value);
    assert NamedFrom(page.messages.value, e.result.value);
    RunCons(network, st.sent, q, cursor, acc, s.fetch.body, page, attempt, e.result.value, e.state.sent, r,
            rest, restNull, restAttempts);
  }

  /** The history loop in general, for any script: every normal return is a `LoopRun`. */
  lemma {:induction false} HistoryFromRun(network: seq<HttpOutcome>, st: ClientState, q: HistoryQuery,
                                          cursor: Option<string>, acc: seq<SlackMessage>)
    returns (pages: seq<ConversationHistoryResponse>, nullEnd: bool, attempts: seq<nat>)
    requires NetworkWellFormed(network) && AllWellFormed(acc)
    ensures var r := HistoryFrom(network, st, q, cursor, acc);
      r.result.Ok? ==> LoopRun(network, st.sent, q, cursor, acc, r, pages, nullEnd, attempts)
    decreases |network| - |st.sent|
  {
    var s := Send(network, st, HistoryRequestFor(q, cursor));
    var r := HistoryFrom(network, st, q, cursor, acc);
    var attempt := Retry(network, |st.sent|).attempts;
    pages, nullEnd, attempts := [], true, [attempt];
    HistoryFromPass(network, st, q, cursor, acc);
    if !r.result.Ok? {
    } else if s.fetch.Fetched? && AsHistory(s.fetch.body).messages.Some? {
      var page := AsHistory(s.fetch.body);
      var e := Enrich(network, s.state, page.messages.value);
      if NonEmpty(NextCursor(page)) {
        var rest, restNull, restAttempts := HistoryFromRun(network, e.state, q, NextCursor(page), acc + e.result.value);
        RunOfLinkedPage(network, st, q, cursor, acc, s, page, e, r, rest, restNull, restAttempts);
        pages, nullEnd, attempts := [page] + rest, restNull, [attempt] + restAttempts;
      } else {
        RunOfLastPage(network, st, q, cursor, acc, s, page, e, r);
        pages, nullEnd := [page], false;
      }
    } else {
      RunOfNoPage(network, st, q, cursor, acc, s, r);
    }
  }

  lemma {:induction false} AnsweredWellFormed(network: seq<HttpOutcome>, sent: seq<Request>, from: nat,
                                              reqs: seq<Request>, pages: seq<ConversationHistoryResponse>)
    requires NetworkWellFormed(network) && |pages| <= |reqs|
    requires forall i :: 0 <= i < |pages| ==> AnsweredIn(network, sent, from, reqs[i], pages[i]) && pages[i].messages.Some?
    ensures AllWellFormed(PageMessages(pages))
    decreases |pages|
  {
    if pages != [] {
      var k :| from <= k < |sent| && AnswerAt(network, sent, k, reqs[0], pages[0]);
      PageWellFormed(network, Outcome(network, k).body);
      AnsweredWellFormed(network, sent, from, reqs[1..], pages[1..]);
    }
  }

  /** Pagination, for any script: when the history call succeeds, the pages it received form
      a run linked by cursors that starts without one, and page `i` is the server's answer
      to a request of this call that is the run's `i`-th; the history requests sent are that
      run's, each one to three times, with nothing else sent but user lookups; the loop
      stopped either on a page without a next cursor or on a last request whose answer gave
      no page; the result, display names cleared, is every message of every page, in a
      stable order by time; every message with an author has a display name, and every
      message without one is a page's message unchanged. */
  lemma HistoryPagination(network: seq<HttpOutcome>, st: ClientState, q: HistoryQuery)
    requires NetworkWellFormed(network)
    ensures var r := History(network, st, q);
      r.result.Ok? ==> exists pages, nullEnd, attempts ::
        && PageRun(pages, nullEnd)
        && (forall i :: 0 <= i < |pages| ==>
              AnsweredIn(network, r.state.sent, |st.sent|, RunRequests(q, None, pages, nullEnd)[i], pages[i]))
        && |attempts| == |RunRequests(q, None, pages, nullEnd)|
        && (forall i :: 0 <= i < |attempts| ==> 1 <= attempts[i] <= MaxRetries)
        && |st.sent| <= |r.state.sent| && r.state.sent[..|st.sent|] == st.sent
        && HistoryRequests(r.state.sent[|st.sent|..]) == Retried(RunRequests(q, None, pages, nullEnd), attempts)
        && (nullEnd ==> FinalAnswer(network, r.state.sent, RunRequests(q, None, pages, nullEnd)[|pages|]))
        && AllWellFormed(PageMessages(pages))
        && UnnamedAll(r.result.value) == SortByTime(UnnamedAll(PageMessages(pages)))
        && AuthorsNamed(r.result.value)
        && UnauthoredFrom(r.result.value, PageMessages(pages))
  {
    var r := History(network, st, q);
    var raw := HistoryFrom(network, st, q, None, []);
    var pages, nullEnd, attempts := HistoryFromRun(network, st, q, None, []);
    if r.result.Ok? {
      assert LoopRun(network, st.sent, q, None, [], raw, pages, nullEnd, attempts);
      AnsweredWellFormed(network, r.state.sent, |st.sent|, RunRequests(q, None, pages, nullEnd), pages);
      assert UnnamedAll(raw.result.value) == UnnamedAll(PageMessages(pages));
      SortByTimeUnnamed(raw.result.value);
      assert raw.result.value[0..] == raw.result.value;
      NamedFromUnnamed(PageMessages(pages), raw.result.value);
      AuthorsNamedPermutation(raw.result.value, r.result.value);
      UnauthoredPermutation(raw.result.value, r.result.value, PageMessages(pages));
    }
  }

  // ---------------------------------------------------------------------------------------
  // Loop invariants of the client's methods
  // ---------------------------------------------------------------------------------------

  /** A retry run resumed after `done` attempts that have waited `waited` so far. */
  function Resume(done: nat, waited: seq<nat>, rest: RetryRun): RetryRun {
    RetryRun(rest.fetch, done + rest.attempts, waited + rest.waits)
  }

  lemma ResumeAfterRateLimit(network: seq<HttpOutcome>, start: nat, retry: nat, delay: nat, waited: seq<nat>, after: Option<nat>)
    requires retry < MaxRetries && Outcome(network, start + retry) == TooManyRequests(after)
    ensures Resume(retry, waited, RetryFrom(network, start, retry, delay))
      == Resume(retry + 1, waited + [after.GetOr(DefaultRetryAfter)], RetryFrom(network, start, retry + 1, delay))
  {
    var rest := RetryFrom(network, start, retry + 1, delay);
    assert waited + ([after.GetOr(DefaultRetryAfter)] + rest.waits) == waited + [after.GetOr(DefaultRetryAfter)] + rest.waits;
  }

  lemma ResumeAfterTransportFailure(network: seq<HttpOutcome>, start: nat, retry: nat, delay: nat, waited: seq<nat>)
    requires retry < MaxRetries - 1 && Outcome(network, start + retry) == TransportFailure
    ensures Resume(retry, waited, RetryFrom(network, start, retry, delay))
      == Resume(retry + 1, waited + [delay], RetryFrom(network, start, retry + 1, 2 * delay))
  {
    var rest := RetryFrom(network, start, retry + 1, 2 * delay);
    assert waited + ([delay] + rest.waits) == waited + [delay] + rest.waits;
  }

  /** The last attempt of a run: the run ends with `fetch` after `done + 1` attempts. */
  lemma ResumeFinal(network: seq<HttpOutcome>, start: nat, retry: nat, delay: nat, waited: seq<nat>, fetch: Fetch)
    requires retry < MaxRetries
    requires RetryFrom(network, start, retry, delay) == RetryRun(fetch, 1, [])
    ensures Resume(retry, waited, RetryFrom(network, start, retry, delay)) == RetryRun(fetch, retry + 1, waited)
  {
    assert waited + [] == waited;
  }

  /** A call whose run is known. */
  lemma SendOfRun(network: seq<HttpOutcome>, st: ClientState, req: Request, run: RetryRun)
    requires Retry(network, |st.sent|) == run
    ensures Send(network, st, req)
      == Sent(st.(sent := st.sent + Repeat(req, run.attempts), waits := st.waits + run.waits), run.fetch)
  {
  }

  /** A call whose attempt number `retry` is its last, ending with `fetch`. */
  lemma SendOfFinal(network: seq<HttpOutcome>, st: ClientState, req: Request, retry: nat, delay: nat,
                    waited: seq<nat>, fetch: Fetch)
    requires retry < MaxRetries
    requires Retry(network, |st.sent|) == Resume(retry, waited, RetryFrom(network, |st.sent|, retry, delay))
    requires RetryFrom(network, |st.sent|, retry, delay) == RetryRun(fetch, 1, [])
    ensures Send(network, st, req)
      == Sent(st.(sent := st.sent + Repeat(req, retry + 1), waits := st.waits + waited), fetch)
  {
    ResumeFinal(network, |st.sent|, retry, delay, waited, fetch);
    SendOfRun(network, st, req, RetryRun(fetch, retry + 1, waited));
  }

  lemma RepeatOnceMore(sent: seq<Request>, req: Request, n: nat)
    ensures sent + Repeat(req, n) + [req] == sent + Repeat(req, n + 1)
  {
  }

  /** Messages already enriched, put in front of the rest of the loop's result. */
  function Prepend(done: seq<SlackMessage>, r: Step<seq<SlackMessage>>): Step<seq<SlackMessage>> {
    match r.result
    case Ok(v) => Step(r.state, Ok(done + v))
    case Failed(_) => r
  }

  lemma PrependNothing(r: Step<seq<SlackMessage>>)
    ensures Prepend([], r) == r
  {
    if r.result.Ok? {
      assert [] + r.result.value == r.result.value;
    }
  }

  lemma PrependTwice(a: seq<SlackMessage>, b: seq<SlackMessage>, r: Step<seq<SlackMessage>>)
    ensures Prepend(a, Prepend(b, r)) == Prepend(a + b, r)
  {
    if r.result.Ok? {
      assert a + (b + r.result.value) == a + b + r.result.value;
    }
  }

  lemma EnrichUnfold(network: seq<HttpOutcome>, st: ClientState, ms: seq<SlackMessage>)
    requires ms != []
    ensures var first := EnrichMessage(network, st, ms[0]);
      Enrich(network, st, ms) ==
        if first.result.Failed? then Step(first.state, Failed(first.result.error))
        else Prepend([first.result.value], Enrich(network, first.state, ms[1..]))
  {
  }

  // ---------------------------------------------------------------------------------------
  // The client
  // ---------------------------------------------------------------------------------------

  class SlackClient {
    /** The scripted server behind `_httpClient`. */
    const network: seq<HttpOutcome>
    /** `_userCache`. */
    var userCache: map<string, SlackUser>
    /** Every request sent so far, in order. */
    var sent: seq<Request>
    /** Every delay awaited so far, in seconds, in order. */
    var waits: seq<nat>

    function State(): ClientState
      reads this
    {
      ClientState(userCache, sent, waits)
    }

    constructor (network: seq<HttpOutcome>)
      ensures this.network == network && State() == ClientState(map[], [], [])
    {
      this.network := network;
      userCache := map[];
      sent := [];
      waits := [];
    }

    /** `_httpClient.GetAsync(url)`: one request, answered by the script. */
    method Get(req: Request) returns (outcome: HttpOutcome)
      modifies this
      ensures outcome == Outcome(network, |old(sent)|)
      ensures sent == old(sent) + [req] && userCache == old(userCache) && waits == old(waits)
    {
      outcome := Outcome(network, |sent|);
      sent := sent + [req];
    }

    /** `Task.Delay(seconds)`. */
    method Delay(seconds: nat)
      modifies this
      ensures waits == old(waits) + [seconds] && sent == old(sent) && userCache == old(userCache)
    {
      waits := waits + [seconds];
    }

    /** `GetWithRetryAsync(url)`. */
    method GetWithRetry(req: Request) returns (fetch: Fetch)
      modifies this
      ensures Sent(State(), fetch) == Send(network, old(State()), req)
    {
      ghost var start := |sent|;
      ghost var initial := State();
      ghost var waited: seq<nat> := [];
      var delay: nat := InitialBackoff;
      for retry := 0 to MaxRetries
        invariant sent == initial.sent + Repeat(req, retry) && waits == initial.waits + waited
        invariant userCache == initial.cache
        invariant Retry(network, start) == Resume(retry, waited, RetryFrom(network, start, retry, delay))
      {
        var outcome := Get(req);
        RepeatOnceMore(initial.sent, req, retry);
        match outcome
        case TooManyRequests(after) =>
          var wait := after.GetOr(DefaultRetryAfter);
          Delay(wait);
          ResumeAfterRateLimit(network, start, retry, delay, waited, after);
          waited := waited + [wait];
          continue;
        case TransportFailure =>
          if retry == MaxRetries - 1 {
            SendOfFinal(network, initial, req, retry, delay, waited, Thrown);
            return Thrown;
          }
          Delay(delay);
          ResumeAfterTransportFailure(network, start, retry, delay, waited);
          waited := waited + [delay];
          delay := 2 * delay;
        case Delivered(ok, body) =>
          fetch := if ok then Fetched(body) else NoResult;
          SendOfFinal(network, initial, req, retry, delay, waited, fetch);
          return;
      }
      assert waited + [] == waited;
      SendOfRun(network, initial, req, RetryRun(NoResult, MaxRetries, waited));
      return NoResult;
    }

    /** `GetUserInfoAsync(userId)`. */
    method GetUserInfo(userId: string) returns (user: Result<Option<SlackUser>>)
      modifies this
      ensures Step(State(), user) == UserInfo(network, old(State()), userId)
    {
      if userId in userCache {
        return Ok(Some(userCache[userId]));
      }
      var fetch := GetWithRetry(UserInfoRequest(userId));
      match fetch
      case Thrown => return Failed(HttpRequestFailed);
      case NoResult => return Ok(None);
      case Fetched(body) =>
        var found := AsUserInfo(body).user;
        if found.Some? {
          userCache := userCache[userId := found.value];
          return Ok(found);
        }
        return Ok(None);
    }

    /** `GetUserDisplayNameAsync(userId)`. */
    method GetUserDisplayName(userId: string) returns (name: Result<string>)
      modifies this
      ensures Step(State(), name) == DisplayName(network, old(State()), userId)
    {
      var user := GetUserInfo(userId);
      match user
      case Failed(e) => return Failed(e);
      case Ok(u) => return Ok(DisplayNameOf(u, userId));
    }

    /** The `foreach` that sets `UserDisplayName` on each message of a page that has an author. */
    method EnrichMessages(ms: seq<SlackMessage>) returns (named: Result<seq<SlackMessage>>)
      modifies this
      ensures Step(State(), named) == Enrich(network, old(State()), ms)
    {
      var done: seq<SlackMessage> := [];
      assert ms[0..] == ms;
      PrependNothing(Enrich(network, State(), ms));
      for i := 0 to |ms|
        invariant Enrich(network, old(State()), ms) == Prepend(done, Enrich(network, State(), ms[i..]))
      {
        ghost var before := State();
        assert ms[i..][1..] == ms[i + 1..];
        EnrichUnfold(network, before, ms[i..]);
        var m := ms[i];
        if NonEmpty(m.userId) {
          var name := GetUserDisplayName(m.userId.value);
          if name.Failed? {
            return Failed(name.error);
          }
          m := m.(userDisplayName := Some(name.value));
        }
        PrependTwice(done, [m], Enrich(network, State(), ms[i + 1..]));
        done := done + [m];
      }
      assert ms[|ms|..] == [];
      assert done + [] == done;
      return Ok(done);
    }

    /** `GetChannelHistoryAsync(channel, from, to)`, with the window given in Unix seconds. */
    method GetChannelHistory(channel: string, oldest: Option<int>, latest: Option<int>)
      returns (messages: Result<seq<SlackMessage>>)
      requires NetworkWellFormed(network)
      modifies this
      ensures Step(State(), messages) == History(network, old(State()), HistoryQuery(channel, oldest, latest))
    {
      var q := HistoryQuery(channel, oldest, latest);
      var collected: seq<SlackMessage> := [];
      var cursor: Option<string> := None;
      while true
        invariant AllWellFormed(collected)
        invariant HistoryFrom(network, old(State()), q, None, []) == HistoryFrom(network, State(), q, cursor, collected)
        decreases |network| - |sent|
      {
        ghost var before := State();
        var req := HistoryRequestFor(q, cursor);
        var fetch := GetWithRetry(req);
        if fetch.Thrown? {
          return Failed(HttpRequestFailed);
        }
        if fetch.NoResult? || AsHistory(fetch.body).messages.None? {
          break;
        }
        var page := AsHistory(fetch.body);
        ghost var afterSend := State();
        var named := EnrichMessages(page.messages.value);
        if named.Failed? {
          return Failed(named.error);
        }
        SendFetchedDelivered(network, before, req);
        PageWellFormed(network, fetch.body);
        assert forall k :: 0 <= k < |named.value| ==> named.value[k].ts == page.messages.value[k].ts;
        collected := collected + named.value;
        cursor := NextCursor(page);
        if !NonEmpty(cursor) {
          break;
        }
        SendProgress(network, before, req);
        EnrichProgress(network, afterSend, page.messages.value);
      }
      return Ok(SortByTime(collected));
    }

    /** `GetThreadRepliesAsync(channel, threadTs)`. */
    method GetThreadReplies(channel: string, threadTs: string) returns (replies: Result<seq<SlackMessage>>)
      requires NetworkWellFormed(network)
      modifies this
      ensures Step(State(), replies) == Replies(network, old(State()), channel, threadTs)
    {
      ghost var before := State();
      var fetch := GetWithRetry(RepliesRequest(channel, threadTs));
      if fetch.Thrown? {
        return Failed(HttpRequestFailed);
      }
      if fetch.NoResult? || AsHistory(fetch.body).messages.None? {
        return Ok([]);
      }
      var page := AsHistory(fetch.body);
      var named := EnrichMessages(page.messages.value);
      if named.Failed? {
        return Failed(named.error);
      }
      SendFetchedDelivered(network, before, RepliesRequest(channel, threadTs));
      PageWellFormed(network, fetch.body);
      assert forall k :: 0 <= k < |named.value| ==> named.value[k].ts == page.messages.value[k].ts;
      return Ok(SortByTime(named.value));
    }
  }
}
