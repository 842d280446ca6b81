/** Fetching the dining history (`fetchTransactions` in `src/hooks/useTransactions.ts`): obtain a
    session, retrieve one fixed window of transactions, and on any failure refresh the session
    once and retry once. */
module Transactions {
  import opened Wrappers
  import opened Types
  import opened Storage
  import opened Api
  import opened Normalize
  import opened Auth
  import opened RequestCounts

  const OldestDate: string := "2025-08-22T00:00:00.000Z"
  const NewestDate: string := "2025-12-12T23:59:59.999Z"
  const MaxReturnMostRecent: int := 100

  /** What the fetch resolves to. */
  datatype Fetched = Fetched(totalCount: int, transactions: seq<Transaction>)

  /** The hook's steps, with what each produced. */
  datatype Step =
    | EnsureStep(session: Result<string, string>)
    | RetrieveStep(sessionId: string, reply: Reply<TransactionPage>)
    | RefreshStep(session: Result<string, string>)
    | SetSessionStep(sessionId: string)

  /** The count is that of the normalised list, not the platform's `totalCount`. */
  function FetchedOf(page: TransactionPage): Fetched
  {
    var normalized := Normalized(page.transactions);
    Fetched(|normalized|, normalized)
  }

  /** The sequences of steps the hook can take: ensure a session; retrieve with it; only if
      that throws, refresh; only if the refresh succeeds, retrieve with the new session; only if
      that succeeds, save the new session. */
  predicate RetryPolicy(steps: seq<Step>)
  {
    && |steps| >= 1 && steps[0].EnsureStep?
    && (steps[0].session.Err? ==> |steps| == 1)
    && (steps[0].session.Ok? ==>
          && |steps| >= 2 && steps[1].RetrieveStep? && steps[1].sessionId == steps[0].session.value
          && (steps[1].reply.Value? ==> |steps| == 2)
          && (steps[1].reply.Thrown? ==>
                && |steps| >= 3 && steps[2].RefreshStep?
                && (steps[2].session.Err? ==> |steps| == 3)
                && (steps[2].session.Ok? ==>
                      && |steps| >= 4 && steps[3].RetrieveStep? && steps[3].sessionId == steps[2].session.value
                      && (steps[3].reply.Thrown? ==> |steps| == 4)
                      && (steps[3].reply.Value? ==>
                            |steps| == 5 && steps[4] == SetSessionStep(steps[2].session.value)))))
  }

  /** The result a run of steps leads to: the error of the step that failed, or the normalised
      page of the retrieval that succeeded. */
  function Outcome(steps: seq<Step>): Result<Fetched, string>
    requires RetryPolicy(steps)
  {
    var last := steps[|steps| - 1];
    match last
    case EnsureStep(session) => Err(session.error)
    case RefreshStep(session) => Err(session.error)
    case RetrieveStep(_, reply) =>
      (match reply
       case Value(page) => Ok(FetchedOf(page))
       case Thrown(m) => Err(m))
    case SetSessionStep(_) => Ok(FetchedOf(steps[3].reply.value))
  }

  /** The request a retrieval step sends. */
  function WindowRequest(sessionId: string): Call
  {
    RetrieveTransactionsCall(sessionId, OldestDate, NewestDate, MaxReturnMostRecent)
  }

  /** The platform's reply to the window request at log position `at`. */
  function WindowReply(platform: Platform, at: nat, sessionId: string): Reply<TransactionPage>
  {
    platform.retrieveTransactionsReply(at, sessionId, OldestDate, NewestDate, MaxReturnMostRecent)
  }

  /** How many retrievals, and how many refreshes, a run of steps makes. */
  function CountRetrieves(steps: seq<Step>): nat
  {
    if steps == [] then 0 else (if steps[0].RetrieveStep? then 1 else 0) + CountRetrieves(steps[1..])
  }

  function CountRefreshes(steps: seq<Step>): nat
  {
    if steps == [] then 0 else (if steps[0].RefreshStep? then 1 else 0) + CountRefreshes(steps[1..])
  }

  /** The state a fetch starts from: the context's credential, the session held in memory, the
      store, and the platform's request log. */
  datatype Start = Start(
    deviceId: Option<string>, pin: Option<string>, held: Option<string>,
    items: map<string, string>, calls: seq<Call>)

  /** A fetch: its steps, and the log, held session and store it leaves. */
  datatype Run = Run(steps: seq<Step>, calls: seq<Call>, held: Option<string>, items: map<string, string>)

  function StartOf(auth: AuthContext): Start
    reads auth, auth.storage, auth.platform
  {
    Start(auth.deviceId, auth.pin, auth.sessionId, auth.storage.items, auth.platform.calls)
  }

  /** What `ensureSessionId` does from the start state. */
  function Ensured(platform: Platform, st: Start): SessionEffect
  {
    EnsureEffect(platform, st.held, st.items, st.deviceId, st.pin, |st.calls|)
  }

  /** Where the first retrieval request goes in the log. */
  function FirstAt(platform: Platform, st: Start): nat
  {
    |st.calls| + |Ensured(platform, st).requests|
  }

  /** What `refreshSessionId` does once the first retrieval has thrown. */
  function Refreshed(platform: Platform, st: Start): SessionEffect
  {
    var e := Ensured(platform, st);
    RefreshEffect(platform, e.held, e.items, st.deviceId, st.pin, FirstAt(platform, st) + 1)
  }

  /** The fetch the hook makes from `st`, every answer taken from the platform's reply functions
      at the log position of its request. */
  function RunFrom(platform: Platform, st: Start): (run: Run)
    ensures RetryPolicy(run.steps)
    ensures |st.calls| <= |run.calls| && run.calls[..|st.calls|] == st.calls
  {
    var e := Ensured(platform, st);
    if e.answer.Err? then Run([EnsureStep(e.answer)], st.calls + e.requests, e.held, e.items)
    else
      var s1 := e.answer.value;
      var first := WindowReply(platform, FirstAt(platform, st), s1);
      if first.Value? then
        Run([EnsureStep(e.answer), RetrieveStep(s1, first)], st.calls + e.requests + [WindowRequest(s1)], e.held, e.items)
      else RetryRun(platform, st)
  }

  /** The fetch from `st` once the first retrieval has thrown: refresh, and retry only if the
      refresh succeeded. */
  function RetryRun(platform: Platform, st: Start): (run: Run)
    requires Ensured(platform, st).answer.Ok?
    requires WindowReply(platform, FirstAt(platform, st), Ensured(platform, st).answer.value).Thrown?
    ensures RetryPolicy(run.steps)
    ensures |st.calls| <= |run.calls| && run.calls[..|st.calls|] == st.calls
  {
    var e := Ensured(platform, st);
    var s1 := e.answer.value;
    var first := WindowReply(platform, FirstAt(platform, st), s1);
    var f := Refreshed(platform, st);
    var c3 := st.calls + e.requests + [WindowRequest(s1)] + f.requests;
    if f.answer.Err? then
      Run([EnsureStep(e.answer), RetrieveStep(s1, first), RefreshStep(f.answer)], c3, f.held, f.items)
    else
      var s3 := f.answer.value;
      var second := WindowReply(platform, |c3|, s3);
      var c4 := c3 + [WindowRequest(s3)];
      if second.Thrown? then
        Run([EnsureStep(e.answer), RetrieveStep(s1, first), RefreshStep(f.answer), RetrieveStep(s3, second)],
            c4, f.held, f.items)
      else
        Run([EnsureStep(e.answer), RetrieveStep(s1, first), RefreshStep(f.answer), RetrieveStep(s3, second),
             SetSessionStep(s3)],
            c4, Some(s3), SavedSession(f.items, s3))
  }

  /** One `retrieveTransactions` request for the fixed window. */
  method RetrieveWindow(platform: Platform, sessionId: string) returns (reply: Reply<TransactionPage>)
    modifies platform
    ensures platform.calls == old(platform.calls) + [WindowRequest(sessionId)]
    ensures reply == WindowReply(platform, |old(platform.calls)|, sessionId)
  {
    reply := platform.RetrieveTransactions(sessionId, OldestDate, NewestDate, MaxReturnMostRecent);
  }

  /** The hook receives `ensureSessionId` as a callback: this is `EnsureSessionId` seen as its
      effect on the state before the call. */
  method EnsureSession(auth: AuthContext) returns (r: Result<string, string>)
    modifies auth, auth.storage, auth.platform
    ensures
      var e := EnsureEffect(auth.platform, old(auth.sessionId), old(auth.storage.items),
                            old(auth.deviceId), old(auth.pin), |old(auth.platform.calls)|);
      && r == e.answer && auth.platform.calls == old(auth.platform.calls) + e.requests
      && auth.sessionId == e.held && auth.storage.items == e.items
    ensures auth.deviceId == old(auth.deviceId) && auth.pin == old(auth.pin)
    ensures old(auth.Consistent()) ==> auth.Consistent()
  {
    r := auth.EnsureSessionId();
  }

  /** `refreshSessionId` as the hook's callback. */
  method RefreshSession(auth: AuthContext) returns (r: Result<string, string>)
    modifies auth, auth.storage, auth.platform
    ensures
      var e := RefreshEffect(auth.platform, old(auth.sessionId), old(auth.storage.items),
                             old(auth.deviceId), old(auth.pin), |old(auth.platform.calls)|);
      && r == e.answer && auth.platform.calls == old(auth.platform.calls) + e.requests
      && auth.sessionId == e.held && auth.storage.items == e.items
    ensures auth.deviceId == old(auth.deviceId) && auth.pin == old(auth.pin)
    ensures old(auth.Consistent()) ==> auth.Consistent()
  {
    r := auth.RefreshSessionId();
  }

  /** `fetchTransactions` without the mock-data branch: the result, the request log, the held
      session and the store are those of the run from the state before the call. */
  method FetchTransactions(auth: AuthContext) returns (r: Result<Fetched, string>)
    modifies auth, auth.storage, auth.platform
    ensures
      var run := RunFrom(auth.platform, old(StartOf(auth)));
      && r == Outcome(run.steps)
      && auth.platform.calls == run.calls && auth.sessionId == run.held && auth.storage.items == run.items
    ensures auth.deviceId == old(auth.deviceId) && auth.pin == old(auth.pin)
    ensures old(auth.Consistent()) ==> auth.Consistent()
  {
    ghost var st := StartOf(auth);
    var ensured := EnsureSession(auth);
    if ensured.Err? {
      RunWhenEnsureFails(auth.platform, st);
      return Err(ensured.error);
    }
    var first := RetrieveWindow(auth.platform, ensured.value);
    if first.Value? {
      RunWhenFirstSucceeds(auth.platform, st);
      var normalized := NormalizeTransactions(first.value.transactions);
      return Ok(Fetched(|normalized|, normalized));
    }
    RunWhenFirstThrows(auth.platform, st);
    r := RetryWithFreshSession(auth, st, ensured.value, first);
  }

  lemma RunWhenEnsureFails(platform: Platform, st: Start)
    requires Ensured(platform, st).answer.Err?
    ensures var e := Ensured(platform, st);
      RunFrom(platform, st) == Run([EnsureStep(e.answer)], st.calls + e.requests, e.held, e.items)
  {
  }

  lemma RunWhenFirstSucceeds(platform: Platform, st: Start)
    requires Ensured(platform, st).answer.Ok?
    requires WindowReply(platform, FirstAt(platform, st), Ensured(platform, st).answer.value).Value?
    ensures var e := Ensured(platform, st); var s1 := e.answer.value;
      RunFrom(platform, st) == Run([EnsureStep(e.answer), RetrieveStep(s1, WindowReply(platform, FirstAt(platform, st), s1))],
                                   st.calls + e.requests + [WindowRequest(s1)], e.held, e.items)
  {
  }

  lemma RunWhenFirstThrows(platform: Platform, st: Start)
    requires Ensured(platform, st).answer.Ok?
    requires WindowReply(platform, FirstAt(platform, st), Ensured(platform, st).answer.value).Thrown?
    ensures RunFrom(platform, st) == RetryRun(platform, st)
  {
  }

  /** The `catch` branch of `fetchTransactions`: once the first retrieval has thrown, refresh the
      session and retry once; only a successful retry saves the session again. */
  method RetryWithFreshSession(auth: AuthContext, ghost st: Start, sessionId: string, first: Reply<TransactionPage>)
    returns (r: Result<Fetched, string>)
    requires Ensured(auth.platform, st).answer == Ok(sessionId)
    requires first.Thrown? && first == WindowReply(auth.platform, FirstAt(auth.platform, st), sessionId)
    requires auth.platform.calls == st.calls + Ensured(auth.platform, st).requests + [WindowRequest(sessionId)]
    requires auth.sessionId == Ensured(auth.platform, st).held && auth.storage.items == Ensured(auth.platform, st).items
    requires auth.deviceId == st.deviceId && auth.pin == st.pin
    modifies auth, auth.storage, auth.platform
    ensures
      var run := RetryRun(auth.platform, st);
      && r == Outcome(run.steps)
      && auth.platform.calls == run.calls && auth.sessionId == run.held && auth.storage.items == run.items
    ensures auth.deviceId == old(auth.deviceId) && auth.pin == old(auth.pin)
    ensures old(auth.Consistent()) ==> auth.Consistent()
  {
    ghost var f := Refreshed(auth.platform, st);
    assert |auth.platform.calls| == FirstAt(auth.platform, st) + 1;
    var refreshed := RefreshSession(auth);
    assert refreshed == f.answer && auth.platform.calls == RefreshedLog(auth.platform, st);
    if refreshed.Err? {
      RetryWhenRefreshFails(auth.platform, st);
      return Err(refreshed.error);
    }
    var retrySessionId := refreshed.value;
    var second := RetrieveWindow(auth.platform, retrySessionId);
    RetryCases(auth.platform, st);
    if second.Thrown? {
      return Err(second.message);
    }
    // save the session id in case it changed
    auth.SetSessionId(Some(retrySessionId));
    var normalized := NormalizeTransactions(second.value.transactions);
    r := Ok(Fetched(|normalized|, normalized));
  }

  /** The log as it stands once the first retrieval has thrown and the session was refreshed. */
  function RefreshedLog(platform: Platform, st: Start): seq<Call>
    requires Ensured(platform, st).answer.Ok?
  {
    st.calls + Ensured(platform, st).requests + [WindowRequest(Ensured(platform, st).answer.value)]
      + Refreshed(platform, st).requests
  }

  lemma RetryWhenRefreshFails(platform: Platform, st: Start)
    requires Ensured(platform, st).answer.Ok?
    requires WindowReply(platform, FirstAt(platform, st), Ensured(platform, st).answer.value).Thrown?
    requires Refreshed(platform, st).answer.Err?
    ensures var e := Ensured(platform, st); var f := Refreshed(platform, st); var s1 := e.answer.value;
      RetryRun(platform, st)
        == Run([EnsureStep(e.answer), RetrieveStep(s1, WindowReply(platform, FirstAt(platform, st), s1)), RefreshStep(f.answer)],
               RefreshedLog(platform, st), f.held, f.items)
  {
  }

  lemma RetryCases(platform: Platform, st: Start)
    requires Ensured(platform, st).answer.Ok?
    requires WindowReply(platform, FirstAt(platform, st), Ensured(platform, st).answer.value).Thrown?
    requires Refreshed(platform, st).answer.Ok?
    ensures var e := Ensured(platform, st); var f := Refreshed(platform, st);
      var s1 := e.answer.value; var s3 := f.answer.value;
      var steps := [EnsureStep(e.answer), RetrieveStep(s1, WindowReply(platform, FirstAt(platform, st), s1)),
                    RefreshStep(f.answer), RetrieveStep(s3, WindowReply(platform, |RefreshedLog(platform, st)|, s3))];
      var c4 := RefreshedLog(platform, st) + [WindowRequest(s3)];
      RetryRun(platform, st)
        == if steps[3].reply.Thrown? then Run(steps, c4, f.held, f.items)
           else Run(steps + [SetSessionStep(s3)], c4, Some(s3), SavedSession(f.items, s3))
  {
  }

  // Properties of the fetch, stated of the run the method is proved to make.

  /** The requests a run appends to the log. */
  function Added(platform: Platform, st: Start): seq<Call>
  {
    RunFrom(platform, st).calls[|st.calls|..]
  }

  /** The session is ensured once, first: its requests (at most one `authenticatePin`) open the
      log and the first retrieval follows them; if it fails, nothing else is requested and
      neither memory nor storage changes. */
  lemma EnsureFirstAndOnce(platform: Platform, st: Start)
    ensures var run := RunFrom(platform, st); var e := Ensured(platform, st);
      && run.steps[0] == EnsureStep(e.answer)
      && (forall i :: 0 < i < |run.steps| ==> !run.steps[i].EnsureStep?)
      && |e.requests| <= 1
      && |st.calls| + |e.requests| <= |run.calls|
      && run.calls[..|st.calls| + |e.requests|] == st.calls + e.requests
      && (e.answer.Ok? ==>
            |run.calls| > FirstAt(platform, st) && run.calls[FirstAt(platform, st)] == WindowRequest(e.answer.value))
      && (e.answer.Err? ==>
            && run.steps == [EnsureStep(e.answer)] && Outcome(run.steps) == Err(e.answer.error)
            && run.calls == st.calls + e.requests && run.held == st.held && run.items == st.items)
  {
    var e := Ensured(platform, st);
    if e.answer.Ok? {
      FirstRetrievalFollows(platform, st);
    } else {
      assert (st.calls + e.requests)[..|st.calls| + |e.requests|] == st.calls + e.requests;
    }
  }

  /** Once a session is ensured, the log goes on with its first retrieval. */
  lemma FirstRetrievalFollows(platform: Platform, st: Start)
    requires Ensured(platform, st).answer.Ok?
    ensures var run := RunFrom(platform, st); var e := Ensured(platform, st);
      var c2 := st.calls + e.requests + [WindowRequest(e.answer.value)];
      |c2| <= |run.calls| && run.calls[..|c2|] == c2
  {
    var e := Ensured(platform, st);
    var c2 := st.calls + e.requests + [WindowRequest(e.answer.value)];
    if WindowReply(platform, FirstAt(platform, st), e.answer.value).Thrown? {
      var f := Refreshed(platform, st);
      var rest := if f.answer.Ok? then f.requests + [WindowRequest(f.answer.value)] else f.requests;
      assert RunFrom(platform, st).calls == c2 + rest;
      assert (c2 + rest)[..|c2|] == c2;
    }
  }

  /** A first retrieval that succeeds ends the fetch: no refresh, no further request, and the
      result is that retrieval's normalised page. */
  lemma FirstSuccessNoRefresh(platform: Platform, st: Start)
    requires Ensured(platform, st).answer.Ok?
    requires WindowReply(platform, FirstAt(platform, st), Ensured(platform, st).answer.value).Value?
    ensures var run := RunFrom(platform, st); var s1 := Ensured(platform, st).answer.value;
      && run.calls == st.calls + Ensured(platform, st).requests + [WindowRequest(s1)]
      && (forall i :: 0 <= i < |run.steps| ==> !run.steps[i].RefreshStep?)
      && Outcome(run.steps) == Ok(FetchedOf(WindowReply(platform, FirstAt(platform, st), s1).value))
      && run.held == Some(s1)
  {
  }

  /** A refresh that fails ends the fetch with its error, with no second retrieval; memory and
      storage are as the ensure left them. */
  lemma RefreshFailurePropagates(platform: Platform, st: Start)
    requires Ensured(platform, st).answer.Ok?
    requires WindowReply(platform, FirstAt(platform, st), Ensured(platform, st).answer.value).Thrown?
    requires Refreshed(platform, st).answer.Err?
    ensures var run := RunFrom(platform, st); var e := Ensured(platform, st);
      && run.calls == st.calls + e.requests + [WindowRequest(e.answer.value)] + Refreshed(platform, st).requests
      && Outcome(run.steps) == Err(Refreshed(platform, st).answer.error)
      && run.held == e.held && run.items == e.items
  {
  }

  /** A failed retry is final: its error is the outcome, and the hook's own save of the session
      does not happen; the refreshed session is held and stored because `refreshSessionId`
      itself saved it. */
  lemma SecondFailurePropagates(platform: Platform, st: Start)
    requires Ensured(platform, st).answer.Ok?
    requires WindowReply(platform, FirstAt(platform, st), Ensured(platform, st).answer.value).Thrown?
    requires Refreshed(platform, st).answer.Ok?
    requires
      var c3 := st.calls + Ensured(platform, st).requests
        + [WindowRequest(Ensured(platform, st).answer.value)] + Refreshed(platform, st).requests;
      WindowReply(platform, |c3|, Refreshed(platform, st).answer.value).Thrown?
    ensures var run := RunFrom(platform, st); var s3 := Refreshed(platform, st).answer.value;
      && |run.steps| == 4 && Outcome(run.steps) == Err(run.steps[3].reply.message)
      && (forall i :: 0 <= i < |run.steps| ==> !run.steps[i].SetSessionStep?)
      && run.held == Some(s3) && run.items == SavedSession(Ensured(platform, st).items, s3)
  {
  }

  /** A successful retry saves the refreshed session and returns the retry's normalised page;
      the first retrieval, the refresh and the retry are the only requests after the ensure. */
  lemma RetrySucceedsSavesSession(platform: Platform, st: Start)
    requires Ensured(platform, st).answer.Ok?
    requires WindowReply(platform, FirstAt(platform, st), Ensured(platform, st).answer.value).Thrown?
    requires Refreshed(platform, st).answer.Ok?
    requires
      var c3 := st.calls + Ensured(platform, st).requests
        + [WindowRequest(Ensured(platform, st).answer.value)] + Refreshed(platform, st).requests;
      WindowReply(platform, |c3|, Refreshed(platform, st).answer.value).Value?
    ensures var run := RunFrom(platform, st); var e := Ensured(platform, st); var f := Refreshed(platform, st);
      var c3 := st.calls + e.requests + [WindowRequest(e.answer.value)] + f.requests;
      && run.calls == c3 + [WindowRequest(f.answer.value)]
      && Outcome(run.steps) == Ok(FetchedOf(WindowReply(platform, |c3|, f.answer.value).value))
      && run.held == Some(f.answer.value) && run.items == SavedSession(e.items, f.answer.value)
  {
  }

  /** Whenever the fetch succeeds, memory holds the session of the retrieval that succeeded. */
  lemma SessionHeldOnSuccess(platform: Platform, st: Start)
    ensures var run := RunFrom(platform, st);
      Outcome(run.steps).Ok? ==>
        run.held == Some(run.steps[if |run.steps| == 2 then 1 else 3].sessionId)
  {
  }

  /** A log extension with at most two retrievals, both for the fixed window, at most two
      `authenticatePin` requests, both with the credential of `st`, and no other request. */
  predicate LogBounded(st: Start, added: seq<Call>)
  {
    && |RequestsTo(added, RetrieveTransactionsEndpoint)| <= 2
    && |RequestsTo(added, AuthenticatePinEndpoint)| <= 2
    && RequestsTo(added, CreatePinEndpoint) == []
    && (forall c :: c in added && c.RetrieveTransactionsCall? ==> c == WindowRequest(c.sessionId))
    && (forall c :: c in added && c.AuthenticatePinCall? ==>
          st.deviceId == Some(c.deviceId) && st.pin == Some(c.pin))
  }

  /** Whatever the platform answers, the fetch's requests are bounded as above, and its steps
      hold at most two retrievals and at most one refresh. */
  lemma RetryBounds(platform: Platform, st: Start)
    ensures LogBounded(st, Added(platform, st))
    ensures CountRetrieves(RunFrom(platform, st).steps) <= 2 && CountRefreshes(RunFrom(platform, st).steps) <= 1
  {
    var e := Ensured(platform, st);
    EnsureRequestsHeld(platform, st);
    if e.answer.Err? {
      LogBoundedPieces(st, e.requests, [], [], [], RunFrom(platform, st).calls);
    } else if WindowReply(platform, FirstAt(platform, st), e.answer.value).Value? {
      RunWhenFirstSucceeds(platform, st);
      LogBoundedPieces(st, e.requests, [WindowRequest(e.answer.value)], [], [], RunFrom(platform, st).calls);
    } else {
      RetryRunBounded(platform, st);
    }
    PolicyBounds(RunFrom(platform, st).steps);
  }

  /** The ensure's request, if any, carries the held credential. */
  lemma EnsureRequestsHeld(platform: Platform, st: Start)
    ensures var e := Ensured(platform, st);
      |e.requests| <= 1 && forall c :: c in e.requests ==> c.AuthenticatePinCall? && st.deviceId == Some(c.deviceId) && st.pin == Some(c.pin)
  {
  }

  /** The refresh's request, if any, carries the held credential. */
  lemma RefreshRequestsHeld(platform: Platform, st: Start)
    ensures var f := Refreshed(platform, st);
      |f.requests| <= 1 && forall c :: c in f.requests ==> c.AuthenticatePinCall? && st.deviceId == Some(c.deviceId) && st.pin == Some(c.pin)
  {
  }

  lemma RetryRunBounded(platform: Platform, st: Start)
    requires Ensured(platform, st).answer.Ok?
    requires WindowReply(platform, FirstAt(platform, st), Ensured(platform, st).answer.value).Thrown?
    ensures LogBounded(st, Added(platform, st))
  {
    var e := Ensured(platform, st);
    var f := Refreshed(platform, st);
    EnsureRequestsHeld(platform, st);
    RefreshRequestsHeld(platform, st);
    RunWhenFirstThrows(platform, st);
    var b: seq<Call> := if f.answer.Ok? then [WindowRequest(f.answer.value)] else [];
    if f.answer.Err? {
      RetryWhenRefreshFails(platform, st);
    } else {
      RetryCases(platform, st);
    }
    LogBoundedPieces(st, e.requests, [WindowRequest(e.answer.value)], f.requests, b, RunFrom(platform, st).calls);
  }

  /** The counting behind `RetryBounds`: a log extended by at most one authentication, a window
      request, at most one authentication and a window request is bounded. */
  lemma LogBoundedPieces(st: Start, er: seq<Call>, a: seq<Call>, fr: seq<Call>, b: seq<Call>, calls: seq<Call>)
    requires |er| <= 1 && |a| <= 1 && |fr| <= 1 && |b| <= 1
    requires forall c :: c in er + fr ==> c.AuthenticatePinCall? && st.deviceId == Some(c.deviceId) && st.pin == Some(c.pin)
    requires forall c :: c in a + b ==> c.RetrieveTransactionsCall? && c == WindowRequest(c.sessionId)
    requires calls == st.calls + er + a + fr + b
    ensures LogBounded(st, calls[|st.calls|..])
  {
    assert calls[|st.calls|..] == er + a + fr + b;
    FourPieceCounts(er, a, fr, b);
    forall c | c in er + a + fr + b
      ensures c in er + fr || c in a + b
    {
    }
  }

  /** The same bounds on any run of steps the policy allows. */
  lemma PolicyBounds(steps: seq<Step>)
    requires RetryPolicy(steps)
    ensures CountRetrieves(steps) <= 2 && CountRefreshes(steps) <= 1
  {
    var n := |steps|;
    for i := n downto 0
      invariant CountRetrieves(steps[i..]) <= (if i <= 1 then 2 else if i <= 3 then 1 else 0)
      invariant CountRefreshes(steps[i..]) <= (if i <= 2 then 1 else 0)
    {
      assert steps[i..][1..] == steps[i + 1..];
    }
    assert steps[0..] == steps;
  }

  /** The reported count is the length of the normalised list, whatever the platform's own
      count says. */
  lemma CountIsNormalizedLength(page: TransactionPage)
    ensures FetchedOf(page).totalCount == |Normalized(page.transactions)| <= |page.transactions|
  {
    NormalizedNoLonger(page.transactions);
  }
}
