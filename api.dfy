/** The three endpoints of the dining platform the core calls (`src/lib/api.ts`). The HTTP and
    JSON plumbing is not modelled: each endpoint either answers or throws, as decided by a reply
    function fixed when the platform is created, and every call is appended to a log. A reply
    function receives the call's position in the log, so the same request may be answered
    differently at different times. */
module Api {
  import opened Types

  /** An endpoint's outcome: the awaited value, or the message of the error it throws. */
  datatype Reply<T> = Value(value: T) | Thrown(message: string)

  /** The response of `retrieveTransactions`. */
  datatype TransactionPage = TransactionPage(totalCount: int, returnCapped: bool, transactions: seq<Transaction>)

  datatype Call =
    | CreatePinCall(deviceId: string, pin: string, sessionId: string)
    | AuthenticatePinCall(deviceId: string, pin: string)
    | RetrieveTransactionsCall(sessionId: string, oldestDate: string, newestDate: string, maxReturnMostRecent: int)

  class Platform {
    /** Every request made so far, oldest first. */
    var calls: seq<Call>
    const createPinReply: (nat, string, string, string) -> Reply<bool>
    const authenticatePinReply: (nat, string, string) -> Reply<string>
    const retrieveTransactionsReply: (nat, string, string, string, int) -> Reply<TransactionPage>

    constructor (
      createPinReply: (nat, string, string, string) -> Reply<bool>,
      authenticatePinReply: (nat, string, string) -> Reply<string>,
      retrieveTransactionsReply: (nat, string, string, string, int) -> Reply<TransactionPage>)
      ensures calls == []
      ensures this.createPinReply == createPinReply
      ensures this.authenticatePinReply == authenticatePinReply
      ensures this.retrieveTransactionsReply == retrieveTransactionsReply
    {
      calls := [];
      this.createPinReply := createPinReply;
      this.authenticatePinReply := authenticatePinReply;
      this.retrieveTransactionsReply := retrieveTransactionsReply;
    }

    /** `createPin`: registers the PIN for the device under a validator session. A `false`
        response is a value, not an error. */
    method CreatePin(deviceId: string, pin: string, sessionId: string) returns (r: Reply<bool>)
      modifies this
      ensures calls == old(calls) + [CreatePinCall(deviceId, pin, sessionId)]
      ensures r == createPinReply(|old(calls)|, deviceId, pin, sessionId)
    {
      r := createPinReply(|calls|, deviceId, pin, sessionId);
      calls := calls + [CreatePinCall(deviceId, pin, sessionId)];
    }

    /** `authenticatePin`: exchanges the device credential for a session id. */
    method AuthenticatePin(deviceId: string, pin: string) returns (r: Reply<string>)
      modifies this
      ensures calls == old(calls) + [AuthenticatePinCall(deviceId, pin)]
      ensures r == authenticatePinReply(|old(calls)|, deviceId, pin)
    {
      r := authenticatePinReply(|calls|, deviceId, pin);
      calls := calls + [AuthenticatePinCall(deviceId, pin)];
    }

    /** `retrieveTransactions` for a date window. */
    method RetrieveTransactions(sessionId: string, oldestDate: string, newestDate: string, maxReturnMostRecent: int)
      returns (r: Reply<TransactionPage>)
      modifies this
      ensures calls == old(calls) + [RetrieveTransactionsCall(sessionId, oldestDate, newestDate, maxReturnMostRecent)]
      ensures r == retrieveTransactionsReply(|old(calls)|, sessionId, oldestDate, newestDate, maxReturnMostRecent)
    {
      r := retrieveTransactionsReply(|calls|, sessionId, oldestDate, newestDate, maxReturnMostRecent);
      calls := calls + [RetrieveTransactionsCall(sessionId, oldestDate, newestDate, maxReturnMostRecent)];
    }
  }

  /** The endpoint a request goes to. */
  datatype Endpoint = CreatePinEndpoint | AuthenticatePinEndpoint | RetrieveTransactionsEndpoint

  function EndpointOf(c: Call): Endpoint
  {
    match c
    case CreatePinCall(_, _, _) => CreatePinEndpoint
    case AuthenticatePinCall(_, _) => AuthenticatePinEndpoint
    case RetrieveTransactionsCall(_, _, _, _) => RetrieveTransactionsEndpoint
  }

  /** The requests of a log that go to endpoint `e`, in order. */
  function RequestsTo(calls: seq<Call>, e: Endpoint): (r: seq<Call>)
    ensures |r| <= |calls|
  {
    if calls == [] then []
    else
      var front := calls[..|calls| - 1];
      var last := calls[|calls| - 1];
      RequestsTo(front, e) + (if EndpointOf(last) == e then [last] else [])
  }

  /** Filtering a log splits over concatenation, so the requests of a run can be counted piece
      by piece. */
  lemma {:induction false} RequestsToAppend(a: seq<Call>, b: seq<Call>, e: Endpoint)
    ensures RequestsTo(a + b, e) == RequestsTo(a, e) + RequestsTo(b, e)
    decreases |b|
  {
    if b == [] {
      assert a + b == a;
    } else {
      var b' := b[..|b| - 1];
      assert (a + b)[..|a + b| - 1] == a + b';
      RequestsToAppend(a, b', e);
    }
  }
}
