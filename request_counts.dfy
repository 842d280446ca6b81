/** Counting the requests of a short log by endpoint. */
module RequestCounts {
  import opened Api

  /** A log with no request to endpoint `k` keeps nothing when filtered by `k`. */
  lemma {:induction false} RequestsToNone(log: seq<Call>, k: Endpoint)
    requires forall c :: c in log ==> EndpointOf(c) != k
    ensures RequestsTo(log, k) == []
    decreases |log|
  {
    if log != [] {
      var front := log[..|log| - 1];
      assert forall c :: c in front ==> c in log;
      assert log[|log| - 1] in log;
      RequestsToNone(front, k);
    }
  }

  /** Filtering a log of four pieces filters each piece. */
  lemma SplitFour(er: seq<Call>, a: seq<Call>, fr: seq<Call>, b: seq<Call>, k: Endpoint)
    ensures RequestsTo(er + a + fr + b, k) == RequestsTo(er, k) + RequestsTo(a, k) + RequestsTo(fr, k) + RequestsTo(b, k)
  {
    RequestsToAppend(er + a + fr, b, k);
    RequestsToAppend(er + a, fr, k);
    RequestsToAppend(er, a, k);
  }

  /** Counting the requests of a log made of four pieces of at most one request each: requests
      `er` and `fr` authenticate, `a` and `b` retrieve. */
  lemma FourPieceCounts(er: seq<Call>, a: seq<Call>, fr: seq<Call>, b: seq<Call>)
    requires |er| <= 1 && |a| <= 1 && |fr| <= 1 && |b| <= 1
    requires forall c :: c in er + fr ==> c.AuthenticatePinCall?
    requires forall c :: c in a + b ==> c.RetrieveTransactionsCall?
    ensures var log := er + a + fr + b;
      && |RequestsTo(log, RetrieveTransactionsEndpoint)| <= 2
      && |RequestsTo(log, AuthenticatePinEndpoint)| <= 2
      && RequestsTo(log, CreatePinEndpoint) == []
      && (forall c :: c in log ==> c in er || c in a || c in fr || c in b)
  {
    var log := er + a + fr + b;
    assert forall c :: c in er ==> c in er + fr;
    assert forall c :: c in fr ==> c in er + fr;
    assert forall c :: c in a ==> c in a + b;
    assert forall c :: c in b ==> c in a + b;
    SplitFour(er, a, fr, b, RetrieveTransactionsEndpoint);
    RequestsToNone(er, RetrieveTransactionsEndpoint);
    RequestsToNone(fr, RetrieveTransactionsEndpoint);
    SplitFour(er, a, fr, b, AuthenticatePinEndpoint);
    RequestsToNone(a, AuthenticatePinEndpoint);
    RequestsToNone(b, AuthenticatePinEndpoint);
    assert forall c :: c in log ==> c in er || c in a || c in fr || c in b;
    RequestsToNone(log, CreatePinEndpoint);
  }
}
