/** Filtering a transaction list through the location canonicaliser (`normalizeTransactions` in
    `src/lib/normalize.ts`). */
module Normalize {
  import opened Wrappers
  import opened Strings
  import opened Types
  import opened LocationNames
  import opened CanonicalFixedPoints

  /** What one record becomes: nothing if its location is excluded, otherwise the record with
      the canonical location name in place of the raw one. */
  function NormalizeOne(t: Transaction): seq<Transaction>
  {
    match Canonicalize(t.locationName)
    case None => []
    case Some(c) => [t.(locationName := c)]
  }

  /** The normalised list, defined record by record from the front of the list. */
  function Normalized(ts: seq<Transaction>): seq<Transaction>
  {
    if ts == [] then [] else Normalized(ts[..|ts| - 1]) + NormalizeOne(ts[|ts| - 1])
  }

  /** `normalizeTransactions`: one pass that skips excluded records and pushes the rest. */
  method NormalizeTransactions(transactions: seq<Transaction>) returns (normalized: seq<Transaction>)
    ensures normalized == Normalized(transactions)
  {
    if |transactions| == 0 {
      return [];
    }
    normalized := [];
    for i := 0 to |transactions|
      invariant normalized == Normalized(transactions[..i])
    {
      assert transactions[..i + 1][..i] == transactions[..i];
      var t := transactions[i];
      var canonical := Canonicalize(t.locationName);
      if canonical.None? {
        continue;
      }
      normalized := normalized + [t.(locationName := canonical.value)];
    }
    assert transactions[..|transactions|] == transactions;
  }

  /** Indices of the input records that survive, in increasing order. */
  function KeptIndices(ts: seq<Transaction>): seq<nat>
  {
    if ts == [] then []
    else KeptIndices(ts[..|ts| - 1])
         + (if Canonicalize(ts[|ts| - 1].locationName).Some? then [|ts| - 1] else [])
  }

  predicate StrictlyIncreasing(idx: seq<nat>)
  {
    forall a, b :: 0 <= a < b < |idx| ==> idx[a] < idx[b]
  }

  /** The survivors' indices: one per output record, increasing, and within the input. */
  lemma {:induction false} KeptIndicesShape(ts: seq<Transaction>)
    ensures |KeptIndices(ts)| == |Normalized(ts)|
    ensures StrictlyIncreasing(KeptIndices(ts))
    ensures forall k :: 0 <= k < |KeptIndices(ts)| ==> KeptIndices(ts)[k] < |ts|
  {
    if ts != [] {
      KeptIndicesShape(ts[..|ts| - 1]);
    }
  }

  /** An input record is kept exactly when its location is not excluded. */
  lemma {:induction false} KeptIndicesMembership(ts: seq<Transaction>)
    ensures forall i :: 0 <= i < |ts| ==> (i in KeptIndices(ts) <==> Canonicalize(ts[i].locationName).Some?)
  {
    if ts != [] {
      var init := ts[..|ts| - 1];
      KeptIndicesMembership(init);
      KeptIndicesShape(init);
      assert forall i :: 0 <= i < |init| ==> ts[i] == init[i];
    }
  }

  /** Survivor `k` is input record `KeptIndices(ts)[k]` with its location canonicalised. */
  lemma {:induction false} KeptIndicesImage(ts: seq<Transaction>)
    ensures |KeptIndices(ts)| == |Normalized(ts)|
    ensures forall k :: 0 <= k < |KeptIndices(ts)| ==>
      var i := KeptIndices(ts)[k];
      i < |ts| && Canonicalize(ts[i].locationName).Some? &&
      Normalized(ts)[k] == ts[i].(locationName := Canonicalize(ts[i].locationName).value)
  {
    KeptIndicesShape(ts);
    if ts != [] {
      var init := ts[..|ts| - 1];
      KeptIndicesImage(init);
      KeptIndicesShape(init);
      assert forall i :: 0 <= i < |init| ==> ts[i] == init[i];
    }
  }

  /** The output is an order-preserving subsequence of the input: survivor `k` is input record
      `KeptIndices(ts)[k]` with its location canonicalised, the indices increase, and an input
      record is kept exactly when its location is not excluded. */
  lemma NormalizedIsSubsequence(ts: seq<Transaction>)
    ensures var idx := KeptIndices(ts);
      && |idx| == |Normalized(ts)|
      && StrictlyIncreasing(idx)
      && (forall k :: 0 <= k < |idx| ==> idx[k] < |ts|)
      && (forall k :: 0 <= k < |idx| ==>
            Canonicalize(ts[idx[k]].locationName).Some? &&
            Normalized(ts)[k] == ts[idx[k]].(locationName := Canonicalize(ts[idx[k]].locationName).value))
      && (forall i :: 0 <= i < |ts| ==> (i in idx <==> Canonicalize(ts[i].locationName).Some?))
  {
    KeptIndicesShape(ts);
    KeptIndicesMembership(ts);
    KeptIndicesImage(ts);
  }

  /** Normalising never lengthens the list. */
  lemma NormalizedNoLonger(ts: seq<Transaction>)
    ensures |Normalized(ts)| <= |ts|
  {
    NormalizedIsSubsequence(ts);
    var idx := KeptIndices(ts);
    // idx is a strictly increasing sequence of indices below |ts|, so idx[k] >= k
    if |idx| > 0 {
      assert forall k :: 0 <= k < |idx| ==> k <= idx[k] by {
        forall k | 0 <= k < |idx| ensures k <= idx[k] {
          IncreasingAtLeastIndex(idx, k);
        }
      }
      assert |idx| - 1 <= idx[|idx| - 1] < |ts|;
    }
  }

  lemma {:induction false} IncreasingAtLeastIndex(idx: seq<nat>, k: nat)
    requires StrictlyIncreasing(idx) && k < |idx|
    ensures k <= idx[k]
  {
    if k > 0 {
      IncreasingAtLeastIndex(idx, k - 1);
    }
  }

  /** A record whose location is empty or mentions an excluded keyword has no image in the
      output. */
  lemma ExcludedRecordDropped(ts: seq<Transaction>, i: nat)
    requires i < |ts|
    requires ts[i].locationName == "" || IsExcluded(Lower(ts[i].locationName))
    ensures i !in KeptIndices(ts)
  {
    NormalizedIsSubsequence(ts);
  }

  lemma {:induction false} NormalizedAppend(a: seq<Transaction>, b: seq<Transaction>)
    ensures Normalized(a + b) == Normalized(a) + Normalized(b)
  {
    if b == [] {
      assert a + b == a;
    } else {
      var b' := b[..|b| - 1];
      assert (a + b)[..|a + b| - 1] == a + b';
      NormalizedAppend(a, b');
    }
  }

  /** Every surviving record carries a location that canonicalises to itself. */
  lemma {:induction false} SurvivorsAreCanonical(ts: seq<Transaction>)
    ensures forall u :: u in Normalized(ts) ==> Canonicalize(u.locationName) == Some(u.locationName)
  {
    if ts != [] {
      SurvivorsAreCanonical(ts[..|ts| - 1]);
      var t := ts[|ts| - 1];
      if Canonicalize(t.locationName).Some? {
        CanonicalizeIdempotent(t.locationName);
      }
    }
  }

  /** Normalising an already normalised list changes nothing. */
  lemma {:induction false} NormalizeIdempotent(ts: seq<Transaction>)
    ensures Normalized(Normalized(ts)) == Normalized(ts)
  {
    if ts != [] {
      var init, t := ts[..|ts| - 1], ts[|ts| - 1];
      NormalizeIdempotent(init);
      NormalizedAppend(Normalized(init), NormalizeOne(t));
      match Canonicalize(t.locationName)
      case None =>
      case Some(c) =>
        CanonicalizeIdempotent(t.locationName);
        assert Normalized([t.(locationName := c)]) == [t.(locationName := c)] by {
          assert [t.(locationName := c)][..0] == [];
        }
    }
  }
}
