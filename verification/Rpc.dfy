/** `rpcCall` and `rpcCallWithRetry` of libs/gas/src/gas.service.ts: providers in order within
    an attempt, three attempts, and no further attempt after a permanent error. */
module Rpc {
  import opened Base
  import opened ErrorClassifier

  const MAX_RETRIES := 3
  const ALL_FAILED := "All RPC providers failed"

  /** What a request to one provider comes back with; HTTP errors, JSON-RPC errors, timeouts
      and network failures are all errors. */
  datatype Reply<T> = Ok(value: T) | Err(message: string)

  /** What provider `p` answers in attempt `a` (attempts count from 1). */
  type Oracle<T> = (nat, nat) -> Reply<T>

  // -------------------------------------------------------------------------
  // The specification: the first success in lexicographic order
  // -------------------------------------------------------------------------

  /** Every provider fails in the attempt. */
  ghost predicate AllFail<T>(oracle: Oracle<T>, providers: nat, a: nat) {
    forall p: nat :: p < providers ==> oracle(a, p).Err?
  }

  /** The error an attempt ends with: the last provider's. */
  function LastError<T>(oracle: Oracle<T>, providers: nat, a: nat): string {
    if providers == 0 then ALL_FAILED
    else if oracle(a, providers - 1).Err? then oracle(a, providers - 1).message
    else ""
  }

  /** Attempt `a` is made: all earlier ones failed, none of them permanently. */
  ghost predicate Reached<T>(oracle: Oracle<T>, providers: nat, a: nat) {
    1 <= a <= MAX_RETRIES && forall b: nat :: 1 <= b < a ==>
        AllFail(oracle, providers, b) && Classify(LastError(oracle, providers, b)) != Permanent
  }

  /** Provider `p` is the first to answer in attempt `a`. */
  ghost predicate FirstToAnswer<T>(oracle: Oracle<T>, providers: nat, a: nat, p: nat) {
    p < providers && oracle(a, p).Ok? && forall q: nat :: q < p ==> oracle(a, q).Err?
  }

  /** Provider `p` in attempt `a` gives the first success. */
  ghost predicate FirstSuccess<T>(oracle: Oracle<T>, providers: nat, a: nat, p: nat) {
    Reached(oracle, providers, a) && FirstToAnswer(oracle, providers, a, p)
  }

  /** Attempt `a` is the last one and fails. */
  ghost predicate FinalFailure<T>(oracle: Oracle<T>, providers: nat, a: nat) {
    && Reached(oracle, providers, a) && AllFail(oracle, providers, a)
    && (a == MAX_RETRIES || Classify(LastError(oracle, providers, a)) == Permanent)
  }

  /** There is one first success or one final failure, never both: the specification
      determines the result. */
  lemma OutcomeUnique<T>(oracle: Oracle<T>, providers: nat, a: nat, p: nat, b: nat, q: nat)
    ensures FirstSuccess(oracle, providers, a, p) && FirstSuccess(oracle, providers, b, q) ==> a == b && p == q
    ensures !(FirstSuccess(oracle, providers, a, p) && FinalFailure(oracle, providers, b))
    ensures FinalFailure(oracle, providers, a) && FinalFailure(oracle, providers, b) ==> a == b
  {
    if FirstSuccess(oracle, providers, a, p) && FirstSuccess(oracle, providers, b, q) {
      assert a < b ==> !AllFail(oracle, providers, a);
      assert b < a ==> !AllFail(oracle, providers, b);
    }
    if FirstSuccess(oracle, providers, a, p) && Reached(oracle, providers, b) {
      assert a <= b ==> oracle(a, p).Ok?;
      assert a < b ==> !AllFail(oracle, providers, a);
    }
  }

  /** No attempt before `a` ended in a permanent error. */
  ghost predicate Unblocked<T>(oracle: Oracle<T>, providers: nat, a: nat) {
    1 <= a <= 3 && forall b: nat :: 1 <= b < a ==> !EndsPermanently(oracle, providers, b)
  }

  /** All providers fail, and the last one's error is permanent. */
  ghost predicate EndsPermanently<T>(oracle: Oracle<T>, providers: nat, a: nat) {
    && providers > 0 && (forall p: nat :: p < providers ==> oracle(a, p).Err?)
    && Classify(oracle(a, providers - 1).message) == Permanent
  }

  /** The call succeeds exactly when some provider would answer in one of three attempts and no
      attempt before it ends in a permanent error: failover and retries hide every other
      failure. */
  lemma SucceedsExactly<T>(oracle: Oracle<T>, providers: nat)
    ensures (exists a, p :: FirstSuccess(oracle, providers, a, p))
       <==> (exists a, p: nat :: Unblocked(oracle, providers, a) && p < providers && oracle(a, p).Ok?)
  {
    hide Classify, LastError, EndsPermanently;
    if providers > 0 {
      EndsAsLast(oracle, providers);
    }
    if a, p: nat :| Unblocked(oracle, providers, a) && p < providers && oracle(a, p).Ok? {
      assert Reached(oracle, providers, 1);
      ReachSuccess(oracle, providers, 1, a);
    }
    if a, p :| FirstSuccess(oracle, providers, a, p) {
      assert oracle(a, p).Ok?;
      assert Unblocked(oracle, providers, a);
    }
  }

  lemma EndsAsLast<T>(oracle: Oracle<T>, providers: nat)
    requires providers > 0
    ensures forall b: nat :: EndsPermanently(oracle, providers, b) <==>
              AllFail(oracle, providers, b) && Classify(LastError(oracle, providers, b)) == Permanent
  {
    hide Classify;
    forall b: nat
      ensures AllFail(oracle, providers, b) ==> LastError(oracle, providers, b) == oracle(b, providers - 1).message
    {
    }
  }

  lemma {:induction false} ReachSuccess<T>(oracle: Oracle<T>, providers: nat, b: nat, a: nat)
    requires Reached(oracle, providers, b) && b <= a
    requires Unblocked(oracle, providers, a) && !AllFail(oracle, providers, a) && providers > 0
    ensures exists c, p :: FirstSuccess(oracle, providers, c, p)
    decreases a - b
  {
    EndsAsLast(oracle, providers);
    hide Classify, LastError, EndsPermanently;
    if AllFail(oracle, providers, b) {
      assert Reached(oracle, providers, b + 1);
      ReachSuccess(oracle, providers, b + 1, a);
    } else {
      var p: nat :| p < providers && oracle(b, p).Ok?;
      var q := LeastAnswer(oracle, providers, b, p);
      assert FirstSuccess(oracle, providers, b, q);
    }
  }

  lemma {:induction false} LeastAnswer<T>(oracle: Oracle<T>, providers: nat, a: nat, p: nat) returns (q: nat)
    requires p < providers && oracle(a, p).Ok?
    ensures FirstToAnswer(oracle, providers, a, q)
  {
    if r: nat :| r < p && oracle(a, r).Ok? {
      q := LeastAnswer(oracle, providers, a, r);
    } else {
      q := p;
    }
  }

  // -------------------------------------------------------------------------
  // The loops
  // -------------------------------------------------------------------------

  class RpcClient {
    /** The requests made, as attempt and provider. */
    var requests: seq<(nat, nat)>

    constructor ()
      ensures requests == []
    {
      requests := [];
    }

    /** One attempt: providers in order until one answers. */
    method RpcCall<T>(oracle: Oracle<T>, providers: nat, a: nat) returns (reply: Reply<T>)
      modifies this
      ensures reply.Ok? ==> requests != [] && FirstToAnswer(oracle, providers, a, requests[|requests| - 1].1)
      ensures reply.Ok? ==> reply == oracle(a, requests[|requests| - 1].1)
                            && Made(old(requests), requests, a, requests[|requests| - 1].1 + 1)
      ensures reply.Err? ==> AllFail(oracle, providers, a) && reply.message == LastError(oracle, providers, a)
                             && Made(old(requests), requests, a, providers)
      ensures old(requests) <= requests && |requests| <= |old(requests)| + providers
      ensures forall k :: |old(requests)| <= k < |requests| && oracle(requests[k].0, requests[k].1).Ok? ==>
                reply.Ok? && k == |requests| - 1
      ensures reply.Ok? ==> requests[|requests| - 1].0 == a
      ensures providers == 0 ==> reply == Err("All RPC providers failed")
    {
      for i := 0 to providers
        invariant i == 0 || i < providers
        invariant forall q: nat :: q < i ==> oracle(a, q).Err?
        invariant requests == old(requests) + Attempt(a, i)
      {
        reply := oracle(a, i);
        requests := requests + [(a, i)];
        assert Attempt(a, i + 1) == Attempt(a, i) + [(a, i)];
        if reply.Ok? {
          return;
        }
        if i == providers - 1 {
          return;
        }
      }
      return Err(ALL_FAILED);
    }

    /** Retries: the first success in lexicographic order, or the final failure's error; a
        success that was requested is never reported as a failure; at most three times the
        provider count of requests. */
    method RpcCallWithRetry<T>(oracle: Oracle<T>, providers: nat) returns (reply: Reply<T>)
      modifies this
      ensures reply.Ok? ==> exists a, p :: FirstSuccess(oracle, providers, a, p) && reply == oracle(a, p)
      ensures reply.Err? ==> exists a ::
                FinalFailure(oracle, providers, a) && reply.message == LastError(oracle, providers, a)
      ensures old(requests) <= requests && |requests| <= |old(requests)| + 3 * providers
      ensures forall k :: |old(requests)| <= k < |requests| && oracle(requests[k].0, requests[k].1).Ok? ==>
                k == |requests| - 1 && reply == oracle(requests[k].0, requests[k].1)
    {
      Reaching(oracle, providers);
      hide Classify, LastError, Made, AllFail, FirstToAnswer, Reached;
      reply := Err("");
      for attempt := 1 to MAX_RETRIES + 1
        invariant attempt > MAX_RETRIES ==> FinalFailure(oracle, providers, MAX_RETRIES)
        invariant attempt > 1 ==> reply == Err(LastError(oracle, providers, attempt - 1))
        invariant attempt <= MAX_RETRIES ==> Reached(oracle, providers, attempt)
        invariant old(requests) <= requests && |requests| <= |old(requests)| + (attempt - 1) * providers
        invariant forall k :: |old(requests)| <= k < |requests| ==> oracle(requests[k].0, requests[k].1).Err?
      {
        reply := RpcCall(oracle, providers, attempt);
        if reply.Ok? {
          assert FirstSuccess(oracle, providers, attempt, requests[|requests| - 1].1);
          return;
        }
        if Classify(reply.message) == Permanent {
          assert FinalFailure(oracle, providers, attempt);
          return;
        }
      }
    }
  }

  /** The first attempt is made, and the next one after a failure that is not permanent. */
  lemma Reaching<T>(oracle: Oracle<T>, providers: nat)
    ensures Reached(oracle, providers, 1)
    ensures forall a: nat :: Reached(oracle, providers, a) && a < MAX_RETRIES && AllFail(oracle, providers, a)
                             && Classify(LastError(oracle, providers, a)) != Permanent ==>
              Reached(oracle, providers, a + 1)
  {
    hide Classify, LastError, AllFail;
  }

  /** The requests of one attempt, to its first `count` providers, were added to the log. */
  ghost predicate Made(before: seq<(nat, nat)>, after: seq<(nat, nat)>, a: nat, count: nat) {
    after == before + Attempt(a, count)
  }

  /** The requests of one attempt to its first `count` providers. */
  function Attempt(a: nat, count: nat): seq<(nat, nat)> {
    seq(count, p => (a, p))
  }
}
