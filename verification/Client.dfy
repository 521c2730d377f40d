/** The unary client: one call of Write is one retry loop under one deadline. */
module UnaryClient {
  import opened Types
  import opened Retry

  /** A grpc::ClientContext; it serves a single call. */
  class Context {
    var deadline: Option<real>

    constructor ()
      ensures deadline == None
    {
      deadline := None;
    }
  }

  ghost predicate Distinct(contexts: seq<Context>) {
    forall i, j :: 0 <= i < j < |contexts| ==> contexts[i] != contexts[j]
  }

  lemma DistinctPush(contexts: seq<Context>, c: Context)
    requires Distinct(contexts) && c !in contexts
    ensures Distinct(contexts + [c])
  {
  }

  class Client {
    const timeout: Option<real>
    const retryStrategy: Option<RetryStrategy>
    var context: Context
    var response: Message

    constructor (timeout: Option<real>, retryStrategy: Option<RetryStrategy>)
      ensures this.timeout == timeout && this.retryStrategy == retryStrategy
    {
      this.timeout, this.retryStrategy := timeout, retryStrategy;
      context := new Context();
      response := "";
    }

    static method ResetContext(deadline: Option<real>) returns (context: Context)
      ensures fresh(context) && context.deadline == deadline
    {
      context := new Context();
      if deadline.Some? {
        context.deadline := deadline;
      }
    }

    /** Attempt `i` yields `statuses(i)` and `responses(i)`; `used` lists the contexts of the attempts
        up to `last`. Every attempt has a context of its own, all with the deadline computed at the
        start; the result and the status are those of the last attempt. What the retry loop decides
        depends only on the statuses, so it is asked first and its actions are carried out then. */
    method Write(now: real, statuses: nat -> Status, responses: nat -> Message, horizon: nat)
      returns (result: Option<bool>, status: Status, used: seq<Context>, last: nat)
      modifies this
      ensures last <= horizon
      ensures result.Some? ==> StopsAt(retryStrategy, statuses, last) && (result.value <==> status.Ok())
      ensures result.None? ==> last == horizon && Continues(retryStrategy, statuses, last)
      ensures status == statuses(last) && response == responses(last)
      ensures |used| == last + 1
      ensures forall i :: 0 <= i < |used| ==> fresh(used[i])
      ensures Distinct(used)
      ensures forall i :: 0 <= i < |used| ==>
                used[i].deadline == if timeout.Some? then Some(now + timeout.value) else None
    {
      var deadline := if timeout.Some? then Some(now + timeout.value) else None;
      context := ResetContext(deadline);
      var actions;
      result, actions, last := RetryWithStrategy(retryStrategy, statuses, true, horizon);
      status, used := statuses(0), [];
      ActionsAt(retryStrategy, statuses, last, 0);
      for i := 0 to |actions|
        invariant |used| == (i + 2) / 3
        invariant i > 0 ==> status == statuses((i - 1) / 3) && response == responses((i - 1) / 3)
        invariant fresh(context) && context.deadline == deadline && (i % 3 == 0 ==> context !in used)
        invariant forall k :: 0 <= k < |used| ==> fresh(used[k]) && used[k].deadline == deadline
        invariant Distinct(used)
      {
        ActionsAt(retryStrategy, statuses, last, i);
        match actions[i] {
          case Attempt(k) =>
            status, response := statuses(k), responses(k);
            DistinctPush(used, context);
            used := used + [context];
          case Sleep(_) =>
          case Reset => context := ResetContext(deadline);
        }
      }
    }
  }
}
