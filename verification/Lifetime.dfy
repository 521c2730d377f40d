/** What holds in every run of the server, for every RPC, and when the set of registered RPCs is
    exactly the set of RPCs with something outstanding. */
module Lifetime {
  import opened Types
  import opened RpcModel
  import opened ServerModel
  import opened Projection
  import Machine = RpcMachine

  /** Every RPC's own invariant holds. */
  ghost predicate Good(s: Server) {
    WellFormed(s) && forall r :: 0 <= r < |s.rpcs| ==> Machine.Invariant(View(s, r))
  }

  /** An operation of RPC `r` is with gRPC, or its completion event is in some event queue. */
  ghost predicate Outstanding(s: Server, r: nat)
    requires r < |s.rpcs|
  {
    exists e: Event :: s.rpcs[r].inGrpc.Of(e) > 0 || InQueue(s, Completion(r, e))
  }

  ghost predicate InQueue(s: Server, x: QueuedEvent) {
    exists q :: 0 <= q < |s.queues| && x in s.queues[q]
  }

  /** ActiveRpcs holds exactly the RPCs with something outstanding. */
  ghost predicate LifetimeExact(s: Server) {
    forall r :: 0 <= r < |s.rpcs| ==> (r in s.active <==> Outstanding(s, r))
  }

  // ---------------------------------------------------------------- the definition of outstanding

  lemma QueuedCompletion(q: seq<QueuedEvent>, r: nat, e: Event)
    ensures Completion(r, e) in q <==> Machine.Count(Completions(q, r), e) > 0
  {
    if q != [] {
      QueuedCompletion(q[1..], r, e);
      var rest := Completions(q[1..], r);
      assert q == [q[0]] + q[1..];
      if q[0].Completion? && q[0].rpc == r {
        assert ([q[0].event] + rest)[1..] == rest;
      } else {
        assert [] + rest == rest;
      }
    }
  }

  lemma InHomeQueue(s: Server, r: nat, e: Event)
    requires WellFormed(s) && r < |s.rpcs|
    ensures InQueue(s, Completion(r, e)) <==> Completion(r, e) in s.queues[s.rpcs[r].homeQueue]
  {
    forall q | 0 <= q < |s.queues| && Completion(r, e) in s.queues[q] ensures q == s.rpcs[r].homeQueue {
      var i :| 0 <= i < |s.queues[q]| && s.queues[q][i] == Completion(r, e);
      assert QueueOk(s, q, s.queues[q][i]);
    }
  }

  lemma OutstandingMeansUnhandled(s: Server, r: nat)
    requires Good(s) && r < |s.rpcs|
    ensures Outstanding(s, r) <==> Machine.AnyUnhandled(View(s, r))
  {
    assert Machine.Invariant(View(s, r));
    forall e: Event
      ensures (s.rpcs[r].inGrpc.Of(e) > 0 || InQueue(s, Completion(r, e))) <==> Machine.Unhandled(View(s, r), e) > 0
    {
      InHomeQueue(s, r, e);
      QueuedCompletion(s.queues[s.rpcs[r].homeQueue], r, e);
    }
    if Outstanding(s, r) {
      var e: Event :| s.rpcs[r].inGrpc.Of(e) > 0 || InQueue(s, Completion(r, e));
      assert Machine.Unhandled(View(s, r), e) > 0;
    }
  }

  lemma ExactMeansLocallyExact(s: Server)
    requires Good(s)
    ensures LifetimeExact(s) <==> forall r :: 0 <= r < |s.rpcs| ==> Machine.LifetimeExact(View(s, r))
  {
    forall r | 0 <= r < |s.rpcs|
      ensures Machine.LifetimeExact(View(s, r)) <==> (r in s.active <==> Outstanding(s, r))
    {
      OutstandingMeansUnhandled(s, r);
    }
  }

  // ---------------------------------------------------------------- one step

  /** If the step handles a connection, it came up exactly if the service still serves. */
  ghost predicate ConnectsWhileServing(s: Server, a: Step)
    requires WellFormed(s) && Enabled(s, a)
  {
    a.Handle? && s.queues[a.queue][0].Completion? && s.queues[a.queue][0].event == NewConnection ==>
      var r := s.queues[a.queue][0].rpc;
      r < |s.rpcs| && (NewConnection in s.rpcs[r].okEvents <==> !s.shuttingDown)
  }

  lemma AddListenerGood(s: Server, m: nat, c: nat, t: RpcType)
    requires Good(s) && LifetimeExact(s)
    ensures Good(AddListener(s, m, c, t)) && LifetimeExact(AddListener(s, m, c, t))
  {
    var q, s' := SelectNextEventQueue(s), AddListener(s, m, c, t);
    RegisteredView(s, NewRpc(m, c, t, q));
    Machine.NewListenerInvariant(m, c, t, q, q);
    ExactMeansLocallyExact(s);
    forall r | 0 <= r < |s'.rpcs| ensures Machine.Invariant(View(s', r)) && Machine.LifetimeExact(View(s', r)) {
      if r < |s.rpcs| {
        RegisterView(s, NewRpc(m, c, t, q), r);
      }
    }
    ExactMeansLocallyExact(s');
  }

  lemma StartedGood(c: Config, i: nat, j: nat)
    requires c.eventQueues > 0 && j <= c.completionQueues && i <= |c.methods| && (j > 0 ==> i < |c.methods|)
    ensures Good(Started(c, i, j)) && LifetimeExact(Started(c, i, j))
    decreases i, j
  {
    if j > 0 {
      StartedGood(c, i, j - 1);
      AddListenerGood(Started(c, i, j - 1), i, j - 1, c.methods[i]);
    } else if i > 0 {
      StartedGood(c, i - 1, c.completionQueues);
    }
  }

  lemma StepViews(s: Server, a: Step, r: nat)
    requires Good(s) && Enabled(s, a) && Next(s, a).Running? && WellFormed(Next(s, a).next)
    requires r < |Next(s, a).next.rpcs|
    ensures Machine.Invariant(View(Next(s, a).next, r))
    ensures LifetimeExact(s) && ConnectsWhileServing(s, a) ==> Machine.LifetimeExact(View(Next(s, a).next, r))
  {
    ExactMeansLocallyExact(s);
    StepSpawns(s, a);
    if r == |s.rpcs| {
      var parent := s.rpcs[s.queues[a.queue][0].rpc];
      Machine.NewListenerInvariant(parent.methodIndex, parent.completionQueue, parent.rpcType, parent.eventQueue,
                                   SelectNextEventQueue(s));
    } else {
      StepProjects(s, a, r);
      var p := Projected(s, a, r);
      if p.Some? {
        HeadIsNext(s, a, r);
        Machine.StepInvariant(View(s, r), p.value);
      }
    }
  }

  lemma HeadIsNext(s: Server, a: Step, r: nat)
    requires Good(s) && Enabled(s, a) && r < |s.rpcs| && Projected(s, a, r).Some?
    ensures ConnectsWhileServing(s, a) <==> Machine.ConnectsWhileServing(View(s, r), Projected(s, a, r).value)
  {
    if a.Handle? {
      PopView(s, a.queue, r);
    }
  }

  lemma StepGood(s: Server, a: Step)
    requires Good(s) && Enabled(s, a) && Next(s, a).Running?
    ensures Good(Next(s, a).next)
  {
    NextWellFormed(s, a);
    forall r | 0 <= r < |Next(s, a).next.rpcs| ensures Machine.Invariant(View(Next(s, a).next, r)) {
      StepViews(s, a, r);
    }
  }

  /** From an exact lifetime, a step leads to an exact lifetime without fault if and only if it does
      not handle a connection that came up too late or failed too early. */
  lemma StepExact(s: Server, a: Step)
    requires Good(s) && LifetimeExact(s) && Enabled(s, a)
    ensures ConnectsWhileServing(s, a) <==> Next(s, a).Running? && LifetimeExact(Next(s, a).next)
  {
    ExactMeansLocallyExact(s);
    if a.Deliver? || a.Handle? {
      var r := if a.Deliver? then a.rpc else s.queues[a.queue][0].rpc;
      if a.Handle? {
        assert QueueOk(s, a.queue, s.queues[a.queue][0]);
      }
      StepProjects(s, a, r);
      HeadIsNext(s, a, r);
      Machine.StepInvariant(View(s, r), Projected(s, a, r).value);
    }
    if Next(s, a).Running? {
      StepGood(s, a);
      ExactMeansLocallyExact(Next(s, a).next);
      if ConnectsWhileServing(s, a) {
        forall r | 0 <= r < |Next(s, a).next.rpcs| ensures Machine.LifetimeExact(View(Next(s, a).next, r)) {
          StepViews(s, a, r);
        }
      }
    }
  }

  // ---------------------------------------------------------------- runs

  /** In every run, every RPC's invariant holds at every step. */
  lemma RunGood(s: Server, run: seq<Step>)
    requires Good(s) && Feasible(s, run) && Exec(s, run).Running?
    ensures Good(Exec(s, run).next)
    decreases |run|
  {
    if run != [] {
      StepGood(s, run[0]);
      RunGood(Next(s, run[0]).next, run[1..]);
    }
  }

  ghost predicate RunConnectsWhileServing(s: Server, run: seq<Step>)
    requires WellFormed(s) && Feasible(s, run)
    decreases |run|
  {
    run == [] ||
    (ConnectsWhileServing(s, run[0]) &&
     if Next(s, run[0]).Faulted? then true
     else NextWellFormed(s, run[0]); RunConnectsWhileServing(Next(s, run[0]).next, run[1..]))
  }

  /** No step of the run goes wrong, and the lifetime is exact before and after each. */
  ghost predicate RunExact(s: Server, run: seq<Step>)
    requires WellFormed(s) && Feasible(s, run)
    decreases |run|
  {
    && LifetimeExact(s)
    && (run == [] ||
        if Next(s, run[0]).Faulted? then false
        else NextWellFormed(s, run[0]); RunExact(Next(s, run[0]).next, run[1..]))
  }

  lemma ExactRuns(s: Server, run: seq<Step>)
    requires Good(s) && LifetimeExact(s) && Feasible(s, run)
    ensures RunExact(s, run) <==> RunConnectsWhileServing(s, run)
    decreases |run|
  {
    if run != [] {
      StepExact(s, run[0]);
      if ConnectsWhileServing(s, run[0]) {
        StepGood(s, run[0]);
        ExactRuns(Next(s, run[0]).next, run[1..]);
      } else if Next(s, run[0]).Running? {
        NextWellFormed(s, run[0]);
        assert !RunExact(Next(s, run[0]).next, run[1..]);
      }
    }
  }

  /** ActiveRpcs holds exactly the RPCs with something outstanding, and nothing is dispatched to a
      removed RPC, throughout a run from the start, if and only if every connection handled in the
      run came up exactly while the service was serving. */
  lemma ExactLifetime(c: Config, run: seq<Step>)
    requires c.eventQueues > 0 && Feasible(Start(c), run)
    ensures RunExact(Start(c), run) <==> RunConnectsWhileServing(Start(c), run)
  {
    StartedGood(c, |c.methods|, 0);
    ExactRuns(Start(c), run);
  }

  lemma RunExactEnds(s: Server, run: seq<Step>)
    requires WellFormed(s) && Feasible(s, run) && RunExact(s, run)
    ensures Exec(s, run).Running? && LifetimeExact(Exec(s, run).next)
    decreases |run|
  {
    if run != [] {
      NextWellFormed(s, run[0]);
      RunExactEnds(Next(s, run[0]).next, run[1..]);
    }
  }

  /** Under that condition, the destructor of ActiveRpcs finds it empty exactly if gRPC holds no
      operation and no completion event is queued. */
  lemma NothingLeftBehind(c: Config, run: seq<Step>)
    requires c.eventQueues > 0 && Feasible(Start(c), run)
    requires RunConnectsWhileServing(Start(c), run)
    ensures Exec(Start(c), run).Running?
    ensures var s := Exec(Start(c), run).next;
            s.active == {} <==> forall r :: 0 <= r < |s.rpcs| ==> !Outstanding(s, r)
  {
    ExactLifetime(c, run);
    RunExactEnds(Start(c), run);
    var s := Exec(Start(c), run).next;
    if forall r :: 0 <= r < |s.rpcs| ==> !Outstanding(s, r) {
      forall r ensures r !in s.active {}
    }
  }
}
