/** Runs that show the hypotheses of the lifetime theorem are needed. */
module Witnesses {
  import opened Types
  import opened RpcModel
  import opened ServerModel
  import opened Projection
  import opened Lifetime
  import opened Delivery
  import opened EventQueues
  import Machine = RpcMachine

  ghost predicate QueuesEmpty(s: Server) {
    forall q :: 0 <= q < |s.queues| ==> s.queues[q] == []
  }

  /** gRPC completes an operation while the queues are empty: its event is next in the home queue. */
  lemma DeliverNow(s: Server, r: nat, e: Event, ok: bool, payload: Message)
    requires WellFormed(s) && QueuesEmpty(s) && r in s.active && Machine.CanComplete(s.rpcs[r], e)
    ensures Enabled(s, Deliver(r, e, ok, payload)) && Next(s, Deliver(r, e, ok, payload)).Running?
    ensures var s' := Next(s, Deliver(r, e, ok, payload)).next;
            && WellFormed(s') && s' == Store(s, r, Complete(s.rpcs[r], e, ok, payload), true).(queues := s'.queues)
            && |s'.queues| == |s.queues| && s'.queues[s.rpcs[r].homeQueue] == [Completion(r, e)]
            && forall q :: 0 <= q < |s.queues| && q != s.rpcs[r].homeQueue ==> s'.queues[q] == []
  {
    NextWellFormed(s, Deliver(r, e, ok, payload));
  }

  /** A connection that fails while the service still serves makes it use an RPC it has removed; for
      every configuration and every listening RPC. */
  lemma EarlyFailure(c: Config, r: nat)
    requires c.eventQueues > 0 && r < |Start(c).rpcs|
    ensures var run := [Deliver(r, NewConnection, false, ""), Handle(Start(c).rpcs[r].homeQueue, [])];
            Feasible(Start(c), run) && Exec(Start(c), run) == Faulted(UseAfterRemove)
  {
    var s := Start(c);
    StartedListens(c, |c.methods|, 0);
    StartedAssigned(c, |c.methods|, 0);
    var a, b := Deliver(r, NewConnection, false, ""), Handle(s.rpcs[r].homeQueue, []);
    DeliverNow(s, r, NewConnection, false, "");
    Extend(s, [], a);
    Extend(s, [a], b);
    assert [] + [a] == [a] && [a] + [b] == [a, b];
  }

  /** A connection that came up before StopServing but is handled after it leaves the RPC removed
      while DONE is still to come, and DONE then hits the removed RPC. */
  lemma LateConnection(c: Config, r: nat)
    requires c.eventQueues > 0 && r < |Start(c).rpcs|
    ensures var run := [Deliver(r, NewConnection, true, ""), Stop, Handle(Start(c).rpcs[r].homeQueue, [])];
            && Feasible(Start(c), run) && Exec(Start(c), run).Running?
            && !LifetimeExact(Exec(Start(c), run).next)
            && Feasible(Start(c), run + [Deliver(r, Done, true, "")])
            && Exec(Start(c), run + [Deliver(r, Done, true, "")]) == Faulted(StaleDispatch)
  {
    var s := Start(c);
    StartedListens(c, |c.methods|, 0);
    StartedAssigned(c, |c.methods|, 0);
    StartedGood(c, |c.methods|, 0);
    assert Machine.Invariant(View(s, r));
    var a, b, d := Deliver(r, NewConnection, true, ""), Handle(s.rpcs[r].homeQueue, []), Deliver(r, Done, true, "");
    DeliverNow(s, r, NewConnection, true, "");
    var s1 := Next(s, a).next;
    var s2 := s1.(shuttingDown := true);
    NextWellFormed(s1, Stop);
    RefuseNow(s2, r);
    ThreeSteps(s, a, Stop, b);
    Extend(s, [a, Stop, b], d);
  }

  lemma ThreeSteps(s: Server, a: Step, b: Step, d: Step)
    requires WellFormed(s) && Enabled(s, a) && Next(s, a).Running? && WellFormed(Next(s, a).next)
    requires var s1 := Next(s, a).next;
             && Enabled(s1, b) && Next(s1, b).Running? && WellFormed(Next(s1, b).next)
             && Enabled(Next(s1, b).next, d)
    ensures Feasible(s, [a, b, d]) && Exec(s, [a, b, d]) == Next(Next(Next(s, a).next, b).next, d)
  {
    Extend(s, [], a);
    Extend(s, [a], b);
    Extend(s, [a, b], d);
    assert [] + [a] == [a] && [a] + [b] == [a, b] && [a, b] + [d] == [a, b, d];
  }

  lemma RefuseNow(s: Server, r: nat)
    requires WellFormed(s) && r in s.active && s.shuttingDown
    requires s.queues[s.rpcs[r].homeQueue] == [Completion(r, NewConnection)]
    requires s.rpcs[r].inGrpc.done > 0 && s.rpcs[r].inGrpc.connection == 0
    ensures Enabled(s, Handle(s.rpcs[r].homeQueue, [])) && Next(s, Handle(s.rpcs[r].homeQueue, [])).Running?
    ensures var s' := Next(s, Handle(s.rpcs[r].homeQueue, [])).next;
            && WellFormed(s') && r < |s'.rpcs| && r !in s'.active
            && !LifetimeExact(s') && Enabled(s', Deliver(r, Done, true, ""))
  {
    NextWellFormed(s, Handle(s.rpcs[r].homeQueue, []));
    var s' := Next(s, Handle(s.rpcs[r].homeQueue, [])).next;
    assert s'.rpcs[r].inGrpc == s.rpcs[r].inGrpc;
    assert s'.rpcs[r].inGrpc.Of(Done) > 0;
    assert Outstanding(s', r);
  }
}
