/** What every run promises about sending, receiving and the handler's callbacks. */
module Delivery {
  import opened Types
  import opened RpcModel
  import opened ServerModel
  import opened Projection
  import opened Lifetime
  import Machine = RpcMachine

  /** `s` is the state after some run of the server. */
  ghost predicate Reached(c: Config, run: seq<Step>, s: Server)
    requires c.eventQueues > 0
  {
    WellFormed(s) && Feasible(Start(c), run) && Exec(Start(c), run) == Running(s)
  }

  lemma ReachedGood(c: Config, run: seq<Step>, s: Server)
    requires c.eventQueues > 0 && Reached(c, run, s)
    ensures Good(s)
  {
    StartedGood(c, |c.methods|, 0);
    RunGood(Start(c), run);
  }

  /** Send order: the items handed to gRPC in issue order, then the send queue, are all items ever
      enqueued; and the response slot that gRPC reads holds the latest message handed over. */
  lemma SendsInOrder(c: Config, run: seq<Step>, s: Server, r: nat)
    requires c.eventQueues > 0 && Reached(c, run, s) && r < |s.rpcs|
    ensures Machine.Items(s.rpcs[r].sent) + s.rpcs[r].sendQueue == s.rpcs[r].enqueued
    ensures s.rpcs[r].response == Machine.LastBody(s.rpcs[r].sent)
  {
    ReachedGood(c, run, s);
    assert Machine.Invariant(View(s, r));
  }

  lemma {:induction false} WakeupQueued(q: seq<QueuedEvent>, r: nat)
    ensures Wakeups(q, r) > 0 ==> Internal(r) in q
  {
    if q != [] {
      WakeupQueued(q[1..], r);
    }
  }

  /** A registered RPC with queued items that has not finished has a send outstanding, or a
      WRITE_NEEDED event in its queue. */
  lemma SendsWillBeSeen(c: Config, run: seq<Step>, s: Server, r: nat)
    requires c.eventQueues > 0 && Reached(c, run, s) && r in s.active
    requires s.rpcs[r].sendQueue != [] && OnFinish !in s.rpcs[r].calls
    ensures Machine.Unhandled(View(s, r), Write) + Machine.Unhandled(View(s, r), Finish) == 1
            || Internal(r) in s.queues[s.rpcs[r].eventQueue]
  {
    ReachedGood(c, run, s);
    assert Machine.Invariant(View(s, r));
    WakeupQueued(s.queues[s.rpcs[r].eventQueue], r);
  }

  /** Nothing is outstanding twice, and of WRITE and FINISH at most one is. */
  lemma SingleOutstanding(c: Config, run: seq<Step>, s: Server, r: nat)
    requires c.eventQueues > 0 && Reached(c, run, s) && r < |s.rpcs|
    ensures Machine.Unhandled(View(s, r), Write) + Machine.Unhandled(View(s, r), Finish) <= 1
    ensures Machine.Unhandled(View(s, r), Read) <= 1
    ensures Machine.Unhandled(View(s, r), NewConnection) <= 1 && Machine.Unhandled(View(s, r), Done) <= 1
  {
    ReachedGood(c, run, s);
    assert Machine.Invariant(View(s, r));
  }

  lemma LocalResponseHeld(l: Machine.Local, a: Machine.Action)
    requires Machine.OpsOk(l) && Machine.Enabled(l, a) && Machine.Step(l, a).Running?
    requires l.rpc.inGrpc.write + l.rpc.inGrpc.finish > 0
    ensures Machine.Step(l, a).next.rpc.response == l.rpc.response
  {
    if a.Handle? {
      assert Machine.Queued(l, l.inbox[0]);
    }
  }

  /** While gRPC holds the response slot for a Write or Finish, no step overwrites it. */
  lemma ResponseHeld(c: Config, run: seq<Step>, s: Server, a: Step, r: nat)
    requires c.eventQueues > 0 && Reached(c, run, s) && r < |s.rpcs|
    requires Enabled(s, a) && Next(s, a).Running?
    requires s.rpcs[r].inGrpc.write + s.rpcs[r].inGrpc.finish > 0
    ensures r < |Next(s, a).next.rpcs| && Next(s, a).next.rpcs[r].response == s.rpcs[r].response
  {
    ReachedGood(c, run, s);
    assert Machine.Invariant(View(s, r));
    StepProjects(s, a, r);
    var p := Projected(s, a, r);
    if p.Some? {
      LocalResponseHeld(View(s, r), p.value);
    }
    assert View(Next(s, a).next, r).rpc.response == s.rpcs[r].response;
  }

  /** An RPC has finished once and last exactly if the items issued so far end the call at most once;
      so nothing goes wrong when nothing is enqueued after the item that ends the call. */
  lemma FinishesAsIssued(c: Config, run: seq<Step>, s: Server, r: nat)
    requires c.eventQueues > 0 && Reached(c, run, s) && r < |s.rpcs|
    ensures |s.rpcs[r].sent| <= |s.rpcs[r].enqueued|
    ensures Machine.FinishedOnce(s.rpcs[r].sent) <==>
              Machine.EndsOnce(s.rpcs[r].rpcType, s.rpcs[r].enqueued[..|s.rpcs[r].sent|])
    ensures Machine.EndsOnce(s.rpcs[r].rpcType, s.rpcs[r].enqueued) ==> Machine.FinishedOnce(s.rpcs[r].sent)
  {
    ReachedGood(c, run, s);
    assert Machine.Invariant(View(s, r));
    var rpc := s.rpcs[r];
    assert rpc.enqueued[..|rpc.sent|] == Machine.Items(rpc.sent);
    forall i | 0 <= i < |rpc.sent|
      ensures rpc.sent[i].event == if Terminal(rpc.rpcType, rpc.enqueued[i]) then Finish else Write
    {
      assert Machine.Items(rpc.sent)[i] == rpc.sent[i].item;
    }
  }

  /** Handler callbacks: without OnFinish they are Initialize, one OnRequest for each message, and
      OnReadsDone once reading is over; OnFinish comes once for each completed Finish; and nothing
      comes before the connection. */
  lemma CallbackProtocol(c: Config, run: seq<Step>, s: Server, r: nat)
    requires c.eventQueues > 0 && Reached(c, run, s) && r < |s.rpcs|
    ensures var rpc, l := s.rpcs[r], View(s, r);
            && (rpc.calls == [] || Machine.WithoutFinish(rpc.calls) ==
                  Machine.Protocol(Machine.Requests(rpc.calls), Machine.Unhandled(l, Read) == 0))
            && (rpc.calls != [] && (rpc.rpcType.NormalRpc? || rpc.rpcType.ServerStreaming?) ==>
                  |Machine.Requests(rpc.calls)| == 1)
            && Machine.OnFinishCount(rpc.calls) == Machine.FinishCount(rpc.sent) - Machine.Unhandled(l, Finish)
            && (Machine.Unhandled(l, NewConnection) > 0 ==> rpc.calls == [])
  {
    ReachedGood(c, run, s);
    assert Machine.Invariant(View(s, r));
  }

  lemma LocalHome(l: Machine.Local, a: Machine.Action)
    requires Machine.Enabled(l, a) && Machine.Step(l, a).Running?
    ensures var l' := Machine.Step(l, a).next;
            l'.rpc.homeQueue == l.rpc.homeQueue && (l'.rpc.calls == l.rpc.calls || (a.Handle? && l.active))
  {
  }

  /** A callback happens when the thread of the RPC's home queue handles one of its completion events. */
  lemma StepOnHomeThread(s: Server, a: Step, r: nat)
    requires WellFormed(s) && r < |s.rpcs| && Enabled(s, a) && Next(s, a).Running?
    ensures WellFormed(Next(s, a).next) && r < |Next(s, a).next.rpcs|
    ensures var s' := Next(s, a).next;
            && s'.rpcs[r].homeQueue == s.rpcs[r].homeQueue
            && (s'.rpcs[r].calls == s.rpcs[r].calls
                || (a.Handle? && a.queue == s.rpcs[r].homeQueue && r in s.active))
  {
    NextWellFormed(s, a);
    StepProjects(s, a, r);
    if a.Handle? {
      assert QueueOk(s, a.queue, s.queues[a.queue][0]);
    }
    assert View(Next(s, a).next, r).rpc == Next(s, a).next.rpcs[r];
    if Projected(s, a, r).Some? {
      LocalHome(View(s, r), Projected(s, a, r).value);
    }
  }

  lemma NewIsSilent(s: Server, a: Step, r: nat)
    requires WellFormed(s) && Enabled(s, a) && Next(s, a).Running? && |s.rpcs| <= r < |Next(s, a).next.rpcs|
    ensures Next(s, a).next.rpcs[r].calls == []
  {
    StepSpawns(s, a);
    assert View(Next(s, a).next, r).rpc == Next(s, a).next.rpcs[r];
  }

  /** In the run, handlers of RPC `r` are called only by the thread of queue `q`, and only while the RPC
      is registered; before it exists there is nothing to call. */
  ghost predicate CallsOnlyFrom(s: Server, run: seq<Step>, r: nat, q: nat)
    requires WellFormed(s) && Feasible(s, run)
    decreases |run|
  {
    run == [] || Next(s, run[0]).Faulted? ||
    (NextWellFormed(s, run[0]);
     var s' := Next(s, run[0]).next;
     && (r < |s'.rpcs| && s'.rpcs[r].calls != (if r < |s.rpcs| then s.rpcs[r].calls else []) ==>
           run[0].Handle? && run[0].queue == q && r in s.active)
     && CallsOnlyFrom(s', run[1..], r, q))
  }

  lemma RunCallsOnlyFrom(s: Server, run: seq<Step>, r: nat)
    requires Good(s) && Feasible(s, run) && Exec(s, run).Running? && r < |Exec(s, run).next.rpcs|
    ensures CallsOnlyFrom(s, run, r, Exec(s, run).next.rpcs[r].homeQueue)
    ensures r < |s.rpcs| ==> Exec(s, run).next.rpcs[r].homeQueue == s.rpcs[r].homeQueue
    decreases |run|
  {
    if run != [] {
      var s' := Next(s, run[0]).next;
      StepGood(s, run[0]);
      RunCallsOnlyFrom(s', run[1..], r);
      if r < |s.rpcs| {
        StepOnHomeThread(s, run[0], r);
      } else if r < |s'.rpcs| {
        NewIsSilent(s, run[0], r);
      }
    }
  }

  /** All callbacks of an RPC, throughout every run, are made by one thread: that of the queue it was
      constructed with. */
  lemma CallbacksOnHomeThread(c: Config, run: seq<Step>, s: Server, r: nat)
    requires c.eventQueues > 0 && Reached(c, run, s) && r < |s.rpcs|
    ensures CallsOnlyFrom(Start(c), run, r, s.rpcs[r].homeQueue)
  {
    StartedGood(c, |c.methods|, 0);
    RunCallsOnlyFrom(Start(c), run, r);
  }

  /** Requests: the handler sees what gRPC read, in order; all of it but the one message that may
      wait in the request slot, unless the RPC was refused before it had a handler. */
  lemma RequestsInOrder(c: Config, run: seq<Step>, s: Server, r: nat)
    requires c.eventQueues > 0 && Reached(c, run, s) && r < |s.rpcs|
    ensures Machine.Requests(s.rpcs[r].calls) <= s.rpcs[r].received
    ensures r in s.active || s.rpcs[r].hasHandler ==>
              Machine.Requests(s.rpcs[r].calls) + Machine.Undelivered(View(s, r)) == s.rpcs[r].received
    ensures |Machine.Undelivered(View(s, r))| <= 1
  {
    ReachedGood(c, run, s);
    assert Machine.Invariant(View(s, r));
  }

  /** A Writer is accepted only by an RPC with something outstanding; and by every such RPC if
      connections come up exactly while serving. */
  lemma WriterAcceptedWhileOutstanding(c: Config, run: seq<Step>, s: Server, r: nat)
    requires c.eventQueues > 0 && Reached(c, run, s) && r < |s.rpcs|
    ensures WriterAccepts(s, r) ==> Outstanding(s, r)
    ensures RunConnectsWhileServing(Start(c), run) ==> (WriterAccepts(s, r) <==> Outstanding(s, r))
  {
    ReachedGood(c, run, s);
    assert Machine.Invariant(View(s, r));
    OutstandingMeansUnhandled(s, r);
    ExactLifetime(c, run);
    if RunConnectsWhileServing(Start(c), run) {
      RunExactEnds(Start(c), run);
    }
  }
}
