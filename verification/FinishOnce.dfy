/** When an RPC finishes once and last, for every sequence of items sent to it. */
module FinishOnce {
  import opened Types
  import opened RpcModel
  import opened ServerModel
  import opened Projection
  import opened Lifetime
  import opened Delivery
  import opened EventQueues
  import opened Trace
  import opened Witnesses
  import Machine = RpcMachine

  /** An RPC with nothing to send that will stay registered because DONE is still to come. */
  ghost predicate Idle(s: Server, r: nat) {
    && Good(s) && QueuesEmpty(s) && r in s.active
    && s.rpcs[r].hasHandler && s.rpcs[r].sendQueue == [] && Done in s.rpcs[r].pending
    && Write !in s.rpcs[r].pending && Finish !in s.rpcs[r].pending
  }

  lemma StepTo(start: Server, run: seq<Step>, s: Server, a: Step) returns (run': seq<Step>, s': Server)
    requires WellFormed(start) && Feasible(start, run) && Exec(start, run) == Running(s)
    requires Good(s) && Enabled(s, a) && Next(s, a).Running?
    ensures Feasible(start, run') && Exec(start, run') == Running(s') == Next(s, a) && Good(s')
  {
    Extend(start, run, a);
    StepGood(s, a);
    run', s' := run + [a], Next(s, a).next;
  }

  /** A Writer sends on an idle RPC: the Write or Finish goes out at once. */
  lemma SendNow(start: Server, run: seq<Step>, s: Server, r: nat, item: SendItem)
    returns (run': seq<Step>, s': Server)
    requires WellFormed(start) && Feasible(start, run) && Exec(start, run) == Running(s) && Idle(s, r)
    ensures Feasible(start, run') && Exec(start, run') == Running(s')
    ensures Good(s') && QueuesEmpty(s') && r in s'.active && |s'.rpcs| == |s.rpcs|
    ensures s'.rpcs[r] == Perform(EnqueueAll(s.rpcs[r], [item]).(sendQueue := []), item)
  {
    run', s' := StepTo(start, run, s, WriterSend(r, item));
    assert s'.queues[s.rpcs[r].eventQueue] == [Internal(r)] && s'.rpcs[r].sendQueue == [item];
    WakeNow(s', r);
    run', s' := StepTo(start, run', s', Handle(s.rpcs[r].eventQueue, []));
  }

  lemma WakeNow(s: Server, r: nat)
    requires WellFormed(s) && r in s.active && Done in s.rpcs[r].pending && !SendBlocked(s.rpcs[r])
    requires s.queues[s.rpcs[r].eventQueue] == [Internal(r)]
    requires forall q :: 0 <= q < |s.queues| && q != s.rpcs[r].eventQueue ==> s.queues[q] == []
    ensures Enabled(s, Handle(s.rpcs[r].eventQueue, [])) && Next(s, Handle(s.rpcs[r].eventQueue, [])).Running?
    ensures var s' := Next(s, Handle(s.rpcs[r].eventQueue, [])).next;
            && QueuesEmpty(s') && r in s'.active && |s'.rpcs| == |s.rpcs|
            && s'.rpcs[r] == HandleSendQueue(s.rpcs[r])
  {
    var q, rpc := s.rpcs[r].eventQueue, HandleSendQueue(s.rpcs[r]);
    assert HandleEntry(s, Internal(r), []) == Handled(rpc, true, false);
    PushNothing(Store(Pop(s, q), r, rpc, true), r);
  }

  /** ... and completes. */
  lemma CompleteNow(start: Server, run: seq<Step>, s: Server, r: nat, e: Event)
    returns (run': seq<Step>, s': Server)
    requires WellFormed(start) && Feasible(start, run) && Exec(start, run) == Running(s)
    requires Good(s) && QueuesEmpty(s) && r in s.active
    requires (e == Finish || e == Write) && s.rpcs[r].inGrpc.Of(e) > 0
    requires s.rpcs[r].hasHandler && s.rpcs[r].sendQueue == [] && Done in s.rpcs[r].pending
    ensures Feasible(start, run') && Exec(start, run') == Running(s')
    ensures Idle(s', r) && |s'.rpcs| == |s.rpcs|
    ensures s'.rpcs[r].sent == s.rpcs[r].sent && s'.rpcs[r].rpcType == s.rpcs[r].rpcType
    ensures s'.rpcs[r].enqueued == s.rpcs[r].enqueued
  {
    assert Machine.Invariant(View(s, r));
    DeliverNow(s, r, e, true, "");
    run', s' := StepTo(start, run, s, Deliver(r, e, true, ""));
    if e == Finish {
      HandleFinishNow(s', r);
    } else {
      HandleWriteNow(s', r);
    }
    run', s' := StepTo(start, run', s', Handle(s.rpcs[r].homeQueue, []));
  }

  lemma HandleWriteNow(s: Server, r: nat)
    requires Good(s) && r in s.active && s.rpcs[r].hasHandler && s.rpcs[r].sendQueue == []
    requires Done in s.rpcs[r].pending && s.queues[s.rpcs[r].homeQueue] == [Completion(r, Write)]
    requires forall q :: 0 <= q < |s.queues| && q != s.rpcs[r].homeQueue ==> s.queues[q] == []
    ensures Enabled(s, Handle(s.rpcs[r].homeQueue, [])) && Next(s, Handle(s.rpcs[r].homeQueue, [])).Running?
    ensures var s' := Next(s, Handle(s.rpcs[r].homeQueue, [])).next;
            && QueuesEmpty(s') && r in s'.active && |s'.rpcs| == |s.rpcs|
            && s'.rpcs[r] == s.rpcs[r].(pending := s.rpcs[r].pending - {Write})
            && Finish !in s'.rpcs[r].pending
  {
    var q, rpc := s.rpcs[r].homeQueue, s.rpcs[r].(pending := s.rpcs[r].pending - {Write});
    assert Machine.Invariant(View(s, r));
    QueuedCompletion(s.queues[q], r, Write);
    var h := HandleEntry(s, Completion(r, Write), []);
    assert h == Handled(rpc, true, false);
    PushNothing(Store(Pop(s, q), r, rpc, true), r);
  }

  lemma HandleFinishNow(s: Server, r: nat)
    requires Good(s) && r in s.active && s.rpcs[r].hasHandler && s.rpcs[r].sendQueue == []
    requires Done in s.rpcs[r].pending && s.queues[s.rpcs[r].homeQueue] == [Completion(r, Finish)]
    requires forall q :: 0 <= q < |s.queues| && q != s.rpcs[r].homeQueue ==> s.queues[q] == []
    ensures Enabled(s, Handle(s.rpcs[r].homeQueue, [])) && Next(s, Handle(s.rpcs[r].homeQueue, [])).Running?
    ensures var s' := Next(s, Handle(s.rpcs[r].homeQueue, [])).next;
            && QueuesEmpty(s') && r in s'.active && |s'.rpcs| == |s.rpcs|
            && s'.rpcs[r] == Call(s.rpcs[r].(pending := s.rpcs[r].pending - {Finish}), OnFinish)
            && Write !in s'.rpcs[r].pending
  {
    var q := s.rpcs[r].homeQueue;
    assert Machine.Invariant(View(s, r));
    PopView(s, q, r);
    assert Machine.Queued(View(s, r), Finish);
    var h := HandleEntry(s, Completion(r, Finish), []);
    var rpc := Call(s.rpcs[r].(pending := s.rpcs[r].pending - {Finish}), OnFinish);
    assert EnqueueAll(rpc, []) == rpc;
    assert h == Handled(rpc, true, false);
    PushNothing(Store(Pop(s, q), r, rpc, true), r);
  }

  lemma AcceptNow(s: Server, r: nat)
    requires Good(s) && !s.shuttingDown && r in s.active && NewConnection in s.rpcs[r].okEvents
    requires s.queues[s.rpcs[r].homeQueue] == [Completion(r, NewConnection)]
    requires forall q :: 0 <= q < |s.queues| && q != s.rpcs[r].homeQueue ==> s.queues[q] == []
    ensures Enabled(s, Handle(s.rpcs[r].homeQueue, [])) && Next(s, Handle(s.rpcs[r].homeQueue, [])).Running?
    ensures var s' := Next(s, Handle(s.rpcs[r].homeQueue, [])).next;
            && QueuesEmpty(s') && r in s'.active && r < |s'.rpcs|
            && s'.rpcs[r] == OnConnection(s.rpcs[r].(pending := s.rpcs[r].pending - {NewConnection}))
  {
    var q := s.rpcs[r].homeQueue;
    var h := HandleEntry(s, Completion(r, NewConnection), []);
    var rpc := OnConnection(s.rpcs[r].(pending := s.rpcs[r].pending - {NewConnection}));
    assert EnqueueAll(rpc, []) == rpc;
    assert h == Handled(rpc, true, true);
    PushNothing(Store(Pop(s, q), r, rpc, true), r);
  }

  lemma FreshIsIdle(s: Server, r: nat, s': Server)
    requires Good(s) && r in s.active && s.queues[s.rpcs[r].homeQueue] == [Completion(r, NewConnection)]
    requires NewConnection in s.rpcs[r].okEvents
    requires Good(s') && QueuesEmpty(s') && r in s'.active && r < |s'.rpcs|
    requires s'.rpcs[r] == OnConnection(s.rpcs[r].(pending := s.rpcs[r].pending - {NewConnection}))
    ensures Idle(s', r) && s'.rpcs[r].rpcType == s.rpcs[r].rpcType
    ensures s'.rpcs[r].enqueued == [] && s'.rpcs[r].sent == []
  {
    var l := View(s, r);
    assert Machine.Invariant(l);
    QueuedCompletion(s.queues[s.rpcs[r].homeQueue], r, NewConnection);
    assert Machine.Unhandled(l, NewConnection) == 1;
  }

  /** Every RPC of a started server is idle once its connection is handled by a silent handler. */
  lemma IdleReached(c: Config, r: nat) returns (run: seq<Step>, s: Server)
    requires c.eventQueues > 0 && r < |Start(c).rpcs|
    ensures Reached(c, run, s) && Idle(s, r) && s.rpcs[r].rpcType == Start(c).rpcs[r].rpcType
    ensures s.rpcs[r].enqueued == [] && s.rpcs[r].sent == []
  {
    var s0 := Start(c);
    StartedListens(c, |c.methods|, 0);
    StartedAssigned(c, |c.methods|, 0);
    StartedGood(c, |c.methods|, 0);
    DeliverNow(s0, r, NewConnection, true, "");
    run, s := StepTo(s0, [], s0, Deliver(r, NewConnection, true, ""));
    var s1 := s;
    AcceptNow(s1, r);
    run, s := StepTo(s0, run, s1, Handle(s0.rpcs[r].homeQueue, []));
    FreshIsIdle(s1, r, s);
  }

  // ---------------------------------------------------------------- finishing once

  /** Each item of `w` was issued, whatever came before it. */
  ghost predicate AllIssued(rpc: RpcState, w: seq<SendItem>) {
    && rpc.enqueued == w && |rpc.sent| == |w|
    && forall i :: 0 <= i < |w| ==> rpc.sent[i] == Sent(EventFor(rpc.rpcType, w[i]), w[i])
  }

  lemma SendAndComplete(start: Server, run: seq<Step>, s: Server, r: nat, w: seq<SendItem>, item: SendItem)
    returns (run': seq<Step>, s': Server)
    requires WellFormed(start) && Feasible(start, run) && Exec(start, run) == Running(s)
    requires Idle(s, r) && AllIssued(s.rpcs[r], w)
    ensures Feasible(start, run') && Exec(start, run') == Running(s') && |s'.rpcs| == |s.rpcs|
    ensures Idle(s', r) && AllIssued(s'.rpcs[r], w + [item]) && s'.rpcs[r].rpcType == s.rpcs[r].rpcType
  {
    TerminalMeans(s.rpcs[r].rpcType, item);
    run', s' := SendNow(start, run, s, r, item);
    run', s' := CompleteNow(start, run', s', r, EventFor(s.rpcs[r].rpcType, item));
  }

  /** Every RPC of every started server can be made to issue any sequence of items, each on its own. */
  lemma AnySequence(c: Config, r: nat, w: seq<SendItem>) returns (run: seq<Step>, s: Server)
    requires c.eventQueues > 0 && r < |Start(c).rpcs|
    ensures Reached(c, run, s) && r < |s.rpcs| && SentTo(Start(c), run, r) == w && AllIssued(s.rpcs[r], w)
    ensures s.rpcs[r].rpcType == Start(c).rpcs[r].rpcType
  {
    run, s := IdleReached(c, r);
    for i := 0 to |w|
      invariant Reached(c, run, s) && Idle(s, r) && AllIssued(s.rpcs[r], w[..i])
      invariant s.rpcs[r].rpcType == Start(c).rpcs[r].rpcType
    {
      assert w[..i + 1] == w[..i] + [w[i]];
      run, s := SendAndComplete(Start(c), run, s, r, w[..i], w[i]);
    }
    assert w[..|w|] == w;
    ReachedLog(c, run, s, r);
  }

  lemma IssuedTwice(rpc: RpcState, w: seq<SendItem>)
    requires AllIssued(rpc, w) && !Machine.EndsOnce(rpc.rpcType, w)
    ensures !Machine.FinishedOnce(rpc.sent)
  {
    var i :| 0 <= i < |w| - 1 && Terminal(rpc.rpcType, w[i]);
    TerminalMeans(rpc.rpcType, w[i]);
    assert rpc.sent[i].event == Finish;
  }

  /** HandleSendQueue asks whether a Finish is pending, not whether one has happened. So an RPC to which
      the items `w` were sent finishes once and last, in every run, if and only if no item of `w` ends
      the call but possibly the last. */
  lemma FinishOnceIffEndsOnce(c: Config, r: nat, w: seq<SendItem>)
    requires c.eventQueues > 0 && r < |Start(c).rpcs|
    ensures (forall run, s :: Reached(c, run, s) && r < |s.rpcs| && SentTo(Start(c), run, r) == w ==>
               Machine.FinishedOnce(s.rpcs[r].sent))
            <==> Machine.EndsOnce(Start(c).rpcs[r].rpcType, w)
  {
    var t := Start(c).rpcs[r].rpcType;
    if Machine.EndsOnce(t, w) {
      forall run, s | Reached(c, run, s) && r < |s.rpcs| && SentTo(Start(c), run, r) == w
        ensures Machine.FinishedOnce(s.rpcs[r].sent)
      {
        StartedGood(c, |c.methods|, 0);
        RunQueues(Start(c), run);
        assert SameIdentity(Start(c).rpcs[r], s.rpcs[r]);
        ReachedLog(c, run, s, r);
        FinishesAsIssued(c, run, s, r);
      }
    } else {
      var run, s := AnySequence(c, r, w);
      IssuedTwice(s.rpcs[r], w);
      assert Reached(c, run, s) && SentTo(Start(c), run, r) == w && !Machine.FinishedOnce(s.rpcs[r].sent);
    }
  }
}
