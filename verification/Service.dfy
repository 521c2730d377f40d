/** The same server as objects that are updated in place: `Rpc`, and the `Service` with ActiveRpcs,
    the event queues and the queue selector. Every method is proved to do what ServerModel says. */
module ServiceObjects {
  import opened Types
  import opened RpcModel
  import opened ServerModel
  import opened Lifetime
  import opened Shutdown

  class Rpc {
    const id: nat                     // the address of the object
    const methodIndex: nat
    const completionQueue: nat
    const rpcType: RpcType
    const homeQueue: nat
    var eventQueue: nat
    var pending: set<Event>
    var okEvents: set<Event>
    var request: Message
    var response: Message
    var hasHandler: bool
    var sendQueue: seq<SendItem>
    ghost var inGrpc: Ops             // held by the reader and writer objects
    ghost var enqueued: seq<SendItem>
    ghost var sent: seq<Sent>
    ghost var received: seq<Message>
    ghost var calls: seq<Callback>

    ghost function State(): RpcState
      reads this
    {
      RpcState(methodIndex, completionQueue, rpcType, homeQueue, eventQueue, pending, okEvents, request,
               response, hasHandler, sendQueue, inGrpc, enqueued, sent, received, calls)
    }

    constructor (id: nat, methodIndex: nat, completionQueue: nat, rpcType: RpcType, queue: nat)
      ensures this.id == id && State() == NewRpc(methodIndex, completionQueue, rpcType, queue)
    {
      this.id, this.methodIndex, this.completionQueue := id, methodIndex, completionQueue;
      this.rpcType, this.homeQueue, eventQueue := rpcType, queue, queue;
      pending, okEvents, request, response, hasHandler, sendQueue := {}, {}, "", "", false, [];
      inGrpc, enqueued, sent, received, calls := Ops(0, 0, 0, 0, 0), [], [], [], [];
    }

    method Clone(id: nat) returns (rpc: Rpc)
      ensures fresh(rpc) && rpc.id == id && rpc.State() == RpcModel.Clone(State())
    {
      rpc := new Rpc(id, methodIndex, completionQueue, rpcType, eventQueue);
    }

    method SetEventQueue(queue: nat)
      modifies this
      ensures State() == RpcModel.SetEventQueue(old(State()), queue)
    {
      eventQueue := queue;
    }

    /** Hands an operation to gRPC: the pending flag goes up first. */
    method RequestOperation(e: Event)
      modifies this
      ensures State() == old(State()).(pending := old(pending) + {e}, inGrpc := old(inGrpc).Plus(e))
    {
      pending := pending + {e};
      inGrpc := inGrpc.Plus(e);
    }

    method RequestNextMethodInvocation()
      modifies this
      ensures State() == RpcModel.RequestNextMethodInvocation(old(State()))
    {
      RequestOperation(Done);
      RequestOperation(NewConnection);
      assert pending == old(pending) + {Done, NewConnection};
    }

    method Callback(c: Callback)
      modifies this
      ensures State() == Call(old(State()), c)
    {
      calls := calls + [c];
    }

    method RequestStreamingReadIfNeeded()
      modifies this
      ensures State() == RpcModel.RequestStreamingReadIfNeeded(old(State()))
    {
      match rpcType {
        case BidiStreaming => RequestOperation(Read);
        case ClientStreaming => RequestOperation(Read);
        case _ =>
          Callback(OnRequest(request));
          Callback(OnReadsDone);
      }
    }

    method OnConnection()
      modifies this
      ensures State() == RpcModel.OnConnection(old(State()))
    {
      if !hasHandler {
        hasHandler := true;
        Callback(Initialize);
      }
      RequestStreamingReadIfNeeded();
    }

    method EnqueueMessage(item: SendItem)
      modifies this
      ensures State() == EnqueueAll(old(State()), [item])
    {
      sendQueue := sendQueue + [item];
      enqueued := enqueued + [item];
    }

    method HandleSendQueue()
      modifies this
      ensures State() == RpcModel.HandleSendQueue(old(State()))
    {
      if sendQueue == [] || Write in pending || Finish in pending {
        return;
      }
      var item := sendQueue[0];
      sendQueue := sendQueue[1..];
      if item.msg.None? || rpcType == NormalRpc || rpcType == ClientStreaming {
        PerformFinish(item);
        return;
      }
      PerformWrite(item);
    }

    method PerformFinish(item: SendItem)
      requires rpcType.StreamsResponses() ==> item.msg.None?
      modifies this
      ensures State() == RpcModel.PerformFinish(old(State()), item)
    {
      pending := pending + {Finish};
      if item.msg.Some? {
        response := item.msg.value;
      }
      inGrpc := inGrpc.Plus(Finish);
      sent := sent + [Sent(Finish, item)];
    }

    method PerformWrite(item: SendItem)
      requires item.msg.Some? && rpcType != NormalRpc && rpcType != ClientStreaming
      modifies this
      ensures State() == RpcModel.PerformWrite(old(State()), item)
    {
      pending := pending + {Write};
      response := item.msg.value;
      inGrpc := inGrpc.Plus(Write);
      sent := sent + [Sent(Write, item)];
    }

    method IsAnyEventPending() returns (any: bool)
      ensures any <==> RpcModel.IsAnyEventPending(State())
    {
      any := Done in pending || Read in pending || Write in pending || Finish in pending;
    }

    /** gRPC completes the operation and the completion queue runner stores `ok`. */
    method CompleteOperation(e: Event, ok: bool, payload: Message)
      requires inGrpc.Of(e) > 0
      modifies this
      ensures State() == Complete(old(State()), e, ok, payload)
    {
      var fills := ok && (e == Read || (e == NewConnection && (rpcType == NormalRpc || rpcType == ServerStreaming)));
      if fills {
        request := payload;
        received := received + [payload];
      }
      okEvents := if ok then okEvents + {e} else okEvents - {e};
      inGrpc := if e == NewConnection && !ok then inGrpc.Minus(e).Minus(Done) else inGrpc.Minus(e);
    }
  }

  class Service {
    var objects: seq<Rpc>             // every RPC, by address
    var activeRpcs: set<nat>
    var queues: seq<seq<QueuedEvent>>
    var shuttingDown: bool
    var currentQueue: nat

    ghost function State(): Server
      reads this, objects
    {
      Server(seq(|objects|, i requires 0 <= i < |objects| reads this, objects => objects[i].State()),
             activeRpcs, queues, shuttingDown, currentQueue)
    }

    /** Distinct objects at distinct addresses. */
    ghost predicate Valid()
      reads this, objects
    {
      forall i :: 0 <= i < |objects| ==> objects[i].id == i
    }

    constructor (eventQueues: nat)
      requires eventQueues > 0
      ensures Valid() && objects == []
      ensures forall c: Config :: c.eventQueues == eventQueues ==> State() == Started(c, 0, 0)
    {
      objects, activeRpcs, shuttingDown, currentQueue := [], {}, false, 0;
      queues := seq(eventQueues, _ => []);
    }

    method SelectNextEventQueueRoundRobin() returns (q: nat)
      requires |queues| > 0
      modifies this`currentQueue
      ensures q == currentQueue == SelectNextEventQueue(old(State()))
    {
      currentQueue := (currentQueue + 1) % |queues|;
      q := currentQueue;
    }

    /** ActiveRpcs::Add and the first request: the object gets the next address. */
    method Register(rpc: Rpc, queue: nat)
      requires Valid() && rpc !in objects && rpc.id == |objects|
      modifies this, rpc
      ensures Valid() && objects == old(objects) + [rpc]
      ensures State() == old(State()).(
        rpcs := old(State()).rpcs + [RequestNextMethodInvocation(SetEventQueue(old(rpc.State()), queue))],
        active := old(activeRpcs) + {|old(objects)|})
    {
      rpc.SetEventQueue(queue);
      activeRpcs := activeRpcs + {rpc.id};
      objects := objects + [rpc];
      rpc.RequestNextMethodInvocation();
    }

    method AddListener(methodIndex: nat, completionQueue: nat, rpcType: RpcType)
      requires Valid() && |queues| > 0
      modifies this
      ensures Valid() && State() == ServerModel.AddListener(old(State()), methodIndex, completionQueue, rpcType)
      ensures |objects| == |old(objects)| + 1 && objects[..|old(objects)|] == old(objects)
      ensures fresh(objects[|old(objects)|])
    {
      var q := SelectNextEventQueueRoundRobin();
      var rpc := new Rpc(|objects|, methodIndex, completionQueue, rpcType, q);
      Register(rpc, q);
    }

    method StartServing(c: Config)
      requires Valid() && c.eventQueues > 0 && State() == Started(c, 0, 0)
      modifies this
      ensures Valid() && State() == Start(c)
    {
      var i := 0;
      while i < |c.methods|
        invariant 0 <= i <= |c.methods| && Valid() && State() == Started(c, i, 0)
      {
        var j := 0;
        while j < c.completionQueues
          invariant 0 <= j <= c.completionQueues && Valid() && State() == Started(c, i, j)
        {
          AddListener(i, j, c.methods[i]);
          j := j + 1;
        }
        i := i + 1;
      }
    }

    method StopServing()
      requires Valid()
      modifies this`shuttingDown
      ensures Valid() && State() == old(State()).(shuttingDown := true)
    {
      shuttingDown := true;
    }

    /** The handler sends: each item is enqueued and a WRITE_NEEDED event pushed. */
    method SendAll(r: nat, items: seq<SendItem>)
      requires Valid() && r < |objects| && objects[r].eventQueue < |queues|
      modifies this`queues, objects[r]
      ensures Valid()
      ensures State() == PushWakeups(Store(old(State()), r, EnqueueAll(old(State()).rpcs[r], items), true), r, |items|)
    {
      var rpc := objects[r];
      var k := 0;
      assert EnqueueAll(State().rpcs[r], items[..0]) == State().rpcs[r];
      assert queues[rpc.eventQueue] + Internals(r, 0) == queues[rpc.eventQueue];
      while k < |items|
        invariant 0 <= k <= |items| && Valid() && rpc.eventQueue == old(rpc.eventQueue) < |queues|
        invariant rpc.State() == EnqueueAll(old(State()).rpcs[r], items[..k])
        invariant queues == old(queues)[rpc.eventQueue := old(queues)[rpc.eventQueue] + Internals(r, k)]
      {
        rpc.EnqueueMessage(items[k]);
        queues := queues[rpc.eventQueue := queues[rpc.eventQueue] + [Internal(r)]];
        assert items[..k + 1] == items[..k] + [items[k]];
        assert old(queues)[rpc.eventQueue] + Internals(r, k) + [Internal(r)]
            == old(queues)[rpc.eventQueue] + Internals(r, k + 1);
        k := k + 1;
      }
      assert items[..k] == items;
    }

    /** A callback in which the handler sends. */
    method Notify(r: nat, c: Callback, items: seq<SendItem>)
      requires Valid() && r < |objects| && objects[r].eventQueue < |queues|
      modifies this`queues, objects[r]
      ensures Valid()
      ensures State() == PushWakeups(Store(old(State()), r, EnqueueAll(Call(old(State()).rpcs[r], c), items), true),
                                     r, |items|)
    {
      objects[r].Callback(c);
      assert State() == Store(old(State()), r, objects[r].State(), true);
      SendAll(r, items);
    }

    /** A clone of the RPC takes the next event queue and listens. */
    method SpawnListener(r: nat)
      requires Valid() && r < |objects| && |queues| > 0
      modifies this
      ensures Valid() && State() == ServerModel.Register(old(State()), Clone(old(State()).rpcs[r]))
      ensures |objects| == |old(objects)| + 1 && objects[..|old(objects)|] == old(objects)
      ensures fresh(objects[|old(objects)|])
    {
      var clone := objects[r].Clone(|objects|);
      var q := SelectNextEventQueueRoundRobin();
      Register(clone, q);
    }

    method RemoveIfNotPending(r: nat)
      requires Valid() && r < |objects|
      modifies this`activeRpcs
      ensures Valid()
      ensures State() == Store(old(State()), r, old(State()).rpcs[r], IsAnyEventPending(old(State()).rpcs[r]))
    {
      var any := objects[r].IsAnyEventPending();
      if !any {
        activeRpcs := activeRpcs - {r};
      }
    }

    /** RPC `r` exists, is in ActiveRpcs and knows its queue. */
    ghost predicate Registered(r: nat)
      reads this, objects
    {
      Valid() && r < |objects| && r in activeRpcs && objects[r].eventQueue < |queues|
    }

    /** The state is what handling event `e` for RPC `r` makes of state `s`, or the handling has this
        fault. */
    ghost predicate Leaves(s: Server, r: nat, e: Event, ok: bool, items: seq<SendItem>, fault: Option<Fault>)
      reads this, objects
    {
      && r < |s.rpcs|
      && var h := RpcModel.HandleEvent(s.rpcs[r], e, ok, s.shuttingDown, items);
         if fault.Some? then h == Faulty(fault.value)
         else h.Handled? && h.rpc.eventQueue < |s.queues| && Running(State()) == Settle(s, r, h, |items|)
    }

    /** New objects are only appended, and none once the service is stopping. */
    ghost predicate Grown(was: seq<Rpc>, stopped: bool)
      reads this
    {
      |objects| >= |was| && objects[..|was|] == was && (stopped ==> objects == was)
    }

    /** Refuses the connection once the service is stopping. A failed one is removed, and the clone
        would then be taken from an object that does not exist any more. */
    method HandleNewConnection(r: nat, ok: bool, items: seq<SendItem>) returns (fault: Option<Fault>)
      requires Registered(r) && (items == [] || RunsHandler(NewConnection, ok, shuttingDown))
      modifies this, objects[r]
      ensures Valid()
      ensures Leaves(old(State()), r, NewConnection, ok, items, fault)
      ensures Grown(old(objects), old(shuttingDown))
      ensures forall i :: |old(objects)| <= i < |objects| ==> fresh(objects[i])
    {
      if shuttingDown {
        activeRpcs := activeRpcs - {r};
        PushNothing(State(), r);
        return None;
      }
      if !ok {
        activeRpcs := activeRpcs - {r};
        return Some(UseAfterRemove);
      }
      Connect(r, items);
      SpawnListener(r);
      fault := None;
    }

    method Connect(r: nat, items: seq<SendItem>)
      requires Valid() && r < |objects| && objects[r].eventQueue < |queues|
      modifies this`queues, objects[r]
      ensures Valid()
      ensures var rpc := EnqueueAll(OnConnection(old(State()).rpcs[r]), items);
              State() == PushWakeups(Store(old(State()), r, rpc, true), r, |items|)
    {
      objects[r].OnConnection();
      assert State() == Store(old(State()), r, objects[r].State(), true);
      SendAll(r, items);
    }

    method ReadOn(r: nat, items: seq<SendItem>)
      requires Registered(r) && objects[r].hasHandler
      modifies this`queues, objects[r]
      ensures Valid() && Leaves(old(State()), r, Read, true, items, None)
    {
      Notify(r, OnRequest(objects[r].request), items);
      ghost var notified := State();
      objects[r].RequestStreamingReadIfNeeded();
      assert State() == Store(notified, r, objects[r].State(), true);
    }

    method HandleRead(r: nat, ok: bool, items: seq<SendItem>) returns (fault: Option<Fault>)
      requires Registered(r)
      modifies this, objects[r]
      ensures Valid() && objects == old(objects)
      ensures Leaves(old(State()), r, Read, ok, items, fault)
    {
      if !objects[r].hasHandler {
        return Some(NoHandler);
      }
      fault := None;
      if ok {
        ReadOn(r, items);
        return;
      }
      Notify(r, OnReadsDone, items);
      RemoveIfNotPending(r);
    }

    method HandleWrite(r: nat, ok: bool)
      requires Registered(r)
      modifies this, objects[r]
      ensures Valid() && objects == old(objects)
      ensures Leaves(old(State()), r, Write, ok, [], None)
    {
      var rpc := objects[r];
      rpc.HandleSendQueue();
      assert State() == Store(old(State()), r, rpc.State(), true);
      RemoveIfNotPending(r);
      PushNothing(State(), r);
    }

    method HandleFinish(r: nat, ok: bool, items: seq<SendItem>) returns (fault: Option<Fault>)
      requires Registered(r)
      modifies this, objects[r]
      ensures Valid() && objects == old(objects)
      ensures Leaves(old(State()), r, Finish, ok, items, fault)
    {
      if !objects[r].hasHandler {
        return Some(NoHandler);
      }
      Notify(r, OnFinish, items);
      RemoveIfNotPending(r);
      fault := None;
    }

    method HandleDone(r: nat, ok: bool)
      requires Registered(r)
      modifies this, objects[r]
      ensures Valid() && objects == old(objects)
      ensures Leaves(old(State()), r, Done, ok, [], None)
    {
      RemoveIfNotPending(r);
      PushNothing(State(), r);
    }

    method HandleEvent(e: Event, r: nat, ok: bool, items: seq<SendItem>) returns (fault: Option<Fault>)
      requires Registered(r) && (items == [] || RunsHandler(e, ok, shuttingDown))
      modifies this, objects[r]
      ensures Valid()
      ensures Leaves(old(State()), r, e, ok, items, fault)
      ensures Grown(old(objects), old(shuttingDown))
      ensures forall i :: |old(objects)| <= i < |objects| ==> fresh(objects[i])
    {
      fault := None;
      match e {
        case NewConnection => fault := HandleNewConnection(r, ok, items);
        case Read => fault := HandleRead(r, ok, items);
        case WriteNeeded => HandleWrite(r, ok);
        case Write => HandleWrite(r, ok);
        case Finish => fault := HandleFinish(r, ok, items);
        case Done => HandleDone(r, ok);
      }
    }

    /** The state is the next one, or the step has this fault. */
    ghost predicate Follows(o: Outcome, fault: Option<Fault>)
      reads this, objects
    {
      o == if fault.Some? then Faulted(fault.value) else Running(State())
    }

    /** One round of RunCompletionQueue; the event is part of an object that must still exist. */
    method OnCompletion(r: nat, e: Event, ok: bool, payload: Message) returns (fault: Option<Fault>)
      requires Valid() && WellFormed(State()) && Enabled(State(), Deliver(r, e, ok, payload))
      modifies this`queues, objects[r]
      ensures Valid() && Follows(Next(old(State()), Deliver(r, e, ok, payload)), fault)
    {
      if r !in activeRpcs {
        return Some(StaleDispatch);
      }
      var rpc := objects[r];
      assert rpc.State() == State().rpcs[r];
      rpc.CompleteOperation(e, ok, payload);
      queues := queues[rpc.homeQueue := queues[rpc.homeQueue] + [Completion(r, e)]];
      assert State().rpcs == old(State()).rpcs[r := rpc.State()];
      fault := None;
    }

    /** Writer::Write, WritesDone and Finish. */
    method WriterSend(r: nat, item: SendItem) returns (accepted: bool)
      requires Valid() && WellFormed(State()) && Enabled(State(), ServerModel.WriterSend(r, item))
      modifies this`queues, objects[r]
      ensures Valid() && Running(State()) == Next(old(State()), ServerModel.WriterSend(r, item))
      ensures accepted <==> WriterAccepts(old(State()), r)
    {
      accepted := r in activeRpcs;
      if accepted {
        assert objects[r].State() == State().rpcs[r];
        SendAll(r, [item]);
      }
    }

    /** CompletionQueueRpcEvent::Handle. */
    method HandleCompletionEvent(e: Event, r: nat, items: seq<SendItem>) returns (fault: Option<Fault>)
      requires Registered(r) && (items == [] || RunsHandler(e, e in objects[r].okEvents, shuttingDown))
      modifies this, objects[r]
      ensures Valid()
      ensures var h := HandleCompletion(old(State()).rpcs[r], e, old(shuttingDown), items);
              if fault.Some? then h == Faulty(fault.value)
              else h.Handled? && h.rpc.eventQueue < |old(queues)|
                   && Running(State()) == Settle(old(State()), r, h, |items|)
      ensures Grown(old(objects), old(shuttingDown))
      ensures forall i :: |old(objects)| <= i < |objects| ==> fresh(objects[i])
    {
      var rpc := objects[r];
      rpc.pending := rpc.pending - {e};
      ghost var cleared := rpc.State();
      assert State() == Store(old(State()), r, cleared, true);
      fault := HandleEvent(e, r, e in rpc.okEvents, items);
      if fault.None? {
        SettleOverwrites(old(State()), r, cleared,
                         HandleCompletion(old(State()).rpcs[r], e, old(shuttingDown), items), |items|);
      }
    }

    /** One round of RunEventQueue whose pop did not time out. */
    method HandleNext(q: nat, items: seq<SendItem>) returns (fault: Option<Fault>)
      requires Valid() && WellFormed(State()) && Enabled(State(), Handle(q, items))
      modifies this, objects
      ensures Valid() && Follows(Next(old(State()), Handle(q, items)), fault)
      ensures Grown(old(objects), old(shuttingDown))
      ensures forall i :: |old(objects)| <= i < |objects| ==> fresh(objects[i])
    {
      var e := queues[q][0];
      assert QueueOk(State(), q, e);
      assert objects[e.rpc].State() == State().rpcs[e.rpc];
      queues := queues[q := queues[q][1..]];
      assert State() == Pop(old(State()), q);
      fault := None;
      match e {
        case Internal(r) =>
          if r in activeRpcs {
            fault := HandleEvent(WriteNeeded, r, true, []);
          }
        case Completion(r, event) =>
          if r !in activeRpcs {
            return Some(StaleDispatch);
          }
          fault := HandleCompletionEvent(event, r, items);
      }
    }

    /** The head of the queue is handled; if its handler runs, it sends `answer`. */
    method DrainOne(q: nat, answer: seq<SendItem>) returns (fault: Option<Fault>, ghost items: seq<SendItem>)
      requires Valid() && WellFormed(State()) && shuttingDown && q < |queues| && queues[q] != []
      modifies this, objects
      ensures Valid() && objects == old(objects) && Enabled(old(State()), Handle(q, items))
      ensures Follows(Next(old(State()), Handle(q, items)), fault)
      ensures old(Orderly(q)) ==> fault.None? && Orderly(q)
    {
      var e := queues[q][0];
      assert QueueOk(State(), q, e);
      assert objects[e.rpc].State() == State().rpcs[e.rpc];
      var sends := if e.Completion? && RunsHandler(e.event, e.event in objects[e.rpc].okEvents, shuttingDown)
                   then answer else [];
      items := sends;
      if Orderly(q) {
        QueueDrains(State(), q, items);
        QueueShrinks(State(), q, items);
      }
      fault := HandleNext(q, sends);
    }

    /** The last loop of RunEventQueue, with `answers(k)` what the handler sends when it runs in round
        k. It ends; and if the registry was exact and only failed connections waited, it has handled
        the whole queue without fault. */
    method FinishEventQueue(q: nat, answers: nat -> seq<SendItem>)
      returns (fault: Option<Fault>, ghost run: seq<Step>)
      requires Valid() && WellFormed(State()) && shuttingDown && q < |queues|
      modifies this, objects
      ensures Valid() && objects == old(objects)
      ensures Feasible(old(State()), run) && HandlesOnly(run, q) && Follows(Exec(old(State()), run), fault)
      ensures fault.None? ==> OnlyWakeupsAdded(old(queues), queues, q) && queues[q] == []
      ensures old(Orderly(q)) ==> fault.None? && Orderly(q)
    {
      fault, run := None, [];
      var k := 0;
      DrainedNothing(State(), q);
      while queues[q] != []
        invariant Valid() && objects == old(objects) && q < |queues|
        invariant fault == None && Drained(old(State()), run, q, State())
        invariant old(Orderly(q)) ==> Orderly(q)
        decreases CompletionsIn(queues[q]), |queues[q]|
      {
        ghost var before, items := State(), [];
        fault, items := DrainOne(q, answers(k));
        DrainedStep(old(State()), run, q, before, items);
        run := run + [Handle(q, items)];
        if fault.Some? {
          return;
        }
        k := k + 1;
      }
    }

    ghost predicate Orderly(q: nat)
      reads this, objects
    {
      && Good(State()) && LifetimeExact(State()) && shuttingDown && q < |queues|
      && ConnectionsFailed(State(), q)
    }
  }
}
