/** The life of one RPC: its value, the completion events waiting for it in its event queue, the
    number of queued WRITE_NEEDED events and whether it is in ActiveRpcs. Every step of the server
    projects to at most one step of this machine for each RPC (module Projection). */
module RpcMachine {
  import opened Types
  import opened RpcModel

  datatype Local = Local(rpc: RpcState, inbox: seq<Event>, wakeups: nat, active: bool)

  datatype Action =
    | Deliver(event: Event, ok: bool, payload: Message)     // gRPC completes an operation
    | Handle(stopped: bool, items: seq<SendItem>)           // the next completion event is handled
    | Wake                                                  // a WRITE_NEEDED event is handled
    | Enqueue(item: SendItem)                               // whoever holds the RPC sends

  datatype LocalOutcome = Faulted(fault: Fault) | Running(next: Local)

  function NewListener(r: RpcState): Local {
    Local(RequestNextMethodInvocation(r), [], 0, true)
  }

  /** gRPC's side of the contract for completions: only issued operations complete, and DONE not
      before the connection. */
  predicate CanComplete(r: RpcState, e: Event) {
    r.inGrpc.Of(e) > 0 && (e == Done ==> r.inGrpc.Of(NewConnection) == 0)
  }

  predicate Enabled(l: Local, a: Action) {
    match a
    case Deliver(e, _, _) => CanComplete(l.rpc, e)
    case Handle(stopped, items) =>
      l.inbox != [] && (items == [] || RunsHandler(l.inbox[0], l.inbox[0] in l.rpc.okEvents, stopped))
    case Wake => l.wakeups > 0
    case Enqueue(_) => l.rpc.hasHandler
  }

  function Settle(l: Local, h: Handled, sent: nat): LocalOutcome {
    if h.Faulty? then Faulted(h.fault)
    else Running(l.(rpc := h.rpc, wakeups := l.wakeups + sent, active := h.keep))
  }

  function Step(l: Local, a: Action): LocalOutcome
    requires Enabled(l, a)
  {
    match a
    case Deliver(e, ok, payload) =>
      if !l.active then Faulted(StaleDispatch)
      else Running(l.(rpc := Complete(l.rpc, e, ok, payload), inbox := l.inbox + [e]))
    case Handle(stopped, items) =>
      if !l.active then Faulted(StaleDispatch)
      else Settle(l.(inbox := l.inbox[1..]), HandleCompletion(l.rpc, l.inbox[0], stopped, items), |items|)
    case Wake =>
      var l' := l.(wakeups := l.wakeups - 1);
      if !l.active then Running(l')
      else Settle(l', HandleEvent(l.rpc, WriteNeeded, true, false, []), 0)
    case Enqueue(item) =>
      Running(l.(rpc := EnqueueAll(l.rpc, [item]), wakeups := l.wakeups + 1))
  }

  /** A connection that is handled came up exactly if the service is still serving. */
  predicate ConnectsWhileServing(l: Local, a: Action) {
    a.Handle? && l.inbox != [] && l.inbox[0] == NewConnection ==>
      (NewConnection in l.rpc.okEvents <==> !a.stopped)
  }

  // ---------------------------------------------------------------- histories

  function Items(sent: seq<Sent>): seq<SendItem> {
    seq(|sent|, i requires 0 <= i < |sent| => sent[i].item)
  }

  function FinishCount(sent: seq<Sent>): nat {
    if sent == [] then 0
    else FinishCount(sent[..|sent|-1]) + if sent[|sent|-1].event == Finish then 1 else 0
  }

  /** The latest message handed to gRPC. */
  function LastBody(sent: seq<Sent>): Message {
    if sent == [] then ""
    else
      var msg := sent[|sent|-1].item.msg;
      if msg.Some? then msg.value else LastBody(sent[..|sent|-1])
  }

  /** No item ends the call but possibly the last. */
  ghost predicate EndsOnce(t: RpcType, items: seq<SendItem>) {
    forall i :: 0 <= i < |items| - 1 ==> !Terminal(t, items[i])
  }

  /** At most one Finish was issued, after every Write and with nothing after it. */
  ghost predicate FinishedOnce(sent: seq<Sent>) {
    forall i :: 0 <= i < |sent| && sent[i].event == Finish ==> i == |sent| - 1
  }

  function Requests(calls: seq<Callback>): seq<Message> {
    if calls == [] then []
    else
      var c := calls[|calls|-1];
      Requests(calls[..|calls|-1]) + if c.OnRequest? then [c.request] else []
  }

  function WithoutFinish(calls: seq<Callback>): seq<Callback> {
    if calls == [] then []
    else
      var c := calls[|calls|-1];
      WithoutFinish(calls[..|calls|-1]) + if c.OnFinish? then [] else [c]
  }

  function OnFinishCount(calls: seq<Callback>): nat {
    if calls == [] then 0
    else OnFinishCount(calls[..|calls|-1]) + if calls[|calls|-1].OnFinish? then 1 else 0
  }

  /** The callbacks a handler sees: Initialize, one OnRequest per message, then OnReadsDone. */
  function Protocol(messages: seq<Message>, readsDone: bool): seq<Callback> {
    [Initialize] + seq(|messages|, i requires 0 <= i < |messages| => OnRequest(messages[i]))
    + if readsDone then [OnReadsDone] else []
  }

  function Count(events: seq<Event>, e: Event): nat {
    if events == [] then 0 else (if events[0] == e then 1 else 0) + Count(events[1..], e)
  }

  /** The completion event waits in the event queue. */
  predicate Queued(l: Local, e: Event) {
    Count(l.inbox, e) > 0
  }

  /** The message read but not yet shown to the handler. */
  function Undelivered(l: Local): seq<Message> {
    if (Queued(l, Read) && Read in l.rpc.okEvents)
       || (Queued(l, NewConnection) && NewConnection in l.rpc.okEvents && !l.rpc.rpcType.StreamsRequests())
    then [l.rpc.request] else []
  }

  // ---------------------------------------------------------------- invariants

  /** The operations of the RPC that are still to be handled. */
  function Unhandled(l: Local, e: Event): nat {
    l.rpc.inGrpc.Of(e) + Count(l.inbox, e)
  }

  predicate AnyUnhandled(l: Local) {
    || Unhandled(l, NewConnection) > 0 || Unhandled(l, Read) > 0 || Unhandled(l, Write) > 0
    || Unhandled(l, Finish) > 0 || Unhandled(l, Done) > 0
  }

  /** Nothing is outstanding twice, and WRITE and FINISH exclude each other. */
  ghost predicate OutstandingOk(l: Local) {
    && Unhandled(l, NewConnection) <= 1 && Unhandled(l, Read) <= 1 && Unhandled(l, Done) <= 1
    && Unhandled(l, Write) + Unhandled(l, Finish) <= 1
    && Unhandled(l, WriteNeeded) == 0
  }

  /** The pending flags of a registered RPC tell what is outstanding; a removed one has at most
      DONE left. */
  ghost predicate PendingOk(l: Local) {
    var r := l.rpc;
    if l.active then
      && AnyUnhandled(l)
      && (NewConnection in r.pending <==> Unhandled(l, NewConnection) == 1)
      && (Read in r.pending <==> Unhandled(l, Read) == 1)
      && (Write in r.pending <==> Unhandled(l, Write) == 1)
      && (Finish in r.pending <==> Unhandled(l, Finish) == 1)
      && (Done in r.pending <==>
            Unhandled(l, Done) == 1 || (Queued(l, NewConnection) && NewConnection !in r.okEvents))
    else
      Unhandled(l, NewConnection) == Unhandled(l, Read) == Unhandled(l, Write) == Unhandled(l, Finish) == 0
  }

  /** The connection precedes everything else, and a handler exists from then on. */
  ghost predicate ConnectionFirst(l: Local) {
    var r := l.rpc;
    && (Queued(l, NewConnection) ==>
          l.inbox[0] == NewConnection && (NewConnection in r.okEvents <==> Unhandled(l, Done) == 1))
    && (r.inGrpc.Of(NewConnection) > 0 ==> l.inbox == [] && Unhandled(l, Done) == 1 && r.received == [])
    && (Unhandled(l, NewConnection) > 0 ==>
          Unhandled(l, Read) == Unhandled(l, Write) == Unhandled(l, Finish) == 0 && !r.hasHandler)
    && (l.active && Unhandled(l, NewConnection) == 0 ==> r.hasHandler)
    && (!r.hasHandler ==> r.sendQueue == r.enqueued == [] && r.sent == [] && r.calls == [])
    && (Unhandled(l, Read) > 0 ==> r.rpcType.StreamsRequests())
  }

  ghost predicate OpsOk(l: Local) {
    OutstandingOk(l) && PendingOk(l) && ConnectionFirst(l)
  }

  /** What was handed to gRPC, then what is queued, is what was enqueued; terminal items, and only
      those, became a Finish; the response slot holds the latest message. */
  ghost predicate SendOrder(l: Local) {
    var r := l.rpc;
    && Items(r.sent) + r.sendQueue == r.enqueued
    && r.response == LastBody(r.sent)
    && forall i :: 0 <= i < |r.sent| ==>
         r.sent[i].event == if Terminal(r.rpcType, r.sent[i].item) then Finish else Write
  }

  /** OnFinish is called once for every completed Finish. */
  ghost predicate FinishesOk(l: Local) {
    OnFinishCount(l.rpc.calls) + Unhandled(l, Finish) == FinishCount(l.rpc.sent)
  }

  ghost predicate ProtocolOk(l: Local) {
    l.rpc.hasHandler ==>
      && WithoutFinish(l.rpc.calls) == Protocol(Requests(l.rpc.calls), Unhandled(l, Read) == 0)
      && (!l.rpc.rpcType.StreamsRequests() ==> |Requests(l.rpc.calls)| == 1)
  }

  /** The handler has seen what gRPC read, in order, up to the message in the request slot. */
  ghost predicate RequestsOk(l: Local) {
    l.active || l.rpc.hasHandler ==> Requests(l.rpc.calls) + Undelivered(l) == l.rpc.received
  }

  /** A queued item will be looked at: by the completion of the send in progress or a wakeup. */
  ghost predicate WakeupOk(l: Local) {
    l.rpc.sendQueue != [] ==>
      Write in l.rpc.pending || Finish in l.rpc.pending || l.wakeups > 0 || OnFinish in l.rpc.calls
  }

  ghost predicate Invariant(l: Local) {
    OpsOk(l) && SendOrder(l) && FinishesOk(l) && ProtocolOk(l) && RequestsOk(l) && (l.active ==> WakeupOk(l))
  }

  /** Registered exactly while something is outstanding. */
  ghost predicate LifetimeExact(l: Local) {
    l.active <==> AnyUnhandled(l)
  }

  lemma NewListenerInvariant(m: nat, c: nat, t: RpcType, home: nat, queue: nat)
    ensures Invariant(NewListener(SetEventQueue(NewRpc(m, c, t, home), queue)))
    ensures LifetimeExact(NewListener(SetEventQueue(NewRpc(m, c, t, home), queue)))
  {
  }

  lemma CountPush(events: seq<Event>, x: Event, e: Event)
    ensures Count(events + [x], e) == Count(events, e) + if x == e then 1 else 0
  {
    if events != [] {
      assert (events + [x])[1..] == events[1..] + [x];
    }
  }

  lemma PushInbox(events: seq<Event>, x: Event)
    ensures forall e :: Count(events + [x], e) == Count(events, e) + if x == e then 1 else 0
  {
    forall e ensures Count(events + [x], e) == Count(events, e) + if x == e then 1 else 0 {
      CountPush(events, x, e);
    }
  }

  // ---------------------------------------------------------------- the operations are consistent

  lemma DeliverOps(l: Local, e: Event, ok: bool, payload: Message)
    requires OpsOk(l) && l.active && CanComplete(l.rpc, e)
    ensures OpsOk(Step(l, Deliver(e, ok, payload)).next)
    ensures LifetimeExact(Step(l, Deliver(e, ok, payload)).next)
  {
    PushInbox(l.inbox, e);
    var l' := Step(l, Deliver(e, ok, payload)).next;
    assert Unhandled(l, e) > 0;
  }

  lemma HandleConnectionOps(l: Local, stopped: bool, items: seq<SendItem>)
    requires OpsOk(l) && l.active && Enabled(l, Handle(stopped, items)) && l.inbox[0] == NewConnection
    ensures var o := Step(l, Handle(stopped, items));
            if !stopped && NewConnection !in l.rpc.okEvents then o.Faulted?
            else o.Running? && OpsOk(o.next)
                 && (LifetimeExact(o.next) <==> ConnectsWhileServing(l, Handle(stopped, items)))
  {
  }

  lemma HandleReadOps(l: Local, stopped: bool, items: seq<SendItem>)
    requires OpsOk(l) && l.active && Enabled(l, Handle(stopped, items)) && l.inbox[0] == Read
    ensures var o := Step(l, Handle(stopped, items)); o.Running? && OpsOk(o.next) && LifetimeExact(o.next)
  {
  }

  lemma HandleWriteOps(l: Local, stopped: bool)
    requires OpsOk(l) && l.active && Enabled(l, Handle(stopped, [])) && l.inbox[0] == Write
    ensures var o := Step(l, Handle(stopped, [])); o.Running? && OpsOk(o.next) && LifetimeExact(o.next)
  {
  }

  lemma HandleFinishOps(l: Local, stopped: bool, items: seq<SendItem>)
    requires OpsOk(l) && l.active && Enabled(l, Handle(stopped, items)) && l.inbox[0] == Finish
    ensures var o := Step(l, Handle(stopped, items)); o.Running? && OpsOk(o.next) && LifetimeExact(o.next)
  {
  }

  lemma HandleDoneOps(l: Local, stopped: bool)
    requires OpsOk(l) && l.active && Enabled(l, Handle(stopped, [])) && l.inbox[0] == Done
    ensures var o := Step(l, Handle(stopped, [])); o.Running? && OpsOk(o.next) && LifetimeExact(o.next)
  {
  }

  /** Handling a completion event of a registered RPC goes wrong exactly if it is the failed
      connection of a service that still serves; and the RPC then is registered exactly while
      something is outstanding if and only if connections come up exactly while serving. */
  lemma HandleOps(l: Local, stopped: bool, items: seq<SendItem>)
    requires OpsOk(l) && l.active && Enabled(l, Handle(stopped, items))
    ensures var o := Step(l, Handle(stopped, items));
            if l.inbox[0] == NewConnection && !stopped && NewConnection !in l.rpc.okEvents then o.Faulted?
            else o.Running? && OpsOk(o.next)
                 && (LifetimeExact(o.next) <==> ConnectsWhileServing(l, Handle(stopped, items)))
  {
    assert Queued(l, l.inbox[0]);
    match l.inbox[0] {
      case NewConnection => HandleConnectionOps(l, stopped, items);
      case Read => HandleReadOps(l, stopped, items);
      case Write => HandleWriteOps(l, stopped);
      case Finish => HandleFinishOps(l, stopped, items);
      case Done => HandleDoneOps(l, stopped);
      case WriteNeeded => assert false;
    }
  }

  lemma WakeOps(l: Local)
    requires OpsOk(l) && l.wakeups > 0
    ensures Step(l, Wake).Running? && OpsOk(Step(l, Wake).next)
    ensures LifetimeExact(l) ==> LifetimeExact(Step(l, Wake).next)
  {
  }

  // ---------------------------------------------------------------- sends

  lemma SentHistories(sent: seq<Sent>, s: Sent)
    ensures Items(sent + [s]) == Items(sent) + [s.item]
    ensures LastBody(sent + [s]) == if s.item.msg.Some? then s.item.msg.value else LastBody(sent)
  {
    assert (sent + [s])[..|sent|] == sent;
  }

  lemma PerformSendOrder(l: Local, r: RpcState)
    requires SendOrder(l) && l.rpc.sendQueue != []
    requires r == l.rpc.(sendQueue := r.sendQueue, pending := r.pending) && r.sendQueue == l.rpc.sendQueue[1..]
    ensures SendOrder(l.(rpc := Perform(r, l.rpc.sendQueue[0])))
  {
    var item := l.rpc.sendQueue[0];
    SentHistories(r.sent, Sent(if Terminal(r.rpcType, item) then Finish else Write, item));
    assert l.rpc.sendQueue == [item] + r.sendQueue;
  }

  lemma HandleSendQueueOrder(l: Local, pending: set<Event>)
    requires SendOrder(l)
    ensures SendOrder(l.(rpc := HandleSendQueue(l.rpc.(pending := pending))))
  {
    var r := l.rpc.(pending := pending);
    if !SendBlocked(r) {
      PerformSendOrder(l, r.(sendQueue := r.sendQueue[1..]));
    }
  }

  lemma EnqueueOrder(l: Local, l': Local, items: seq<SendItem>)
    requires SendOrder(l)
    requires l'.rpc.sent == l.rpc.sent && l'.rpc.rpcType == l.rpc.rpcType && l'.rpc.response == l.rpc.response
    requires l'.rpc.sendQueue == l.rpc.sendQueue + items && l'.rpc.enqueued == l.rpc.enqueued + items
    ensures SendOrder(l')
  {
  }

  lemma HandleOrder(l: Local, stopped: bool, items: seq<SendItem>)
    requires SendOrder(l) && Enabled(l, Handle(stopped, items)) && Step(l, Handle(stopped, items)).Running?
    ensures SendOrder(Step(l, Handle(stopped, items)).next)
  {
    var l' := Step(l, Handle(stopped, items)).next;
    if l.inbox[0] == Write || l.inbox[0] == WriteNeeded {
      HandleSendQueueOrder(l, l.rpc.pending - {l.inbox[0]});
    } else {
      EnqueueOrder(l, l', items);
    }
  }

  lemma StepSendOrder(l: Local, a: Action)
    requires SendOrder(l) && Enabled(l, a) && Step(l, a).Running?
    ensures SendOrder(Step(l, a).next)
  {
    match a {
      case Deliver(_, _, _) => EnqueueOrder(l, Step(l, a).next, []);
      case Handle(stopped, items) => HandleOrder(l, stopped, items);
      case Wake => HandleSendQueueOrder(l, l.rpc.pending);
      case Enqueue(item) => EnqueueOrder(l, Step(l, a).next, [item]);
    }
  }

  // ---------------------------------------------------------------- callbacks

  lemma CallHistories(calls: seq<Callback>, c: Callback)
    ensures Requests(calls + [c]) == Requests(calls) + if c.OnRequest? then [c.request] else []
    ensures WithoutFinish(calls + [c]) == WithoutFinish(calls) + if c.OnFinish? then [] else [c]
    ensures OnFinishCount(calls + [c]) == OnFinishCount(calls) + if c.OnFinish? then 1 else 0
  {
    assert (calls + [c])[..|calls|] == calls;
  }

  lemma ConnectionHistories(m: Message)
    ensures var calls := [Initialize, OnRequest(m), OnReadsDone];
            Requests(calls) == [m] && WithoutFinish(calls) == Protocol([m], true) && OnFinishCount(calls) == 0
    ensures Requests([Initialize]) == [] && WithoutFinish([Initialize]) == Protocol([], false)
    ensures OnFinishCount([Initialize]) == 0
  {
    CallHistories([], Initialize);
    CallHistories([Initialize], OnRequest(m));
    CallHistories([Initialize, OnRequest(m)], OnReadsDone);
    assert [Initialize] + [OnRequest(m)] == [Initialize, OnRequest(m)];
    assert [Initialize, OnRequest(m)] + [OnReadsDone] == [Initialize, OnRequest(m), OnReadsDone];
  }

  lemma ProtocolGrows(messages: seq<Message>, m: Message)
    ensures Protocol(messages + [m], false) == Protocol(messages, false) + [OnRequest(m)]
    ensures Protocol(messages, true) == Protocol(messages, false) + [OnReadsDone]
  {
  }

  /** Sending touches neither the reads nor the callbacks, and counts its Finish. */
  lemma HandleSendQueueFrame(r: RpcState)
    ensures var r' := HandleSendQueue(r);
            && r'.calls == r.calls && r'.received == r.received && r'.hasHandler == r.hasHandler
            && r'.request == r.request && r'.okEvents == r.okEvents && r'.rpcType == r.rpcType
            && r'.inGrpc.Of(Read) == r.inGrpc.Of(Read) && r'.inGrpc.Of(NewConnection) == r.inGrpc.Of(NewConnection)
            && FinishCount(r'.sent) - r'.inGrpc.Of(Finish) == FinishCount(r.sent) - r.inGrpc.Of(Finish)
  {
    var r' := HandleSendQueue(r);
    if r' != r {
      assert r'.sent[..|r.sent|] == r.sent;
    }
  }

  /** The step that handles the head of the inbox, on the three properties of the callbacks. */
  lemma HandleConnectionCallbacks(l: Local, stopped: bool, items: seq<SendItem>)
    requires OutstandingOk(l) && ConnectionFirst(l) && FinishesOk(l) && RequestsOk(l)
    requires l.active && Enabled(l, Handle(stopped, items))
    requires l.inbox[0] == NewConnection && Step(l, Handle(stopped, items)).Running?
    ensures var l' := Step(l, Handle(stopped, items)).next; FinishesOk(l') && ProtocolOk(l') && RequestsOk(l')
  {
    var l' := Step(l, Handle(stopped, items)).next;
    ConnectionHistories(l.rpc.request);
    if !stopped {
      assert l'.rpc.calls == if l.rpc.rpcType.StreamsRequests() then [Initialize]
                             else [Initialize, OnRequest(l.rpc.request), OnReadsDone];
      assert Requests(l.rpc.calls) == [];
    }
  }

  lemma RequestCallbacks(l: Local, stopped: bool, items: seq<SendItem>)
    requires OutstandingOk(l) && ConnectionFirst(l) && FinishesOk(l) && ProtocolOk(l) && RequestsOk(l)
    requires l.active && Enabled(l, Handle(stopped, items)) && l.inbox[0] == Read && Read in l.rpc.okEvents
    ensures var l' := Step(l, Handle(stopped, items)).next; FinishesOk(l') && ProtocolOk(l') && RequestsOk(l')
  {
    var r, l' := l.rpc, Step(l, Handle(stopped, items)).next;
    assert Undelivered(l') == [];
    CallHistories(r.calls, OnRequest(r.request));
    ProtocolGrows(Requests(r.calls), r.request);
    assert l'.rpc.calls == r.calls + [OnRequest(r.request)];
  }

  lemma ReadsDoneCallbacks(l: Local, stopped: bool, items: seq<SendItem>)
    requires OutstandingOk(l) && ConnectionFirst(l) && FinishesOk(l) && ProtocolOk(l) && RequestsOk(l)
    requires l.active && Enabled(l, Handle(stopped, items)) && l.inbox[0] == Read && Read !in l.rpc.okEvents
    ensures var l' := Step(l, Handle(stopped, items)).next; FinishesOk(l') && ProtocolOk(l') && RequestsOk(l')
  {
    var r, l' := l.rpc, Step(l, Handle(stopped, items)).next;
    assert Undelivered(l') == [];
    CallHistories(r.calls, OnReadsDone);
    ProtocolGrows(Requests(r.calls), r.request);
    assert l'.rpc.calls == r.calls + [OnReadsDone];
  }

  lemma HandleFinishCallbacks(l: Local, stopped: bool, items: seq<SendItem>)
    requires OutstandingOk(l) && ConnectionFirst(l) && FinishesOk(l) && ProtocolOk(l) && RequestsOk(l)
    requires l.active && Enabled(l, Handle(stopped, items)) && l.inbox[0] == Finish
    ensures Step(l, Handle(stopped, items)).Running?
    ensures var l' := Step(l, Handle(stopped, items)).next; FinishesOk(l') && ProtocolOk(l') && RequestsOk(l')
  {
    var l' := Step(l, Handle(stopped, items)).next;
    CallHistories(l.rpc.calls, OnFinish);
    assert l'.rpc.calls == l.rpc.calls + [OnFinish];
    assert Unhandled(l', Read) == Unhandled(l, Read) && Unhandled(l', Finish) == Unhandled(l, Finish) - 1;
    assert Undelivered(l') == Undelivered(l);
  }

  lemma HandleSilentCallbacks(l: Local, stopped: bool)
    requires OutstandingOk(l) && ConnectionFirst(l) && FinishesOk(l) && ProtocolOk(l) && RequestsOk(l)
    requires l.active && Enabled(l, Handle(stopped, [])) && (l.inbox[0] == Write || l.inbox[0] == Done)
    ensures var l' := Step(l, Handle(stopped, [])).next; FinishesOk(l') && ProtocolOk(l') && RequestsOk(l')
  {
    var l' := Step(l, Handle(stopped, [])).next;
    HandleSendQueueFrame(l.rpc.(pending := l.rpc.pending - {Write}));
    assert Undelivered(l') == Undelivered(l);
  }

  lemma HandleCallbacks(l: Local, stopped: bool, items: seq<SendItem>)
    requires OpsOk(l) && FinishesOk(l) && ProtocolOk(l) && RequestsOk(l)
    requires l.active && Enabled(l, Handle(stopped, items)) && Step(l, Handle(stopped, items)).Running?
    ensures var l' := Step(l, Handle(stopped, items)).next; FinishesOk(l') && ProtocolOk(l') && RequestsOk(l')
  {
    assert Queued(l, l.inbox[0]);
    match l.inbox[0] {
      case NewConnection => HandleConnectionCallbacks(l, stopped, items);
      case Read =>
        if Read in l.rpc.okEvents {
          RequestCallbacks(l, stopped, items);
        } else {
          ReadsDoneCallbacks(l, stopped, items);
        }
      case Finish => HandleFinishCallbacks(l, stopped, items);
      case WriteNeeded => assert false;
      case _ => HandleSilentCallbacks(l, stopped);
    }
  }

  lemma DeliverRequests(l: Local, e: Event, ok: bool, payload: Message)
    requires OutstandingOk(l) && ConnectionFirst(l) && RequestsOk(l) && l.active && CanComplete(l.rpc, e)
    ensures RequestsOk(Step(l, Deliver(e, ok, payload)).next)
  {
    PushInbox(l.inbox, e);
    var l' := Step(l, Deliver(e, ok, payload)).next;
    assert Unhandled(l, e) > 0;
    if l'.rpc.received != l.rpc.received {
      assert Undelivered(l) == [] && Undelivered(l') == [payload];
    } else {
      assert Undelivered(l') == Undelivered(l);
    }
  }

  lemma DeliverCallbacks(l: Local, e: Event, ok: bool, payload: Message)
    requires FinishesOk(l) && ProtocolOk(l) && l.active && CanComplete(l.rpc, e)
    ensures var l' := Step(l, Deliver(e, ok, payload)).next; FinishesOk(l') && ProtocolOk(l')
  {
    PushInbox(l.inbox, e);
    var l' := Step(l, Deliver(e, ok, payload)).next;
    assert Unhandled(l', Read) == Unhandled(l, Read) && Unhandled(l', Finish) == Unhandled(l, Finish);
  }

  lemma WakeCallbacks(l: Local)
    requires FinishesOk(l) && ProtocolOk(l) && RequestsOk(l) && l.wakeups > 0
    ensures var l' := Step(l, Wake).next; FinishesOk(l') && ProtocolOk(l') && RequestsOk(l')
  {
    HandleSendQueueFrame(l.rpc);
  }

  lemma HandleWakeups(l: Local, stopped: bool, items: seq<SendItem>)
    requires OpsOk(l) && WakeupOk(l) && l.active && Enabled(l, Handle(stopped, items))
    requires Step(l, Handle(stopped, items)).Running?
    ensures WakeupOk(Step(l, Handle(stopped, items)).next)
  {
    assert Queued(l, l.inbox[0]);
  }

  // ---------------------------------------------------------------- one step keeps everything

  ghost predicate Preserved(l: Local, a: Action)
    requires Enabled(l, a)
  {
    var o := Step(l, a);
    && (o.Running? ==> Invariant(o.next))
    && (LifetimeExact(l) ==> (ConnectsWhileServing(l, a) <==> o.Running? && LifetimeExact(o.next)))
  }

  lemma DeliverInvariant(l: Local, e: Event, ok: bool, payload: Message)
    requires Invariant(l) && Enabled(l, Deliver(e, ok, payload))
    ensures Preserved(l, Deliver(e, ok, payload))
  {
    assert Unhandled(l, e) > 0;
    if l.active {
      DeliverOps(l, e, ok, payload);
      StepSendOrder(l, Deliver(e, ok, payload));
      DeliverCallbacks(l, e, ok, payload);
      DeliverRequests(l, e, ok, payload);
    }
  }

  lemma HandleInvariant(l: Local, stopped: bool, items: seq<SendItem>)
    requires Invariant(l) && Enabled(l, Handle(stopped, items))
    ensures Preserved(l, Handle(stopped, items))
  {
    assert Queued(l, l.inbox[0]);
    if l.active {
      HandleOps(l, stopped, items);
      if Step(l, Handle(stopped, items)).Running? {
        StepSendOrder(l, Handle(stopped, items));
        HandleCallbacks(l, stopped, items);
        HandleWakeups(l, stopped, items);
      }
    }
  }

  lemma WakeInvariant(l: Local)
    requires Invariant(l) && Enabled(l, Wake)
    ensures Preserved(l, Wake)
  {
    WakeOps(l);
    StepSendOrder(l, Wake);
    WakeCallbacks(l);
  }

  lemma EnqueueInvariant(l: Local, item: SendItem)
    requires Invariant(l) && Enabled(l, Enqueue(item))
    ensures Preserved(l, Enqueue(item))
  {
    StepSendOrder(l, Enqueue(item));
  }

  /** Every step keeps the invariant; and from an exact lifetime it leads to an exact lifetime,
      without fault, if and only if connections come up exactly while serving. */
  lemma StepInvariant(l: Local, a: Action)
    requires Invariant(l) && Enabled(l, a)
    ensures Step(l, a).Running? ==> Invariant(Step(l, a).next)
    ensures LifetimeExact(l) ==>
              (ConnectsWhileServing(l, a) <==> Step(l, a).Running? && LifetimeExact(Step(l, a).next))
  {
    assert Preserved(l, a) by {
      match a {
        case Deliver(e, ok, payload) => DeliverInvariant(l, e, ok, payload);
        case Handle(stopped, items) => HandleInvariant(l, stopped, items);
        case Wake => WakeInvariant(l);
        case Enqueue(item) => EnqueueInvariant(l, item);
      }
    }
  }
}
