/** Sends in all interleavings, as long as only one event thread sends: because there is only one, or
    because the RPC issues no WRITE, whose completion is what makes the other thread send. */
module SerialSends {
  import opened Types
  import opened RpcModel
  import opened SmallSteps
  import Machine = RpcMachine

  /** WRITEs, or FINISHes, with gRPC or in the event queue. */
  function Unhandled(m: Micro, e: Event): nat {
    m.rpc.inGrpc.Of(e) + Machine.Count(m.inbox, e)
  }

  predicate Sends(w: Worker) {
    w.Holding? || w.Flagged? || w == Taken(Write) || w == Taken(WriteNeeded)
  }

  function Held(w: Worker): seq<SendItem> {
    if w.Holding? || w.Flagged? then [w.item] else []
  }

  ghost predicate OneSender(m: Micro) {
    || |m.workers| == 1
    || (|m.workers| == 2 && !m.rpc.rpcType.StreamsResponses() && !Sends(m.workers[0]) && Unhandled(m, Write) == 0)
  }

  function Sender(m: Micro): Worker
    requires |m.workers| > 0
  {
    m.workers[|m.workers| - 1]
  }

  /** What went to gRPC, what the sender holds and what is queued is what was enqueued. */
  ghost predicate ItemsOk(m: Micro)
    requires |m.workers| > 0
  {
    var r := m.rpc;
    && Machine.Items(r.sent) + Held(Sender(m)) + r.sendQueue == r.enqueued
    && forall i :: 0 <= i < |r.sent| ==> r.sent[i].event == SendEvent(r, r.sent[i].item)
  }

  /** At most one send is under way, and the pending flags tell which. */
  ghost predicate FlagsOk(m: Micro)
    requires |m.workers| > 0
  {
    var w, pending := Sender(m), m.rpc.pending;
    && Unhandled(m, Write) + Unhandled(m, Finish) + |Held(w)| <= 1
    && (Write in pending <==> Unhandled(m, Write) == 1 || (w.Flagged? && SendEvent(m.rpc, w.item) == Write))
    && (Finish in pending <==> Unhandled(m, Finish) == 1 || (w.Flagged? && SendEvent(m.rpc, w.item) == Finish))
  }

  // ---------------------------------------------------------------- what a step does to the sends

  ghost predicate SameSends(r: RpcState, r': RpcState) {
    && r'.sent == r.sent && r'.sendQueue == r.sendQueue && r'.enqueued == r.enqueued && r'.rpcType == r.rpcType
    && r'.inGrpc.write == r.inGrpc.write && r'.inGrpc.finish == r.inGrpc.finish
    && (Write in r'.pending <==> Write in r.pending) && (Finish in r'.pending <==> Finish in r.pending)
  }

  /** A worker that is not sending leaves the sends alone, unless it starts. */
  ghost predicate SendsElsewhere(m: Micro, w: nat, m': Micro)
    requires w < |m.workers|
  {
    && |m'.workers| == |m.workers| && m'.workers == m.workers[w := m'.workers[w]] && m'.inbox == m.inbox
    && if m'.workers[w].Holding? then
         && Sends(m.workers[w]) && !SendBlocked(m.rpc)
         && m' == Set(m, w, Holding(m.rpc.sendQueue[0]), m.rpc.(sendQueue := m.rpc.sendQueue[1..]))
       else SameSends(m.rpc, m'.rpc) && !Sends(m'.workers[w])
  }

  lemma DispatchElsewhere(m: Micro, w: nat, stopped: bool)
    requires w < |m.workers| && m.workers[w].Taken? && Dispatch(m, w, stopped).Running?
    ensures SendsElsewhere(m, w, Dispatch(m, w, stopped).next)
  {
    var e := m.workers[w].event;
    if e == NewConnection || e == Read || e == Finish || e == Done {
      CallbackFrame(m, w, stopped);
    }
  }

  lemma WorkElsewhere(m: Micro, w: nat, stopped: bool)
    requires w < |m.workers| && !m.workers[w].Free? && Held(m.workers[w]) == [] && WorkOn(m, w, stopped).Running?
    ensures SendsElsewhere(m, w, WorkOn(m, w, stopped).next)
  {
    if m.workers[w].Taken? {
      DispatchElsewhere(m, w, stopped);
    }
  }

  lemma SendsKept(m: Micro, m': Micro)
    requires |m.workers| == |m'.workers| > 0 && ItemsOk(m) && FlagsOk(m) && m'.inbox == m.inbox
    requires SameSends(m.rpc, m'.rpc) && Held(Sender(m')) == Held(Sender(m))
    requires Held(Sender(m)) != [] ==> Sender(m') == Sender(m)
    ensures ItemsOk(m') && FlagsOk(m')
  {
  }

  lemma Pops(m: Micro, w: nat)
    requires w == |m.workers| - 1 && Held(m.workers[w]) == [] && !SendBlocked(m.rpc) && ItemsOk(m) && FlagsOk(m)
    ensures var m' := Set(m, w, Holding(m.rpc.sendQueue[0]), m.rpc.(sendQueue := m.rpc.sendQueue[1..]));
            ItemsOk(m') && FlagsOk(m')
  {
    assert m.rpc.sendQueue == [m.rpc.sendQueue[0]] + m.rpc.sendQueue[1..];
  }

  lemma Flags(m: Micro, w: nat, stopped: bool)
    requires w == |m.workers| - 1 && m.workers[w].Holding? && ItemsOk(m) && FlagsOk(m)
    ensures var m' := WorkOn(m, w, stopped).next; |m'.workers| == |m.workers| && ItemsOk(m') && FlagsOk(m')
  {
  }

  lemma Issues(m: Micro, w: nat, stopped: bool)
    requires w == |m.workers| - 1 && m.workers[w].Flagged? && ItemsOk(m) && FlagsOk(m)
    ensures var m' := WorkOn(m, w, stopped).next; |m'.workers| == |m.workers| && ItemsOk(m') && FlagsOk(m')
  {
    var item := m.workers[w].item;
    Machine.SentHistories(m.rpc.sent, Sent(SendEvent(m.rpc, item), item));
  }

  lemma WorkSends(m: Micro, w: nat, stopped: bool)
    requires w < |m.workers| && !m.workers[w].Free? && WorkOn(m, w, stopped).Running?
    requires OneSender(m) && ItemsOk(m) && FlagsOk(m)
    ensures var m' := WorkOn(m, w, stopped).next;
            |m'.workers| == |m.workers| && OneSender(m') && ItemsOk(m') && FlagsOk(m')
  {
    var m' := WorkOn(m, w, stopped).next;
    if m.workers[w].Holding? {
      Flags(m, w, stopped);
    } else if m.workers[w].Flagged? {
      Issues(m, w, stopped);
    } else {
      WorkElsewhere(m, w, stopped);
      if m'.workers[w].Holding? {
        Pops(m, w);
      } else {
        SendsKept(m, m');
      }
    }
  }

  lemma EnqueueSends(m: Micro, m': Micro, item: SendItem)
    requires |m.workers| == |m'.workers| > 0 && ItemsOk(m) && FlagsOk(m) && m'.inbox == m.inbox
    requires m'.rpc == EnqueueAll(m.rpc, [item])
    requires Sender(m') == Sender(m) || Held(Sender(m)) == Held(Sender(m')) == []
    ensures ItemsOk(m') && FlagsOk(m')
  {
  }

  lemma DeliverSends(m: Micro, m': Micro, e: Event, ok: bool, payload: Message)
    requires |m.workers| > 0 && ItemsOk(m) && FlagsOk(m) && Machine.CanComplete(m.rpc, e)
    requires m' == m.(rpc := Complete(m.rpc, e, ok, payload), inbox := m.inbox + [e])
    ensures ItemsOk(m') && FlagsOk(m') && Unhandled(m', Write) == Unhandled(m, Write)
  {
    Machine.PushInbox(m.inbox, e);
  }

  lemma TakeSends(m: Micro, m': Micro, e: Event)
    requires |m.workers| > 0 && ItemsOk(m) && FlagsOk(m) && m.inbox != [] && e == m.inbox[0]
    requires m.workers[0].Free?
    requires m' == Set(m, 0, Taken(e), m.rpc.(pending := m.rpc.pending - {e})).(inbox := m.inbox[1..])
    ensures ItemsOk(m') && FlagsOk(m') && Unhandled(m', Write) <= Unhandled(m, Write)
    ensures e == Write ==> Unhandled(m, Write) > 0
  {
  }

  lemma OtherSends(m: Micro, a: MicroStep)
    requires Enabled(m, a) && Next(m, a).Running? && ItemsOk(m) && FlagsOk(m)
    requires a.WriterLock? || a.WriterPush? || a.TakeWakeup?
    ensures var m' := Next(m, a).next; |m'.workers| == |m.workers| && ItemsOk(m') && FlagsOk(m')
  {
    SendsKept(m, Next(m, a).next);
  }

  lemma StepSends(m: Micro, a: MicroStep)
    requires Enabled(m, a) && Next(m, a).Running? && OneSender(m) && ItemsOk(m) && FlagsOk(m)
    ensures var m' := Next(m, a).next; |m'.workers| == |m.workers| && ItemsOk(m') && FlagsOk(m')
  {
    var m' := Next(m, a).next;
    match a {
      case Work(w, stopped) => WorkSends(m, w, stopped);
      case WriterEnqueue(_, item) => EnqueueSends(m, m', item);
      case HandlerSend(_, item) => EnqueueSends(m, m', item);
      case Deliver(e, ok, payload) => DeliverSends(m, m', e, ok, payload);
      case TakeCompletion => TakeSends(m, m', m.inbox[0]);
      case _ => OtherSends(m, a);
    }
  }

  lemma StepOneSender(m: Micro, a: MicroStep)
    requires Enabled(m, a) && Next(m, a).Running? && OneSender(m) && ItemsOk(m) && FlagsOk(m)
    requires WriteNeeded !in m.inbox
    ensures OneSender(Next(m, a).next) && WriteNeeded !in Next(m, a).next.inbox
  {
    match a {
      case Work(w, stopped) => WorkSends(m, w, stopped);
      case Deliver(e, _, _) => Machine.PushInbox(m.inbox, e);
      case _ =>
    }
  }

  lemma RunSends(m: Micro, run: seq<MicroStep>)
    requires OneSender(m) && ItemsOk(m) && FlagsOk(m) && WriteNeeded !in m.inbox && Feasible(m, run)
    ensures var m' := Exec(m, run); OneSender(m') && ItemsOk(m') && FlagsOk(m')
    decreases |run|
  {
    if run != [] {
      StepSends(m, run[0]);
      StepOneSender(m, run[0]);
      RunSends(Next(m, run[0]).next, run[1..]);
    }
  }

  // ---------------------------------------------------------------- what was sent

  function SentIn(a: MicroStep): seq<SendItem> {
    match a
    case WriterEnqueue(_, item) => [item]
    case HandlerSend(_, item) => [item]
    case _ => []
  }

  /** The items that Writers and handlers sent in the run, in order. */
  function SentBy(run: seq<MicroStep>): seq<SendItem> {
    if run == [] then [] else SentIn(run[0]) + SentBy(run[1..])
  }

  lemma WorkEnqueued(m: Micro, w: nat, stopped: bool)
    requires w < |m.workers| && !m.workers[w].Free? && WorkOn(m, w, stopped).Running?
    ensures WorkOn(m, w, stopped).next.rpc.enqueued == m.rpc.enqueued
  {
  }

  lemma StepEnqueued(m: Micro, a: MicroStep)
    requires Enabled(m, a) && Next(m, a).Running?
    ensures Next(m, a).next.rpc.enqueued == m.rpc.enqueued + SentIn(a)
  {
    if a.Work? {
      WorkEnqueued(m, a.worker, a.stopped);
    }
  }

  lemma RunEnqueued(m: Micro, run: seq<MicroStep>)
    requires Feasible(m, run)
    ensures Exec(m, run).rpc.enqueued == m.rpc.enqueued + SentBy(run)
    decreases |run|
  {
    if run != [] {
      StepEnqueued(m, run[0]);
      RunEnqueued(Next(m, run[0]).next, run[1..]);
      assert Exec(m, run) == Exec(Next(m, run[0]).next, run[1..]);
    }
  }

  // ---------------------------------------------------------------- serial sending

  /** gRPC holds at most one Write or Finish of the RPC. */
  ghost predicate OneSendAtATime(m: Micro) {
    m.rpc.inGrpc.write + m.rpc.inGrpc.finish <= 1
  }

  /** What went to gRPC is what was enqueued first. */
  ghost predicate SentInOrder(m: Micro) {
    Machine.Items(m.rpc.sent) <= m.rpc.enqueued
  }

  /** If only the last item ends the call, there is one Finish at most, and it comes last. */
  ghost predicate FinishesLast(m: Micro) {
    Machine.EndsOnce(m.rpc.rpcType, m.rpc.enqueued) ==> Machine.FinishedOnce(m.rpc.sent)
  }

  /** No step overwrites the response slot while gRPC reads it. */
  ghost predicate ResponseHeld(m: Micro) {
    m.rpc.inGrpc.write + m.rpc.inGrpc.finish > 0 ==>
      forall a :: Enabled(m, a) && Next(m, a).Running? ==> Next(m, a).next.rpc.response == m.rpc.response
  }

  ghost predicate Serial(m: Micro) {
    OneSendAtATime(m) && SentInOrder(m) && FinishesLast(m) && ResponseHeld(m)
  }

  lemma SlotKept(m: Micro, a: MicroStep)
    requires OneSender(m) && FlagsOk(m) && Enabled(m, a) && Next(m, a).Running?
    requires m.rpc.inGrpc.write + m.rpc.inGrpc.finish > 0
    ensures Next(m, a).next.rpc.response == m.rpc.response
  {
    if a.Work? {
      assert !m.workers[a.worker].Flagged?;
    }
  }

  lemma SerialNow(m: Micro)
    requires OneSender(m) && ItemsOk(m) && FlagsOk(m)
    ensures Serial(m)
  {
    var r := m.rpc;
    forall i | 0 <= i < |r.sent| ensures r.sent[i].item == r.enqueued[i] {
      assert Machine.Items(r.sent)[i] == r.sent[i].item;
    }
    if m.rpc.inGrpc.write + m.rpc.inGrpc.finish > 0 {
      forall a | Enabled(m, a) && Next(m, a).Running? ensures Next(m, a).next.rpc.response == m.rpc.response {
        SlotKept(m, a);
      }
    }
  }

  /** In all interleavings of Writers, handlers and gRPC with one event thread, or with two on an RPC
      that does not stream responses: one send at a time, in order, the Finish last, and the response
      slot is not overwritten while gRPC reads it. */
  lemma OneSenderSerial(t: RpcType, threads: nat, writers: nat, run: seq<MicroStep>)
    requires threads == 1 || (threads == 2 && !t.StreamsResponses())
    requires Feasible(Listener(t, threads, writers), run)
    ensures Serial(Exec(Listener(t, threads, writers), run))
    ensures Machine.Items(Exec(Listener(t, threads, writers), run).rpc.sent) <= SentBy(run)
  {
    RunEnqueued(Listener(t, threads, writers), run);
    assert [] + SentBy(run) == SentBy(run);
    RunSends(Listener(t, threads, writers), run);
    SerialNow(Exec(Listener(t, threads, writers), run));
  }
}
