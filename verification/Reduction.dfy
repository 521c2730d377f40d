/** With one event thread, the small steps of an RPC add up to the atomic steps of RpcMachine: what is
    proved with the handling of an event as one step holds in all interleavings. The one disturbance
    left is a Writer that holds the RPC while it is removed. */
module Reduction {
  import opened Types
  import opened RpcModel
  import opened SmallSteps
  import Machine = RpcMachine

  function AskRead(r: RpcState): RpcState {
    r.(pending := r.pending + {Read}, inGrpc := r.inGrpc.Plus(Read))
  }

  /** What the atomic machine shows of an RPC that a thread works on. A handling has not happened
      until its callbacks begin or the send queue is checked; from then on it has read or sent, and
      has removed the RPC if nothing is pending. A refused connection is handled when the RPC is
      removed. */
  function RpcView(w: Worker, r: RpcState): RpcState {
    match w
    case Taken(e) => if e == WriteNeeded then r else r.(pending := r.pending + {e})
    case Refusing => r.(pending := r.pending + {NewConnection})
    case Calling(after, _) => if after == ThenRead then AskRead(r) else r
    case Reading => AskRead(r)
    case ReadFlagged => AskRead(r)
    case Holding(item) => Perform(r, item)
    case Flagged(item) => Perform(r, item)
    case _ => r
  }

  function InboxView(w: Worker, inbox: seq<Event>): seq<Event> {
    match w
    case Taken(e) => if e == WriteNeeded then inbox else [e] + inbox
    case Refusing => [NewConnection] + inbox
    case _ => inbox
  }

  /** Wakeups that only the worker knows of. */
  function WakeupView(w: Worker): nat {
    match w
    case Taken(e) => if e == WriteNeeded then 1 else 0
    case Calling(_, pushing) => if pushing then 1 else 0
    case _ => 0
  }

  predicate KeepsRpc(w: Worker, r: RpcState) {
    match w
    case Calling(after, _) => after == ThenCheck ==> IsAnyEventPending(r)
    case Checking => IsAnyEventPending(r)
    case Removing => false
    case _ => true
  }

  function Atomic(m: Micro): Machine.Local
    requires |m.workers| == 1
  {
    var w := m.workers[0];
    Machine.Local(RpcView(w, m.rpc), InboxView(w, m.inbox), m.wakeups + |m.between| + WakeupView(w),
                  m.registered && KeepsRpc(w, m.rpc))
  }

  /** The step of the atomic machine that happens in a small step, if any. */
  function AtomicStep(m: Micro, a: MicroStep): Option<Machine.Action>
    requires |m.workers| == 1 && Enabled(m, a)
  {
    match a
    case WriterEnqueue(_, item) => Some(Machine.Enqueue(item))
    case HandlerSend(_, item) => Some(Machine.Enqueue(item))
    case Deliver(e, ok, payload) => Some(Machine.Deliver(e, ok, payload))
    case TakeCompletion => if m.registered then None else Some(Machine.Handle(false, []))
    case TakeWakeup => if m.registered then None else Some(Machine.Wake)
    case Work(_, stopped) =>
      (match m.workers[0]
       case Taken(e) =>
         if e == WriteNeeded then Some(Machine.Wake)
         else if e == NewConnection && stopped then None
         else Some(Machine.Handle(stopped, []))
       case Refusing => Some(Machine.Handle(true, []))
       case _ => None)
    case _ => None
  }

  ghost predicate Refines(m: Micro, a: MicroStep)
    requires |m.workers| == 1 && Enabled(m, a)
  {
    var b := AtomicStep(m, a);
    match Next(m, a)
    case Aborted => false
    case Faulted(f) =>
      b.Some? && Machine.Enabled(Atomic(m), b.value) && Machine.Step(Atomic(m), b.value) == Machine.Faulted(f)
    case Running(m') =>
      && |m'.workers| == 1
      && if b.None? then Atomic(m') == Atomic(m)
         else Machine.Enabled(Atomic(m), b.value)
              && Machine.Step(Atomic(m), b.value) == Machine.Running(Atomic(m'))
  }

  /** The RPC is not removed while a Writer holds it. */
  predicate Undisturbed(m: Micro, a: MicroStep)
    requires |m.workers| == 1 && Enabled(m, a)
  {
    a.Work? && (m.workers[0].Removing? || m.workers[0].Refusing?) ==> m.locked == {} && m.between == {}
  }

  /** A thread works only on a registered RPC, and a Writer holds only such an RPC; and the flags are
      as the worker left them. */
  ghost predicate HoldersOk(m: Micro)
    requires |m.workers| == 1
  {
    var w, r := m.workers[0], m.rpc;
    && (!w.Free? ==> m.registered)
    && (!m.registered ==> m.locked == {} && m.between == {})
    && (m.locked != {} || m.between != {} ==> r.hasHandler)
    && match w
       case Taken(e) => e == WriteNeeded || e !in r.pending
       case Refusing => NewConnection !in r.pending
       case Calling(_, _) => r.hasHandler
       case ReadFlagged => Read in r.pending
       case Flagged(item) => SendEvent(r, item) in r.pending
       case _ => true
  }

  ghost predicate WorkerOk(m: Micro)
    requires |m.workers| == 1
  {
    HoldersOk(m) && (!m.workers[0].Free? ==> Machine.LifetimeExact(Atomic(m)))
  }

  ghost predicate OneThreadOk(m: Micro) {
    |m.workers| == 1 && WorkerOk(m) && Machine.Invariant(Atomic(m))
  }

  // ---------------------------------------------------------------- Writers and gRPC

  lemma EnqueueView(w: Worker, r: RpcState, item: SendItem)
    ensures RpcView(w, EnqueueAll(r, [item])) == EnqueueAll(RpcView(w, r), [item])
    ensures KeepsRpc(w, EnqueueAll(r, [item])) == KeepsRpc(w, r)
    ensures RpcView(w, r).hasHandler == r.hasHandler
  {
  }

  lemma PlusMinus(g: Ops, e: Event, x: Event)
    requires g.Of(e) > 0
    ensures g.Minus(e).Plus(x) == g.Plus(x).Minus(e)
    ensures e == NewConnection && x != Done ==> g.Minus(e).Minus(Done).Plus(x) == g.Plus(x).Minus(e).Minus(Done)
  {
  }

  lemma PerformCompletes(r: RpcState, item: SendItem, e: Event, ok: bool, payload: Message)
    requires r.inGrpc.Of(e) > 0
    ensures Perform(r, item).inGrpc.Of(e) > 0
    ensures Perform(Complete(r, e, ok, payload), item) == Complete(Perform(r, item), e, ok, payload)
  {
    PlusMinus(r.inGrpc, e, SendEvent(r, item));
  }

  lemma AskReadCompletes(r: RpcState, e: Event, ok: bool, payload: Message)
    requires r.inGrpc.Of(e) > 0
    ensures AskRead(r).inGrpc.Of(e) > 0
    ensures AskRead(Complete(r, e, ok, payload)) == Complete(AskRead(r), e, ok, payload)
  {
    PlusMinus(r.inGrpc, e, Read);
  }

  lemma CompleteView(w: Worker, r: RpcState, e: Event, ok: bool, payload: Message)
    requires r.inGrpc.Of(e) > 0
    ensures RpcView(w, r).inGrpc.Of(e) > 0
    ensures RpcView(w, Complete(r, e, ok, payload)) == Complete(RpcView(w, r), e, ok, payload)
    ensures KeepsRpc(w, Complete(r, e, ok, payload)) == KeepsRpc(w, r)
  {
    AskReadCompletes(r, e, ok, payload);
    if w.Holding? || w.Flagged? {
      PerformCompletes(r, w.item, e, ok, payload);
    }
  }

  lemma LockRefines(m: Micro, p: nat)
    requires |m.workers| == 1 && HoldersOk(m) && Enabled(m, WriterLock(p))
    ensures Refines(m, WriterLock(p))
  {
  }

  lemma EnqueueRefines(m: Micro, p: nat, item: SendItem)
    requires |m.workers| == 1 && HoldersOk(m) && Enabled(m, WriterEnqueue(p, item))
    ensures Refines(m, WriterEnqueue(p, item))
  {
    EnqueueView(m.workers[0], m.rpc, item);
    assert |m.between + {p}| == |m.between| + 1;
  }

  lemma PushRefines(m: Micro, p: nat)
    requires |m.workers| == 1 && HoldersOk(m) && Enabled(m, WriterPush(p))
    ensures Refines(m, WriterPush(p))
  {
    assert |m.between - {p}| == |m.between| - 1;
  }

  lemma HandlerSendRefines(m: Micro, item: SendItem)
    requires |m.workers| == 1 && HoldersOk(m) && Enabled(m, HandlerSend(0, item))
    ensures Refines(m, HandlerSend(0, item))
  {
    EnqueueView(m.workers[0], m.rpc, item);
  }

  lemma InboxGrows(w: Worker, inbox: seq<Event>, e: Event)
    ensures InboxView(w, inbox + [e]) == InboxView(w, inbox) + [e]
  {
  }

  lemma DeliverRefines(m: Micro, e: Event, ok: bool, payload: Message)
    requires |m.workers| == 1 && WorkerOk(m) && Enabled(m, Deliver(e, ok, payload))
    ensures Refines(m, Deliver(e, ok, payload))
  {
    CompleteView(m.workers[0], m.rpc, e, ok, payload);
    InboxGrows(m.workers[0], m.inbox, e);
    assert Machine.Unhandled(Atomic(m), e) > 0;
  }

  lemma TakeRefines(m: Micro, a: MicroStep)
    requires OneThreadOk(m) && Enabled(m, a) && (a.TakeCompletion? || a.TakeWakeup?)
    ensures Refines(m, a)
  {
    if a.TakeCompletion? && m.registered {
      var e := m.inbox[0];
      assert Machine.Queued(Atomic(m), e);
      assert m.inbox == [e] + m.inbox[1..];
      assert m.rpc.pending - {e} + {e} == m.rpc.pending;
    }
  }

  // ---------------------------------------------------------------- the event thread

  /** For the atomic machine, a completion event that was taken is still the next one. */
  lemma TakenIsNext(m: Micro, e: Event, stopped: bool)
    requires |m.workers| == 1 && HoldersOk(m) && m.workers[0] == Taken(e) && e != WriteNeeded
    ensures Machine.Enabled(Atomic(m), Machine.Handle(stopped, []))
    ensures Machine.Step(Atomic(m), Machine.Handle(stopped, [])) ==
            Machine.Settle(Atomic(m).(inbox := m.inbox),
                           HandleEvent(m.rpc, e, e in m.rpc.okEvents, stopped, []), 0)
  {
    assert ([e] + m.inbox)[1..] == m.inbox;
    assert m.rpc.pending + {e} - {e} == m.rpc.pending;
    assert Atomic(m).rpc.(pending := m.rpc.pending) == m.rpc;
  }

  lemma ConnectionRefines(m: Micro, stopped: bool)
    requires |m.workers| == 1 && HoldersOk(m) && m.workers[0] == Taken(NewConnection)
    ensures Refines(m, Work(0, stopped))
  {
    if !stopped {
      TakenIsNext(m, NewConnection, stopped);
      assert EnqueueAll(OnConnection(m.rpc), []) == OnConnection(m.rpc);
    }
  }

  lemma ReadRefines(m: Micro, stopped: bool)
    requires |m.workers| == 1 && HoldersOk(m) && m.workers[0] == Taken(Read)
    ensures Refines(m, Work(0, stopped))
  {
    TakenIsNext(m, Read, stopped);
    var r := Call(m.rpc, if Read in m.rpc.okEvents then OnRequest(m.rpc.request) else OnReadsDone);
    assert EnqueueAll(r, []) == r;
  }

  lemma FinishDoneRefines(m: Micro, stopped: bool)
    requires |m.workers| == 1 && HoldersOk(m) && (m.workers[0] == Taken(Finish) || m.workers[0] == Taken(Done))
    ensures Refines(m, Work(0, stopped))
  {
    TakenIsNext(m, m.workers[0].event, stopped);
    assert EnqueueAll(Call(m.rpc, OnFinish), []) == Call(m.rpc, OnFinish);
  }

  /** What the locked section decides is what the atomic machine does. */
  lemma SendQueueRefines(m: Micro, stopped: bool)
    requires |m.workers| == 1 && HoldersOk(m) && (m.workers[0] == Taken(Write) || m.workers[0] == Taken(WriteNeeded))
    ensures Refines(m, Work(0, stopped))
  {
    if m.workers[0] == Taken(Write) {
      TakenIsNext(m, Write, stopped);
    }
    assert !SendBlocked(m.rpc) ==> IsAnyEventPending(HandleSendQueue(m.rpc));
  }

  lemma RefusingRefines(m: Micro, stopped: bool)
    requires |m.workers| == 1 && HoldersOk(m) && m.workers[0] == Refusing
    ensures Refines(m, Work(0, stopped))
  {
    assert ([NewConnection] + m.inbox)[1..] == m.inbox;
    assert m.rpc.pending + {NewConnection} - {NewConnection} == m.rpc.pending;
  }

  /** Flagging and issuing a read or a send changes nothing more for the atomic machine. */
  lemma ReadingRefines(m: Micro, stopped: bool)
    requires |m.workers| == 1 && HoldersOk(m) && (m.workers[0].Reading? || m.workers[0].ReadFlagged?)
    ensures Refines(m, Work(0, stopped))
  {
    assert m.rpc.pending + {Read} + {Read} == m.rpc.pending + {Read};
  }

  lemma SendingRefines(m: Micro, stopped: bool)
    requires |m.workers| == 1 && HoldersOk(m) && (m.workers[0].Holding? || m.workers[0].Flagged?)
    ensures Refines(m, Work(0, stopped))
  {
    var e := SendEvent(m.rpc, m.workers[0].item);
    assert m.rpc.pending + {e} + {e} == m.rpc.pending + {e};
    assert e in m.rpc.pending ==> m.rpc.pending + {e} == m.rpc.pending;
  }

  /** Nor do returning from callbacks and removing what the atomic machine has removed already. */
  lemma QuietRefines(m: Micro, stopped: bool)
    requires |m.workers| == 1 && HoldersOk(m)
    requires m.workers[0].Calling? || m.workers[0].Checking? || m.workers[0].Removing?
    ensures Refines(m, Work(0, stopped))
  {
  }

  lemma WorkRefines(m: Micro, stopped: bool)
    requires |m.workers| == 1 && HoldersOk(m) && Enabled(m, Work(0, stopped))
    ensures Refines(m, Work(0, stopped))
  {
    match m.workers[0] {
      case Taken(NewConnection) => ConnectionRefines(m, stopped);
      case Taken(Read) => ReadRefines(m, stopped);
      case Taken(Finish) => FinishDoneRefines(m, stopped);
      case Taken(Done) => FinishDoneRefines(m, stopped);
      case Taken(_) => SendQueueRefines(m, stopped);
      case Refusing => RefusingRefines(m, stopped);
      case Reading => ReadingRefines(m, stopped);
      case ReadFlagged => ReadingRefines(m, stopped);
      case Holding(_) => SendingRefines(m, stopped);
      case Flagged(_) => SendingRefines(m, stopped);
      case _ => QuietRefines(m, stopped);
    }
  }

  lemma SmallStep(m: Micro, a: MicroStep)
    requires OneThreadOk(m) && Enabled(m, a)
    ensures Refines(m, a)
  {
    match a {
      case WriterLock(p) => LockRefines(m, p);
      case WriterEnqueue(p, item) => EnqueueRefines(m, p, item);
      case WriterPush(p) => PushRefines(m, p);
      case Deliver(e, ok, payload) => DeliverRefines(m, e, ok, payload);
      case HandlerSend(_, item) => HandlerSendRefines(m, item);
      case Work(_, stopped) => WorkRefines(m, stopped);
      case _ => TakeRefines(m, a);
    }
  }

  // ---------------------------------------------------------------- all steps, all runs

  lemma WorkHolders(m: Micro, stopped: bool)
    requires |m.workers| == 1 && HoldersOk(m) && Enabled(m, Work(0, stopped)) && Undisturbed(m, Work(0, stopped))
    requires WorkOn(m, 0, stopped).Running?
    ensures |WorkOn(m, 0, stopped).next.workers| == 1 && HoldersOk(WorkOn(m, 0, stopped).next)
  {
  }

  lemma StepHolders(m: Micro, a: MicroStep)
    requires |m.workers| == 1 && HoldersOk(m) && Enabled(m, a) && Undisturbed(m, a) && Next(m, a).Running?
    ensures |Next(m, a).next.workers| == 1 && HoldersOk(Next(m, a).next)
  {
    if a.Work? {
      WorkHolders(m, a.stopped);
    }
  }

  lemma ActiveIsExact(l: Machine.Local)
    requires Machine.Invariant(l) && l.active
    ensures Machine.LifetimeExact(l)
  {
  }

  /** The atomic steps of a busy thread handle no connection that came up too late. */
  lemma BusyConnects(m: Micro, a: MicroStep)
    requires |m.workers| == 1 && HoldersOk(m) && Enabled(m, a) && AtomicStep(m, a).Some? && Next(m, a).Running?
    requires !m.workers[0].Free? && !m.workers[0].Refusing?
    ensures Machine.ConnectsWhileServing(Atomic(m), AtomicStep(m, a).value)
  {
  }

  lemma IdleStays(m: Micro, a: MicroStep)
    requires |m.workers| == 1 && Enabled(m, a) && Next(m, a).Running?
    requires (m.workers[0].Refusing? && a.Work?) || (m.workers[0].Free? && !a.TakeCompletion? && !a.TakeWakeup?)
    ensures Next(m, a).next.workers[0].Free?
  {
  }

  lemma StepStaysExact(m: Micro, a: MicroStep)
    requires OneThreadOk(m) && Enabled(m, a) && Refines(m, a) && Next(m, a).Running?
    requires !Next(m, a).next.workers[0].Free?
    ensures Machine.LifetimeExact(Atomic(Next(m, a).next))
  {
    var b := AtomicStep(m, a);
    if m.registered && m.workers[0].Free? {
      ActiveIsExact(Atomic(m));
    }
    if m.workers[0].Free? && !a.TakeCompletion? && !a.TakeWakeup? {
      IdleStays(m, a);
    } else if b.Some? && m.workers[0].Refusing? && a.Work? {
      IdleStays(m, a);
    } else if b.Some? && !m.workers[0].Free? {
      Machine.StepInvariant(Atomic(m), b.value);
      if !m.workers[0].Refusing? {
        BusyConnects(m, a);
      }
    }
  }

  /** With one event thread, and no Writer holding the RPC while it is removed, every small step is
      one step of the atomic machine or none, with the same fault if there is one. */
  lemma StepRefines(m: Micro, a: MicroStep)
    requires OneThreadOk(m) && Enabled(m, a) && Undisturbed(m, a)
    ensures Refines(m, a)
    ensures Next(m, a).Running? ==> OneThreadOk(Next(m, a).next)
  {
    SmallStep(m, a);
    if Next(m, a).Running? {
      var m', b := Next(m, a).next, AtomicStep(m, a);
      StepHolders(m, a);
      if b.Some? {
        Machine.StepInvariant(Atomic(m), b.value);
      }
      if !m'.workers[0].Free? {
        StepStaysExact(m, a);
      }
    }
  }

  ghost predicate UndisturbedThroughout(m: Micro, run: seq<MicroStep>)
    requires |m.workers| == 1 && Allowed(m, run)
    decreases |run|
  {
    run == [] ||
    (Undisturbed(m, run[0]) &&
     (Next(m, run[0]).Running? ==>
        |Next(m, run[0]).next.workers| == 1 && UndisturbedThroughout(Next(m, run[0]).next, run[1..])))
  }

  lemma FreshOk(m: Micro)
    requires m.workers == [Free] && m.locked == m.between == {} && m.registered
    requires Machine.Invariant(Machine.Local(m.rpc, m.inbox, m.wakeups, true))
    ensures OneThreadOk(m) && Exact(m)
  {
    assert Atomic(m) == Machine.Local(m.rpc, m.inbox, m.wakeups, true);
    ActiveIsExact(Atomic(m));
    ExactFromAtomic(m);
  }

  lemma ListenerInvariant(r: RpcState, t: RpcType)
    requires r == NewRpc(0, 0, t, 0)
    ensures Machine.Invariant(Machine.Local(RequestNextMethodInvocation(r), [], 0, true))
  {
    Machine.NewListenerInvariant(0, 0, t, 0, 0);
    assert SetEventQueue(r, 0) == r;
    assert Machine.NewListener(r) == Machine.Local(RequestNextMethodInvocation(r), [], 0, true);
  }

  lemma ListenerOk(t: RpcType, writers: nat)
    ensures OneThreadOk(Listener(t, 1, writers)) && Exact(Listener(t, 1, writers))
  {
    var m := Listener(t, 1, writers);
    ListenerInvariant(NewRpc(0, 0, t, 0), t);
    assert m.workers == [Free];
    FreshOk(m);
  }

  lemma ExactFromAtomic(m: Micro)
    requires OneThreadOk(m)
    ensures Exact(m) <==> Machine.LifetimeExact(Atomic(m))
  {
    assert Idle(m) <==> m.workers[0] == Free;
  }

  lemma ConnectsAgree(m: Micro, a: MicroStep)
    requires |m.workers| == 1 && HoldersOk(m) && Enabled(m, a)
    ensures AtomicStep(m, a).None? ==> Connects(m, a)
    ensures AtomicStep(m, a).Some? && m.registered ==>
              (Connects(m, a) <==> Machine.ConnectsWhileServing(Atomic(m), AtomicStep(m, a).value))
  {
  }

  /** Nothing is left to do for an RPC that was removed in time. */
  lemma RemovedIsQuiet(m: Micro, a: MicroStep)
    requires OneThreadOk(m) && Exact(m) && Enabled(m, a) && !m.registered
    ensures a.TakeWakeup? || a.WriterLock?
  {
    assert a.Deliver? ==> m.rpc.inGrpc.Of(a.event) > 0;
    assert m.inbox != [] ==> Machine.Count(m.inbox, m.inbox[0]) > 0;
  }

  /** One step: from an exact lifetime it fails, or loses the exact lifetime, exactly if a connection
      came up too late or failed too early. */
  lemma StepLifetime(m: Micro, a: MicroStep)
    requires OneThreadOk(m) && Exact(m) && Enabled(m, a) && Undisturbed(m, a)
    ensures Connects(m, a) <==> Next(m, a).Running? && Exact(Next(m, a).next)
  {
    StepRefines(m, a);
    ExactFromAtomic(m);
    ConnectsAgree(m, a);
    if Next(m, a).Running? {
      ExactFromAtomic(Next(m, a).next);
    }
    if AtomicStep(m, a).Some? {
      Machine.StepInvariant(Atomic(m), AtomicStep(m, a).value);
      if !m.registered {
        RemovedIsQuiet(m, a);
      }
    }
  }

  lemma ExactRuns(m: Micro, run: seq<MicroStep>)
    requires OneThreadOk(m) && Exact(m) && Allowed(m, run) && UndisturbedThroughout(m, run)
    ensures ExactThroughout(m, run) <==> ConnectsThroughout(m, run)
    decreases |run|
  {
    if run != [] {
      StepLifetime(m, run[0]);
      StepRefines(m, run[0]);
      if Next(m, run[0]).Running? && Exact(Next(m, run[0]).next) {
        ExactRuns(Next(m, run[0]).next, run[1..]);
      }
    }
  }

  /** In all interleavings with one event thread in which no Writer holds the RPC while it is removed:
      the RPC is registered exactly while something is outstanding or being handled, and nothing
      fails, if and only if connections come up exactly while serving. */
  lemma OneThreadLifetime(t: RpcType, writers: nat, run: seq<MicroStep>)
    requires Allowed(Listener(t, 1, writers), run) && UndisturbedThroughout(Listener(t, 1, writers), run)
    ensures ExactThroughout(Listener(t, 1, writers), run) <==> ConnectsThroughout(Listener(t, 1, writers), run)
  {
    ListenerOk(t, writers);
    ExactRuns(Listener(t, 1, writers), run);
  }
}
