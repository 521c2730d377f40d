/** One RPC, from the moment it listens, in the small steps that its locks allow. A Writer locks its
    weak pointer, enqueues, and then looks the RPC up to push WRITE_NEEDED. An event thread pops an
    event and clears its flag, runs callbacks, checks the send queue under its lock, raises a flag,
    calls gRPC, asks whether anything is pending, and removes the RPC; others may act in between.

    One event thread serves an RPC whose two queues are the same; two threads serve it otherwise:
    the first for completions, the last for WRITE_NEEDED. */
module SmallSteps {
  import opened Types
  import opened RpcModel
  import Machine = RpcMachine

  /** What follows the callbacks. */
  datatype After = ThenRead | ThenCheck | ThenRest

  datatype Worker =
    | Free
    | Taken(event: Event)                     // popped, its pending flag cleared
    | Calling(after: After, pushing: bool)    // in a callback; `pushing` between enqueue and push
    | Reading                                 // before READ is flagged
    | ReadFlagged                             // READ is flagged, gRPC not yet called
    | Holding(item: SendItem)                 // the item is popped, the lock released
    | Flagged(item: SendItem)                 // WRITE or FINISH is flagged, gRPC not yet called
    | Checking                                // before IsAnyEventPending
    | Removing                                // nothing is pending
    | Refusing                                // the connection came after StopServing

  datatype Micro = Micro(
    rpc: RpcState,
    inbox: seq<Event>,
    wakeups: nat,
    registered: bool,
    locked: set<nat>,             // Writers that hold the RPC and have not enqueued yet
    between: set<nat>,            // Writers between their enqueue and their push
    workers: seq<Worker>,
    writers: nat)                 // Writers beyond this number do not exist

  datatype MicroStep =
    | WriterLock(writer: nat)
    | WriterEnqueue(writer: nat, item: SendItem)
    | WriterPush(writer: nat)
    | Deliver(event: Event, ok: bool, payload: Message)
    | TakeCompletion
    | TakeWakeup
    | HandlerSend(worker: nat, item: SendItem)
    | Work(worker: nat, stopped: bool)        // the thread does the next thing

  /** `Aborted` is the CHECK in GetWeakPtr. */
  datatype Outcome = Faulted(fault: Fault) | Aborted | Running(next: Micro)

  function Listener(t: RpcType, threads: nat, writers: nat): Micro {
    Micro(RequestNextMethodInvocation(NewRpc(0, 0, t, 0)), [], 0, true, {}, {}, seq(threads, _ => Free), writers)
  }

  /** Somebody owns the object: ActiveRpcs, a Writer, or the second thread, which locked a weak pointer. */
  predicate Alive(m: Micro) {
    m.registered || m.locked != {} || m.between != {} || (|m.workers| > 1 && !m.workers[|m.workers| - 1].Free?)
  }

  predicate Enabled(m: Micro, a: MicroStep) {
    && |m.workers| > 0
    && match a
       case WriterLock(p) => p < m.writers && p !in m.locked && p !in m.between && m.rpc.hasHandler
       case WriterEnqueue(p, _) => p in m.locked && p !in m.between
       case WriterPush(p) => p in m.between
       case Deliver(e, _, _) => Machine.CanComplete(m.rpc, e)
       case TakeCompletion => m.workers[0].Free? && m.inbox != []
       case TakeWakeup => m.workers[|m.workers| - 1].Free? && m.wakeups > 0
       case HandlerSend(w, _) => w < |m.workers| && m.workers[w].Calling? && !m.workers[w].pushing
       case Work(w, _) => w < |m.workers| && !m.workers[w].Free?
  }

  function SendEvent(r: RpcState, item: SendItem): Event {
    if Terminal(r.rpcType, item) then Finish else Write
  }

  function Set(m: Micro, w: nat, worker: Worker, rpc: RpcState): Micro
    requires w < |m.workers|
  {
    m.(rpc := rpc, workers := m.workers[w := worker])
  }

  /** The callbacks of a connection or a read, and what comes after them. */
  function CallThenRead(m: Micro, w: nat, rpc: RpcState): Micro
    requires w < |m.workers|
  {
    if rpc.rpcType.StreamsRequests() then Set(m, w, Calling(ThenRead, false), rpc)
    else Set(m, w, Calling(ThenRest, false), RequestStreamingReadIfNeeded(rpc))
  }

  /** Service::HandleEvent up to its first pause. */
  function Dispatch(m: Micro, w: nat, stopped: bool): Outcome
    requires w < |m.workers| && m.workers[w].Taken?
  {
    var r, e := m.rpc, m.workers[w].event;
    match e
    case NewConnection =>
      if stopped then Running(Set(m, w, Refusing, r))
      else if e !in r.okEvents then Faulted(UseAfterRemove)
      else Running(CallThenRead(m, w, if r.hasHandler then r else Call(r.(hasHandler := true), Initialize)))
    case Read =>
      if !r.hasHandler then Faulted(NoHandler)
      else if e in r.okEvents then Running(CallThenRead(m, w, Call(r, OnRequest(r.request))))
      else Running(Set(m, w, Calling(ThenCheck, false), Call(r, OnReadsDone)))
    case Finish =>
      if !r.hasHandler then Faulted(NoHandler)
      else Running(Set(m, w, Calling(ThenCheck, false), Call(r, OnFinish)))
    case Done => Running(Set(m, w, Checking, r))
    case _ =>
      if SendBlocked(r) then Running(Set(m, w, Checking, r))
      else Running(Set(m, w, Holding(r.sendQueue[0]), r.(sendQueue := r.sendQueue[1..])))
  }

  function WorkOn(m: Micro, w: nat, stopped: bool): Outcome
    requires w < |m.workers| && !m.workers[w].Free?
  {
    var r := m.rpc;
    match m.workers[w]
    case Taken(_) => Dispatch(m, w, stopped)
    case Calling(after, true) =>
      if !m.registered then Aborted
      else Running(Set(m, w, Calling(after, false), r).(wakeups := m.wakeups + 1))
    case Calling(ThenRead, false) => Running(Set(m, w, Reading, r))
    case Calling(ThenCheck, false) => Running(Set(m, w, Checking, r))
    case Calling(ThenRest, false) => Running(Set(m, w, Free, r))
    case Reading => Running(Set(m, w, ReadFlagged, r.(pending := r.pending + {Read})))
    case ReadFlagged => Running(Set(m, w, Free, r.(inGrpc := r.inGrpc.Plus(Read))))
    case Holding(item) => Running(Set(m, w, Flagged(item), r.(pending := r.pending + {SendEvent(r, item)})))
    case Flagged(item) => Running(Set(m, w, Checking, Perform(r, item).(pending := r.pending)))
    case Checking => Running(Set(m, w, if IsAnyEventPending(r) then Free else Removing, r))
    case Removing => Running(Set(m, w, Free, r).(registered := false))
    case Refusing => Running(Set(m, w, Free, r).(registered := false))
  }

  function Next(m: Micro, a: MicroStep): Outcome
    requires Enabled(m, a)
  {
    match a
    case WriterLock(p) => Running(if Alive(m) then m.(locked := m.locked + {p}) else m)
    case WriterEnqueue(p, item) =>
      Running(m.(rpc := EnqueueAll(m.rpc, [item]), locked := m.locked - {p}, between := m.between + {p}))
    case WriterPush(p) =>
      if !m.registered then Aborted
      else Running(m.(between := m.between - {p}, wakeups := m.wakeups + 1))
    case Deliver(e, ok, payload) =>
      if !Alive(m) then Faulted(StaleDispatch)
      else Running(m.(rpc := Complete(m.rpc, e, ok, payload), inbox := m.inbox + [e]))
    case TakeCompletion =>
      if !Alive(m) then Faulted(StaleDispatch)
      else
        var e := m.inbox[0];
        Running(Set(m, 0, Taken(e), m.rpc.(pending := m.rpc.pending - {e})).(inbox := m.inbox[1..]))
    case TakeWakeup =>
      var m' := m.(wakeups := m.wakeups - 1);
      Running(if Alive(m) then Set(m', |m.workers| - 1, Taken(WriteNeeded), m.rpc) else m')
    case HandlerSend(w, item) =>
      Running(Set(m, w, m.workers[w].(pushing := true), EnqueueAll(m.rpc, [item])))
    case Work(w, stopped) =>
      if !Alive(m) then Faulted(UseAfterRemove) else WorkOn(m, w, stopped)
  }

  /** Every step of the run is enabled when its turn comes, and none of them fails. */
  ghost predicate Feasible(m: Micro, run: seq<MicroStep>)
    decreases |run|
  {
    run == [] || (Enabled(m, run[0]) && Next(m, run[0]).Running? && Feasible(Next(m, run[0]).next, run[1..]))
  }

  ghost function Exec(m: Micro, run: seq<MicroStep>): Micro
    requires Feasible(m, run)
    decreases |run|
  {
    if run == [] then m else Exec(Next(m, run[0]).next, run[1..])
  }

  lemma Extend(m: Micro, run: seq<MicroStep>, a: MicroStep)
    requires Feasible(m, run) && Enabled(Exec(m, run), a) && Next(Exec(m, run), a).Running?
    ensures Feasible(m, run + [a]) && Exec(m, run + [a]) == Next(Exec(m, run), a).next
    decreases |run|
  {
    if run == [] {
      assert (run + [a])[1..] == [];
    } else {
      Extend(Next(m, run[0]).next, run[1..], a);
      assert (run + [a])[1..] == run[1..] + [a];
    }
  }

  // ---------------------------------------------------------------- lifetime

  /** Every step of the run is enabled when its turn comes; the last one may fail. */
  ghost predicate Allowed(m: Micro, run: seq<MicroStep>)
    decreases |run|
  {
    run == [] || (Enabled(m, run[0]) && (Next(m, run[0]).Running? ==> Allowed(Next(m, run[0]).next, run[1..])))
  }

  /** An operation of the RPC is with gRPC, or its completion event is queued. */
  predicate Outstanding(m: Micro) {
    Machine.AnyUnhandled(Machine.Local(m.rpc, m.inbox, m.wakeups, m.registered))
  }

  predicate Idle(m: Micro) {
    forall w :: 0 <= w < |m.workers| ==> m.workers[w] == Free
  }

  /** The RPC is registered exactly while something is outstanding or being handled. */
  ghost predicate Exact(m: Micro) {
    m.registered <==> Outstanding(m) || !Idle(m)
  }

  /** ... before and after every step of the run, and no step fails. */
  ghost predicate ExactThroughout(m: Micro, run: seq<MicroStep>)
    requires Allowed(m, run)
    decreases |run|
  {
    Exact(m) && (run == [] || (Next(m, run[0]).Running? && ExactThroughout(Next(m, run[0]).next, run[1..])))
  }

  /** A connection that is accepted came up, and one that is refused did not. */
  predicate Connects(m: Micro, a: MicroStep)
    requires Enabled(m, a)
  {
    a.Work? ==>
      match m.workers[a.worker]
      case Taken(NewConnection) => a.stopped || NewConnection in m.rpc.okEvents
      case Refusing => NewConnection !in m.rpc.okEvents
      case _ => true
  }

  ghost predicate ConnectsThroughout(m: Micro, run: seq<MicroStep>)
    requires Allowed(m, run)
    decreases |run|
  {
    run == [] ||
    (Connects(m, run[0]) && (Next(m, run[0]).Running? ==> ConnectsThroughout(Next(m, run[0]).next, run[1..])))
  }

  // ---------------------------------------------------------------- no lost wakeup

  /** The worker is about to look at the send queue, to flag what it took, or to push a wakeup; or
      the call is about to be over. */
  predicate WillLook(w: Worker) {
    match w
    case Taken(e) => e == Write || e == WriteNeeded || e == Finish
    case Holding(_) => true
    case Calling(_, pushing) => pushing
    case _ => false
  }

  predicate AnyWillLook(workers: seq<Worker>) {
    exists w :: 0 <= w < |workers| && WillLook(workers[w])
  }

  /** A queued item of a registered RPC will be looked at again: a send is pending, a worker will
      look, a wakeup is queued or about to be, or the call is over. */
  ghost predicate NoLostWakeup(m: Micro) {
    m.registered && m.rpc.sendQueue != [] ==>
      || Write in m.rpc.pending || Finish in m.rpc.pending || AnyWillLook(m.workers)
      || m.wakeups > 0 || m.between != {} || OnFinish in m.rpc.calls
  }

  lemma LookersKept(workers: seq<Worker>, w: nat, worker: Worker)
    requires w < |workers| && (WillLook(workers[w]) ==> WillLook(worker))
    ensures AnyWillLook(workers) || WillLook(worker) ==> AnyWillLook(workers[w := worker])
  {
    var workers' := workers[w := worker];
    assert workers'[w] == worker;
    if v :| 0 <= v < |workers| && WillLook(workers[v]) {
      assert v != w ==> workers'[v] == workers[v];
    }
  }

  /** Whatever a worker does to the others, it leaves a reason to look at a queued item. */
  lemma WorkerWakeup(m: Micro, w: nat, m': Micro)
    requires w < |m.workers| && NoLostWakeup(m) && |m'.workers| == |m.workers|
    requires m'.workers == m.workers[w := m'.workers[w]] && (m'.registered ==> m.registered)
    requires m'.between == m.between && m'.wakeups >= m.wakeups
    requires m'.rpc.sendQueue != [] ==>
               m.rpc.sendQueue != [] && (WillLook(m'.workers[w]) || !WillLook(m.workers[w])
                                         || Write in m'.rpc.pending || Finish in m'.rpc.pending
                                         || OnFinish in m'.rpc.calls || m'.wakeups > 0)
    requires m.rpc.pending <= m'.rpc.pending && m.rpc.calls <= m'.rpc.calls
    ensures NoLostWakeup(m')
  {
    if WillLook(m.workers[w]) ==> WillLook(m'.workers[w]) {
      LookersKept(m.workers, w, m'.workers[w]);
    }
  }

  /** Callbacks leave the send side alone. */
  lemma CallbackFrame(m: Micro, w: nat, stopped: bool)
    requires w < |m.workers| && m.workers[w].Taken? && Dispatch(m, w, stopped).Running?
    requires var e := m.workers[w].event; e == NewConnection || e == Read || e == Finish || e == Done
    ensures var m' := Dispatch(m, w, stopped).next;
            && m' == Set(m, w, m'.workers[w], m'.rpc)
            && m'.rpc == m.rpc.(hasHandler := m'.rpc.hasHandler, calls := m'.rpc.calls) && m.rpc.calls <= m'.rpc.calls
            && (m'.workers[w].Calling? || m'.workers[w].Refusing? || m'.workers[w].Checking?)
            && !WillLook(m'.workers[w])
            && (m.workers[w].event == Finish ==> OnFinish in m'.rpc.calls)
  {
  }

  lemma DispatchWakeup(m: Micro, w: nat, stopped: bool)
    requires w < |m.workers| && m.workers[w].Taken? && NoLostWakeup(m) && Dispatch(m, w, stopped).Running?
    ensures NoLostWakeup(Dispatch(m, w, stopped).next)
  {
    var e := m.workers[w].event;
    if e == NewConnection || e == Read || e == Finish || e == Done {
      CallbackFrame(m, w, stopped);
    }
    WorkerWakeup(m, w, Dispatch(m, w, stopped).next);
  }

  lemma WorkWakeup(m: Micro, w: nat, stopped: bool)
    requires w < |m.workers| && !m.workers[w].Free? && NoLostWakeup(m) && WorkOn(m, w, stopped).Running?
    ensures NoLostWakeup(WorkOn(m, w, stopped).next)
  {
    if m.workers[w].Taken? {
      DispatchWakeup(m, w, stopped);
    } else {
      WorkerWakeup(m, w, WorkOn(m, w, stopped).next);
    }
  }

  lemma StepWakeup(m: Micro, a: MicroStep)
    requires Enabled(m, a) && NoLostWakeup(m) && Next(m, a).Running?
    ensures NoLostWakeup(Next(m, a).next)
  {
    match a {
      case WriterEnqueue(p, _) => assert p in Next(m, a).next.between;
      case TakeCompletion => LookersKept(m.workers, 0, Taken(m.inbox[0]));
      case TakeWakeup => LookersKept(m.workers, |m.workers| - 1, Taken(WriteNeeded));
      case HandlerSend(w, _) => LookersKept(m.workers, w, m.workers[w].(pushing := true));
      case Work(w, stopped) => WorkWakeup(m, w, stopped);
      case _ =>
    }
  }

  lemma RunWakeup(m: Micro, run: seq<MicroStep>)
    requires Feasible(m, run) && NoLostWakeup(m)
    ensures NoLostWakeup(Exec(m, run))
    decreases |run|
  {
    if run != [] {
      StepWakeup(m, run[0]);
      RunWakeup(Next(m, run[0]).next, run[1..]);
    }
  }

  /** With any number of Writers, and one event thread or more, no wakeup is ever lost. */
  lemma WakeupNeverLost(t: RpcType, threads: nat, writers: nat, run: seq<MicroStep>)
    requires Feasible(Listener(t, threads, writers), run)
    ensures NoLostWakeup(Exec(Listener(t, threads, writers), run))
  {
    RunWakeup(Listener(t, threads, writers), run);
  }
}
