/** The server around one service: every RPC ever created (indices stand for addresses that are never
    reused), the keys of ActiveRpcs, the FIFO event queues, and the steps that threads and gRPC take. */
module ServerModel {
  import opened Types
  import opened RpcModel
  import Machine = RpcMachine

  /** An entry of an event queue: a completion event by raw pointer, or a WRITE_NEEDED event with a
      weak pointer. */
  datatype QueuedEvent = Completion(rpc: nat, event: Event) | Internal(rpc: nat)

  datatype Server = Server(
    rpcs: seq<RpcState>,
    active: set<nat>,
    queues: seq<seq<QueuedEvent>>,
    shuttingDown: bool,
    currentQueue: nat)

  datatype Config = Config(methods: seq<RpcType>, completionQueues: nat, eventQueues: nat)

  datatype Step =
    | Deliver(rpc: nat, event: Event, ok: bool, payload: Message)   // RunCompletionQueue
    | Handle(queue: nat, items: seq<SendItem>)                      // RunEventQueue
    | WriterSend(rpc: nat, item: SendItem)                          // any thread
    | Stop                                                          // StopServing

  datatype Outcome = Faulted(fault: Fault) | Running(next: Server)

  ghost predicate QueueOk(s: Server, q: nat, e: QueuedEvent) {
    && e.rpc < |s.rpcs|
    && q == if e.Completion? then s.rpcs[e.rpc].homeQueue else s.rpcs[e.rpc].eventQueue
  }

  ghost predicate WellFormed(s: Server) {
    && s.currentQueue < |s.queues|
    && (forall r :: 0 <= r < |s.rpcs| ==>
          s.rpcs[r].homeQueue < |s.queues| && s.rpcs[r].eventQueue < |s.queues|)
    && (forall r :: r in s.active ==> r < |s.rpcs|)
    && (forall q, i :: 0 <= q < |s.queues| && 0 <= i < |s.queues[q]| ==> QueueOk(s, q, s.queues[q][i]))
  }

  // ---------------------------------------------------------------- steps

  function SelectNextEventQueue(s: Server): nat
    requires |s.queues| > 0
  {
    (s.currentQueue + 1) % |s.queues|
  }

  /** A new RPC takes the next event queue, joins ActiveRpcs and listens. */
  function Register(s: Server, rpc: RpcState): Server
    requires |s.queues| > 0
  {
    s.(rpcs := s.rpcs + [RequestNextMethodInvocation(SetEventQueue(rpc, SelectNextEventQueue(s)))],
       active := s.active + {|s.rpcs|},
       currentQueue := SelectNextEventQueue(s))
  }

  function AddListener(s: Server, methodIndex: nat, completionQueue: nat, rpcType: RpcType): Server
    requires |s.queues| > 0
  {
    Register(s, NewRpc(methodIndex, completionQueue, rpcType, SelectNextEventQueue(s)))
  }

  /** The server after `i` rounds of StartServing's outer loop and `j` of the inner one. */
  function Started(c: Config, i: nat, j: nat): (s: Server)
    requires c.eventQueues > 0 && j <= c.completionQueues && i <= |c.methods| && (j > 0 ==> i < |c.methods|)
    ensures |s.queues| == c.eventQueues
    decreases i, j
  {
    if j > 0 then AddListener(Started(c, i, j - 1), i, j - 1, c.methods[i])
    else if i > 0 then Started(c, i - 1, c.completionQueues)
    else Server([], {}, seq(c.eventQueues, _ => []), false, 0)
  }

  function Start(c: Config): (s: Server)
    requires c.eventQueues > 0
    ensures WellFormed(s)
  {
    StartedWellFormed(c, |c.methods|, 0);
    Started(c, |c.methods|, 0)
  }

  function Push(s: Server, q: nat, es: seq<QueuedEvent>): Server
    requires q < |s.queues|
  {
    s.(queues := s.queues[q := s.queues[q] + es])
  }

  function Internals(r: nat, count: nat): seq<QueuedEvent> {
    seq(count, _ => Internal(r))
  }

  function PushWakeups(s: Server, r: nat, count: nat): Server
    requires r < |s.rpcs| && s.rpcs[r].eventQueue < |s.queues|
  {
    Push(s, s.rpcs[r].eventQueue, Internals(r, count))
  }

  lemma PushNothing(s: Server, r: nat)
    requires r < |s.rpcs| && s.rpcs[r].eventQueue < |s.queues|
    ensures PushWakeups(s, r, 0) == s
  {
    assert s.queues[s.rpcs[r].eventQueue] + Internals(r, 0) == s.queues[s.rpcs[r].eventQueue];
  }

  /** A new value for RPC `r`, which stays registered only if `keep`. */
  function Store(s: Server, r: nat, rpc: RpcState, keep: bool): Server
    requires r < |s.rpcs|
  {
    s.(rpcs := s.rpcs[r := rpc], active := if keep then s.active else s.active - {r})
  }

  /** Stores what handling did to RPC `r`, which sent `count` items. */
  function Settle(s: Server, r: nat, h: Handled, count: nat): Outcome
    requires r < |s.rpcs| && (h.Handled? ==> h.rpc.eventQueue < |s.queues|)
  {
    if h.Faulty? then Faulted(h.fault)
    else
      var s' := PushWakeups(Store(s, r, h.rpc, h.keep), r, count);
      Running(if h.spawn then Register(s', Clone(h.rpc)) else s')
  }

  lemma SettleOverwrites(s: Server, r: nat, rpc: RpcState, h: Handled, count: nat)
    requires r < |s.rpcs| && (h.Handled? ==> h.rpc.eventQueue < |s.queues|)
    ensures Settle(Store(s, r, rpc, true), r, h, count) == Settle(s, r, h, count)
  {
    if h.Handled? {
      assert Store(Store(s, r, rpc, true), r, h.rpc, h.keep) == Store(s, r, h.rpc, h.keep);
    }
  }

  predicate SameIdentity(r: RpcState, r': RpcState) {
    && r'.methodIndex == r.methodIndex && r'.completionQueue == r.completionQueue && r'.rpcType == r.rpcType
    && r'.homeQueue == r.homeQueue && r'.eventQueue == r.eventQueue
  }

  /** Handling moves an RPC to no other queue, and clones it only for its connection. */
  lemma HandlingKeepsIdentity(r: RpcState, e: Event, ok: bool, stopped: bool, items: seq<SendItem>)
    ensures var h := HandleEvent(r, e, ok, stopped, items);
            h.Handled? ==> SameIdentity(r, h.rpc) && (h.spawn <==> e == NewConnection && !stopped)
  {
  }

  /** What handling the queue entry does to its RPC. */
  function HandleEntry(s: Server, e: QueuedEvent, items: seq<SendItem>): (h: Handled)
    requires e.rpc < |s.rpcs|
    ensures h.Handled? ==> SameIdentity(s.rpcs[e.rpc], h.rpc)
    ensures h.Handled? ==> (h.spawn <==> e.Completion? && e.event == NewConnection && !s.shuttingDown)
  {
    var rpc := s.rpcs[e.rpc];
    if e.Completion? then
      HandlingKeepsIdentity(rpc.(pending := rpc.pending - {e.event}), e.event, e.event in rpc.okEvents,
                            s.shuttingDown, items);
      HandleCompletion(rpc, e.event, s.shuttingDown, items)
    else
      HandlingKeepsIdentity(rpc, WriteNeeded, true, false, []);
      HandleEvent(rpc, WriteNeeded, true, false, [])
  }

  predicate Enabled(s: Server, a: Step) {
    match a
    case Deliver(r, e, _, _) => r < |s.rpcs| && Machine.CanComplete(s.rpcs[r], e)
    case Handle(q, items) =>
      && q < |s.queues| && s.queues[q] != []
      && var e := s.queues[q][0];
         items == [] || (e.Completion? && e.rpc < |s.rpcs|
                         && RunsHandler(e.event, e.event in s.rpcs[e.rpc].okEvents, s.shuttingDown))
    case WriterSend(r, _) => r < |s.rpcs| && s.rpcs[r].hasHandler
    case Stop => true
  }

  function Pop(s: Server, q: nat): Server
    requires q < |s.queues| && s.queues[q] != []
  {
    s.(queues := s.queues[q := s.queues[q][1..]])
  }

  /** A completion event must find its RPC; a stale WRITE_NEEDED event is ignored. */
  function HandleHead(s: Server, q: nat, items: seq<SendItem>): Outcome
    requires WellFormed(s) && q < |s.queues| && s.queues[q] != []
  {
    var e := s.queues[q][0];
    assert QueueOk(s, q, e);
    if e.rpc !in s.active then
      if e.Completion? then Faulted(StaleDispatch) else Running(Pop(s, q))
    else Settle(Pop(s, q), e.rpc, HandleEntry(s, e, items), |items|)
  }

  /** Writer::Write, WritesDone and Finish report whether the RPC was still registered. */
  predicate WriterAccepts(s: Server, r: nat) {
    r in s.active
  }

  function Next(s: Server, a: Step): Outcome
    requires WellFormed(s) && Enabled(s, a)
  {
    match a
    case Deliver(r, e, ok, payload) =>
      if r !in s.active then Faulted(StaleDispatch)
      else Running(Push(Store(s, r, Complete(s.rpcs[r], e, ok, payload), true),
                        s.rpcs[r].homeQueue, [Completion(r, e)]))
    case Handle(q, items) => HandleHead(s, q, items)
    case WriterSend(r, item) =>
      if !WriterAccepts(s, r) then Running(s)
      else Running(PushWakeups(Store(s, r, EnqueueAll(s.rpcs[r], [item]), true), r, 1))
    case Stop => Running(s.(shuttingDown := true))
  }

  // ---------------------------------------------------------------- well-formedness

  lemma RegisterWellFormed(s: Server, rpc: RpcState)
    requires WellFormed(s) && rpc.homeQueue < |s.queues|
    ensures WellFormed(Register(s, rpc))
  {
    var s' := Register(s, rpc);
    forall q, i | 0 <= q < |s'.queues| && 0 <= i < |s'.queues[q]| ensures QueueOk(s', q, s'.queues[q][i]) {
      assert QueueOk(s, q, s.queues[q][i]);
    }
  }

  lemma StartedWellFormed(c: Config, i: nat, j: nat)
    requires c.eventQueues > 0 && j <= c.completionQueues && i <= |c.methods| && (j > 0 ==> i < |c.methods|)
    ensures WellFormed(Started(c, i, j))
    decreases i, j
  {
    if j > 0 {
      StartedWellFormed(c, i, j - 1);
      var s := Started(c, i, j - 1);
      RegisterWellFormed(s, NewRpc(i, j - 1, c.methods[i], SelectNextEventQueue(s)));
    } else if i > 0 {
      StartedWellFormed(c, i - 1, c.completionQueues);
    }
  }

  lemma StoreWellFormed(s: Server, r: nat, rpc: RpcState, keep: bool)
    requires WellFormed(s) && r < |s.rpcs|
    requires rpc.homeQueue == s.rpcs[r].homeQueue && rpc.eventQueue == s.rpcs[r].eventQueue
    ensures WellFormed(Store(s, r, rpc, keep))
  {
    var s' := Store(s, r, rpc, keep);
    forall q, i | 0 <= q < |s'.queues| && 0 <= i < |s'.queues[q]| ensures QueueOk(s', q, s'.queues[q][i]) {
      assert QueueOk(s, q, s.queues[q][i]);
    }
  }

  lemma PushWellFormed(s: Server, q: nat, es: seq<QueuedEvent>)
    requires WellFormed(s) && q < |s.queues|
    requires forall i :: 0 <= i < |es| ==> QueueOk(s, q, es[i])
    ensures WellFormed(Push(s, q, es))
  {
    var s' := Push(s, q, es);
    forall p, i | 0 <= p < |s'.queues| && 0 <= i < |s'.queues[p]| ensures QueueOk(s', p, s'.queues[p][i]) {
      if i < |s.queues[p]| {
        assert QueueOk(s, p, s.queues[p][i]);
      }
    }
  }

  lemma PushWakeupsWellFormed(s: Server, r: nat, count: nat)
    requires WellFormed(s) && r < |s.rpcs|
    ensures WellFormed(PushWakeups(s, r, count))
  {
    PushWellFormed(s, s.rpcs[r].eventQueue, Internals(r, count));
  }

  lemma PopWellFormed(s: Server, q: nat)
    requires WellFormed(s) && q < |s.queues| && s.queues[q] != []
    ensures WellFormed(Pop(s, q))
  {
    var s' := Pop(s, q);
    forall p, i | 0 <= p < |s'.queues| && 0 <= i < |s'.queues[p]| ensures QueueOk(s', p, s'.queues[p][i]) {
      assert QueueOk(s, p, s.queues[p][if p == q then i + 1 else i]);
    }
  }

  lemma SettleWellFormed(s: Server, r: nat, h: Handled, count: nat)
    requires WellFormed(s) && r < |s.rpcs| && h.Handled?
    requires h.rpc.homeQueue == s.rpcs[r].homeQueue && h.rpc.eventQueue == s.rpcs[r].eventQueue
    ensures WellFormed(Settle(s, r, h, count).next)
  {
    StoreWellFormed(s, r, h.rpc, h.keep);
    PushWakeupsWellFormed(Store(s, r, h.rpc, h.keep), r, count);
    if h.spawn {
      RegisterWellFormed(PushWakeups(Store(s, r, h.rpc, h.keep), r, count), Clone(h.rpc));
    }
  }

  lemma NextWellFormed(s: Server, a: Step)
    requires WellFormed(s) && Enabled(s, a) && Next(s, a).Running?
    ensures WellFormed(Next(s, a).next)
  {
    match a {
      case Deliver(r, e, ok, payload) =>
        StoreWellFormed(s, r, Complete(s.rpcs[r], e, ok, payload), true);
        PushWellFormed(Store(s, r, Complete(s.rpcs[r], e, ok, payload), true), s.rpcs[r].homeQueue, [Completion(r, e)]);
      case Handle(q, items) =>
        PopWellFormed(s, q);
        var e := s.queues[q][0];
        assert QueueOk(s, q, e);
        if e.rpc in s.active {
          SettleWellFormed(Pop(s, q), e.rpc, HandleEntry(s, e, items), |items|);
        }
      case WriterSend(r, item) =>
        SettleWellFormed(s, r, Handled(EnqueueAll(s.rpcs[r], [item]), true, false), 1);
      case Stop =>
        forall q, i | 0 <= q < |s.queues| && 0 <= i < |s.queues[q]|
          ensures QueueOk(s.(shuttingDown := true), q, s.queues[q][i])
        {
          assert QueueOk(s, q, s.queues[q][i]);
        }
    }
  }

  // ---------------------------------------------------------------- runs

  /** Every step of the run is enabled when its turn comes. */
  ghost predicate Feasible(s: Server, run: seq<Step>)
    requires WellFormed(s)
    decreases |run|
  {
    run == [] ||
    (Enabled(s, run[0]) &&
     if Next(s, run[0]).Faulted? then true
     else NextWellFormed(s, run[0]); Feasible(Next(s, run[0]).next, run[1..]))
  }

  ghost function Exec(s: Server, run: seq<Step>): (o: Outcome)
    requires WellFormed(s) && Feasible(s, run)
    ensures o.Running? ==> WellFormed(o.next)
    decreases |run|
  {
    if run == [] then Running(s)
    else if Next(s, run[0]).Faulted? then Next(s, run[0])
    else
      NextWellFormed(s, run[0]);
      Exec(Next(s, run[0]).next, run[1..])
  }

  /** A run with one more step. */
  lemma Extend(s: Server, run: seq<Step>, a: Step)
    requires WellFormed(s) && Feasible(s, run) && Exec(s, run).Running? && Enabled(Exec(s, run).next, a)
    ensures Feasible(s, run + [a]) && Exec(s, run + [a]) == Next(Exec(s, run).next, a)
    decreases |run|
  {
    if run == [] {
      assert (run + [a])[1..] == [];
    } else {
      NextWellFormed(s, run[0]);
      Extend(Next(s, run[0]).next, run[1..], a);
      assert (run + [a])[1..] == run[1..] + [a];
    }
  }
}
