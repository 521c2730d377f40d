/** One `Rpc` object as a value, and what each of its member functions does to it.

    The operations handed to gRPC and not yet completed are part of the value (`inGrpc`), because
    the reader and writer objects that hold them are members of the `Rpc`. The last four fields are
    histories: they are written and never read by the operations below. */
module RpcModel {
  import opened Types

  datatype Callback = Initialize | OnRequest(request: Message) | OnReadsDone | OnFinish

  /** A call of Write or Finish on the gRPC stream. */
  datatype Sent = Sent(event: Event, item: SendItem)

  /** How many operations of each kind gRPC holds. */
  datatype Ops = Ops(connection: nat, read: nat, write: nat, finish: nat, done: nat) {
    function Of(e: Event): nat {
      match e
      case NewConnection => connection
      case Read => read
      case Write => write
      case Finish => finish
      case Done => done
      case WriteNeeded => 0
    }

    function Plus(e: Event): Ops {
      match e
      case NewConnection => this.(connection := connection + 1)
      case Read => this.(read := read + 1)
      case Write => this.(write := write + 1)
      case Finish => this.(finish := finish + 1)
      case Done => this.(done := done + 1)
      case WriteNeeded => this
    }

    function Minus(e: Event): Ops {
      if Of(e) == 0 then this
      else
        match e
        case NewConnection => this.(connection := connection - 1)
        case Read => this.(read := read - 1)
        case Write => this.(write := write - 1)
        case Finish => this.(finish := finish - 1)
        case Done => this.(done := done - 1)
    }
  }

  datatype RpcState = RpcState(
    methodIndex: nat,
    completionQueue: nat,
    rpcType: RpcType,
    homeQueue: nat,             // captured by the five completion events at construction
    eventQueue: nat,            // used for WRITE_NEEDED and handed to clones
    pending: set<Event>,
    okEvents: set<Event>,       // the events whose ok flag is set
    request: Message,
    response: Message,
    hasHandler: bool,
    sendQueue: seq<SendItem>,
    inGrpc: Ops,
    enqueued: seq<SendItem>,
    sent: seq<Sent>,
    received: seq<Message>,
    calls: seq<Callback>)

  function NewRpc(methodIndex: nat, completionQueue: nat, rpcType: RpcType, queue: nat): RpcState {
    RpcState(methodIndex, completionQueue, rpcType, queue, queue, {}, {}, "", "", false, [],
             Ops(0, 0, 0, 0, 0), [], [], [], [])
  }

  function Clone(r: RpcState): RpcState {
    NewRpc(r.methodIndex, r.completionQueue, r.rpcType, r.eventQueue)
  }

  function SetEventQueue(r: RpcState, queue: nat): RpcState {
    r.(eventQueue := queue)
  }

  function RequestNextMethodInvocation(r: RpcState): RpcState {
    r.(pending := r.pending + {Done, NewConnection},
       inGrpc := r.inGrpc.Plus(Done).Plus(NewConnection))
  }

  function Call(r: RpcState, c: Callback): RpcState {
    r.(calls := r.calls + [c])
  }

  function RequestStreamingReadIfNeeded(r: RpcState): RpcState {
    if r.rpcType.StreamsRequests() then
      r.(pending := r.pending + {Read}, inGrpc := r.inGrpc.Plus(Read))
    else
      Call(Call(r, OnRequest(r.request)), OnReadsDone)
  }

  function OnConnection(r: RpcState): RpcState {
    RequestStreamingReadIfNeeded(
      if r.hasHandler then r else Call(r.(hasHandler := true), Initialize))
  }

  function EnqueueAll(r: RpcState, items: seq<SendItem>): RpcState {
    r.(sendQueue := r.sendQueue + items, enqueued := r.enqueued + items)
  }

  /** Sending this item ends the call. */
  predicate Terminal(t: RpcType, item: SendItem) {
    item.msg.None? || !t.StreamsResponses()
  }

  /** The precondition is the CHECK of the streaming-response branches. */
  function PerformFinish(r: RpcState, item: SendItem): RpcState
    requires r.rpcType.StreamsResponses() ==> item.msg.None?
  {
    r.(pending := r.pending + {Finish},
       response := if item.msg.Some? then item.msg.value else r.response,
       inGrpc := r.inGrpc.Plus(Finish),
       sent := r.sent + [Sent(Finish, item)])
  }

  /** The preconditions are the three CHECKs. */
  function PerformWrite(r: RpcState, item: SendItem): RpcState
    requires item.msg.Some?
    requires r.rpcType.StreamsResponses()
  {
    r.(pending := r.pending + {Write},
       response := item.msg.value,
       inGrpc := r.inGrpc.Plus(Write),
       sent := r.sent + [Sent(Write, item)])
  }

  function Perform(r: RpcState, item: SendItem): RpcState {
    if Terminal(r.rpcType, item) then PerformFinish(r, item) else PerformWrite(r, item)
  }

  predicate SendBlocked(r: RpcState) {
    r.sendQueue == [] || Write in r.pending || Finish in r.pending
  }

  function HandleSendQueue(r: RpcState): RpcState {
    if SendBlocked(r) then r
    else Perform(r.(sendQueue := r.sendQueue[1..]), r.sendQueue[0])
  }

  predicate IsAnyEventPending(r: RpcState) {
    Done in r.pending || Read in r.pending || Write in r.pending || Finish in r.pending
  }

  /** What gRPC does when an operation completes: it fills the request slot on a successful read,
      keeps quiet about a connection that never came up, and the completion queue runner stores
      `ok` in the event. */
  function Complete(r: RpcState, e: Event, ok: bool, payload: Message): RpcState
    requires r.inGrpc.Of(e) > 0
  {
    var fillsRequest := ok && (e == Read || (e == NewConnection && !r.rpcType.StreamsRequests()));
    r.(inGrpc := if e == NewConnection && !ok then r.inGrpc.Minus(e).Minus(Done) else r.inGrpc.Minus(e),
       okEvents := if ok then r.okEvents + {e} else r.okEvents - {e},
       request := if fillsRequest then payload else r.request,
       received := if fillsRequest then r.received + [payload] else r.received)
  }

  /** Why a run stops: the service touches an RPC it no longer owns, or one without a handler. */
  datatype Fault = StaleDispatch | UseAfterRemove | NoHandler

  /** The effect of Service::HandleEvent on the RPC: the fault, or its new value, whether it stays
      registered and whether a fresh listener is cloned from it. */
  datatype Handled = Faulty(fault: Fault) | Handled(rpc: RpcState, keep: bool, spawn: bool)

  function RemoveIfNotPending(r: RpcState): Handled {
    Handled(r, IsAnyEventPending(r), false)
  }

  /** Service::HandleEvent for a registered RPC. `items` is what the handler's callbacks send. */
  function HandleEvent(r: RpcState, e: Event, ok: bool, stopped: bool, items: seq<SendItem>): Handled {
    match e
    case NewConnection =>
      if stopped then Handled(r, false, false)
      else if !ok then Faulty(UseAfterRemove)
      else Handled(EnqueueAll(OnConnection(r), items), true, true)
    case Read =>
      if !r.hasHandler then Faulty(NoHandler)
      else if ok then
        Handled(RequestStreamingReadIfNeeded(EnqueueAll(Call(r, OnRequest(r.request)), items)), true, false)
      else RemoveIfNotPending(EnqueueAll(Call(r, OnReadsDone), items))
    case Finish =>
      if !r.hasHandler then Faulty(NoHandler)
      else RemoveIfNotPending(EnqueueAll(Call(r, OnFinish), items))
    case Done => RemoveIfNotPending(r)
    case _ => RemoveIfNotPending(HandleSendQueue(r))
  }

  /** Handling the event runs user code, which may send. */
  predicate RunsHandler(e: Event, ok: bool, stopped: bool) {
    e == Read || e == Finish || (e == NewConnection && ok && !stopped)
  }

  /** CompletionQueueRpcEvent::Handle: the pending flag is cleared before the dispatch. */
  function HandleCompletion(r: RpcState, e: Event, stopped: bool, items: seq<SendItem>): Handled {
    HandleEvent(r.(pending := r.pending - {e}), e, e in r.okEvents, stopped, items)
  }
}
