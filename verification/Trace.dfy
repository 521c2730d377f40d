/** What an RPC holds and has done, told from the steps of the run alone: which items were sent to it,
    which messages gRPC read for it, which completions were good, which events went through a queue,
    and of which type it is. */
module Trace {
  import opened Types
  import opened RpcModel
  import opened ServerModel
  import opened Projection
  import opened Lifetime
  import opened Delivery
  import opened Listeners
  import opened EventQueues
  import Machine = RpcMachine

  // ---------------------------------------------------------------- what a step brings

  /** The items that the step sends to RPC `r`: by an accepted Writer, or by its handler. */
  function SentIn(s: Server, a: Step, r: nat): seq<SendItem>
    requires Enabled(s, a)
  {
    match a
    case WriterSend(p, item) => if p == r && r in s.active then [item] else []
    case Handle(q, items) => if s.queues[q][0].Completion? && s.queues[q][0].rpc == r then items else []
    case _ => []
  }

  /** The message that gRPC reads for RPC `r` in the step: with a READ, or with the connection of a
      method whose request is a single message. */
  function ReadIn(s: Server, a: Step, r: nat): seq<Message>
    requires Enabled(s, a)
  {
    match a
    case Deliver(p, e, ok, payload) =>
      if p != r || !ok then []
      else if e == Read then [payload]
      else if e != NewConnection then []
      else (match s.rpcs[r].rpcType
            case NormalRpc => [payload]
            case ServerStreaming => [payload]
            case ClientStreaming => []
            case BidiStreaming => [])
    case _ => []
  }

  /** The events whose latest completion was good, after the step. */
  function GoodAfter(was: set<Event>, a: Step, r: nat): set<Event> {
    if a.Deliver? && a.rpc == r then (if a.ok then was + {a.event} else was - {a.event}) else was
  }

  // ---------------------------------------------------------------- what a run brings

  ghost function SentTo(s: Server, run: seq<Step>, r: nat): seq<SendItem>
    requires WellFormed(s) && Feasible(s, run)
    decreases |run|
  {
    if run == [] then []
    else if Next(s, run[0]).Faulted? then SentIn(s, run[0], r)
    else
      NextWellFormed(s, run[0]);
      SentIn(s, run[0], r) + SentTo(Next(s, run[0]).next, run[1..], r)
  }

  ghost function ReadFor(s: Server, run: seq<Step>, r: nat): seq<Message>
    requires WellFormed(s) && Feasible(s, run)
    decreases |run|
  {
    if run == [] then []
    else if Next(s, run[0]).Faulted? then ReadIn(s, run[0], r)
    else
      NextWellFormed(s, run[0]);
      ReadIn(s, run[0], r) + ReadFor(Next(s, run[0]).next, run[1..], r)
  }

  function GoodIn(was: set<Event>, run: seq<Step>, r: nat): set<Event>
    decreases |run|
  {
    if run == [] then was else GoodIn(GoodAfter(was, run[0], r), run[1..], r)
  }

  /** What the RPC has noted of that; nothing before it exists. */
  datatype Log = Log(enqueued: seq<SendItem>, received: seq<Message>, good: set<Event>)

  function LogOf(s: Server, r: nat): Log {
    if r < |s.rpcs| then Log(s.rpcs[r].enqueued, s.rpcs[r].received, s.rpcs[r].okEvents) else Log([], [], {})
  }

  lemma LocalLog(l: Machine.Local, a: Machine.Action)
    requires Machine.Enabled(l, a) && Machine.Step(l, a).Running?
    ensures var r, r' := l.rpc, Machine.Step(l, a).next.rpc;
            match a
            case Deliver(e, ok, payload) =>
              && r'.enqueued == r.enqueued
              && r'.okEvents == (if ok then r.okEvents + {e} else r.okEvents - {e})
              && r'.received == r.received +
                   if ok && (e == Read || (e == NewConnection && (r.rpcType.NormalRpc? || r.rpcType.ServerStreaming?)))
                   then [payload] else []
            case Handle(_, items) =>
              r'.enqueued == r.enqueued + items && r'.received == r.received && r'.okEvents == r.okEvents
            case Wake => r'.enqueued == r.enqueued && r'.received == r.received && r'.okEvents == r.okEvents
            case Enqueue(item) =>
              r'.enqueued == r.enqueued + [item] && r'.received == r.received && r'.okEvents == r.okEvents
  {
  }

  lemma StepLog(s: Server, a: Step, r: nat)
    requires WellFormed(s) && Enabled(s, a) && Next(s, a).Running? && r < |s.rpcs|
    ensures r < |Next(s, a).next.rpcs|
    ensures var was := LogOf(s, r);
            LogOf(Next(s, a).next, r)
            == Log(was.enqueued + SentIn(s, a, r), was.received + ReadIn(s, a, r), GoodAfter(was.good, a, r))
  {
    StepProjects(s, a, r);
    var p := Projected(s, a, r);
    assert View(Next(s, a).next, r).rpc == Next(s, a).next.rpcs[r];
    if p.Some? {
      LocalLog(View(s, r), p.value);
    }
  }

  /** Nothing is sent to, or read for, an RPC that does not exist yet. */
  lemma NewLog(s: Server, a: Step, r: nat)
    requires WellFormed(s) && Enabled(s, a) && Next(s, a).Running? && r >= |s.rpcs|
    ensures LogOf(Next(s, a).next, r) == Log([], [], {})
    ensures SentIn(s, a, r) == [] && ReadIn(s, a, r) == [] && GoodAfter({}, a, r) == {}
  {
    StepSpawns(s, a);
    if r < |Next(s, a).next.rpcs| {
      assert View(Next(s, a).next, r).rpc == Next(s, a).next.rpcs[r];
    }
    if a.Handle? {
      assert QueueOk(s, a.queue, s.queues[a.queue][0]);
    }
  }

  lemma AnyLog(s: Server, a: Step, r: nat, was: Log)
    requires WellFormed(s) && Enabled(s, a) && Next(s, a).Running? && was == LogOf(s, r)
    ensures LogOf(Next(s, a).next, r)
            == Log(was.enqueued + SentIn(s, a, r), was.received + ReadIn(s, a, r), GoodAfter(was.good, a, r))
  {
    if r < |s.rpcs| {
      StepLog(s, a, r);
    } else {
      NewLog(s, a, r);
    }
  }

  lemma Unroll(s: Server, run: seq<Step>, r: nat)
    requires WellFormed(s) && Feasible(s, run) && run != [] && Next(s, run[0]).Running?
    ensures WellFormed(Next(s, run[0]).next) && Feasible(Next(s, run[0]).next, run[1..])
    ensures Exec(s, run) == Exec(Next(s, run[0]).next, run[1..])
    ensures SentTo(s, run, r) == SentIn(s, run[0], r) + SentTo(Next(s, run[0]).next, run[1..], r)
    ensures ReadFor(s, run, r) == ReadIn(s, run[0], r) + ReadFor(Next(s, run[0]).next, run[1..], r)
  {
    NextWellFormed(s, run[0]);
  }

  lemma Rejoin<T>(whole: seq<T>, before: seq<T>, step: seq<T>, rest: seq<T>)
    requires whole == before + step + rest
    ensures whole == before + (step + rest)
  {
  }

  lemma RunLog(s: Server, run: seq<Step>, r: nat, was: Log, now: Log)
    requires WellFormed(s) && Feasible(s, run) && Exec(s, run).Running?
    requires was == LogOf(s, r) && now == LogOf(Exec(s, run).next, r)
    ensures now.enqueued == was.enqueued + SentTo(s, run, r)
    ensures now.received == was.received + ReadFor(s, run, r)
    ensures now.good == GoodIn(was.good, run, r)
    decreases |run|
  {
    if run != [] {
      var s' := Next(s, run[0]).next;
      AnyLog(s, run[0], r, was);
      Unroll(s, run, r);
      RunLog(s', run[1..], r, LogOf(s', r), now);
      Rejoin(now.enqueued, was.enqueued, SentIn(s, run[0], r), SentTo(s', run[1..], r));
      Rejoin(now.received, was.received, ReadIn(s, run[0], r), ReadFor(s', run[1..], r));
    }
  }

  lemma StartLog(c: Config, r: nat)
    requires c.eventQueues > 0
    ensures LogOf(Start(c), r) == Log([], [], {})
  {
    StartedLogs(c, |c.methods|, 0, r);
  }

  lemma StartedLogs(c: Config, i: nat, j: nat, r: nat)
    requires c.eventQueues > 0 && j <= c.completionQueues && i <= |c.methods| && (j > 0 ==> i < |c.methods|)
    ensures LogOf(Started(c, i, j), r) == Log([], [], {})
    decreases i, j
  {
    if j > 0 {
      StartedLogs(c, i, j - 1, r);
    } else if i > 0 {
      StartedLogs(c, i - 1, c.completionQueues, r);
    }
  }

  lemma ReachedLog(c: Config, run: seq<Step>, s: Server, r: nat)
    requires c.eventQueues > 0 && Reached(c, run, s) && r < |s.rpcs|
    ensures s.rpcs[r].enqueued == SentTo(Start(c), run, r)
    ensures s.rpcs[r].received == ReadFor(Start(c), run, r)
    ensures s.rpcs[r].okEvents == GoodIn({}, run, r)
  {
    StartLog(c, r);
    RunLog(Start(c), run, r, LogOf(Start(c), r), LogOf(s, r));
  }

  // ---------------------------------------------------------------- sends

  /** What sending the item asks of gRPC. */
  function EventFor(t: RpcType, item: SendItem): Event {
    match t
    case NormalRpc => Finish
    case ClientStreaming => Finish
    case ServerStreaming => if item.msg.None? then Finish else Write
    case BidiStreaming => if item.msg.None? then Finish else Write
  }

  lemma TerminalMeans(t: RpcType, item: SendItem)
    ensures Terminal(t, item) <==> EventFor(t, item) == Finish
  {
  }

  /** Send order: the items handed to gRPC in issue order, then the send queue, are the items that the
      steps of the run sent to the RPC, in the order of the steps and of the sends in each. Every item
      of a method with a single response is issued as a Finish; of a method that streams responses,
      exactly the items without a message. */
  lemma SendsFollowRun(c: Config, run: seq<Step>, s: Server, r: nat)
    requires c.eventQueues > 0 && Reached(c, run, s) && r < |s.rpcs|
    ensures Machine.Items(s.rpcs[r].sent) + s.rpcs[r].sendQueue == SentTo(Start(c), run, r)
    ensures forall i :: 0 <= i < |s.rpcs[r].sent| ==>
              s.rpcs[r].sent[i].event == EventFor(s.rpcs[r].rpcType, s.rpcs[r].sent[i].item)
    ensures s.rpcs[r].response == Machine.LastBody(s.rpcs[r].sent)
  {
    SendsInOrder(c, run, s, r);
    ReachedLog(c, run, s, r);
    ReachedGood(c, run, s);
    assert Machine.Invariant(View(s, r));
    forall i | 0 <= i < |s.rpcs[r].sent|
      ensures s.rpcs[r].sent[i].event == EventFor(s.rpcs[r].rpcType, s.rpcs[r].sent[i].item)
    {
      TerminalMeans(s.rpcs[r].rpcType, s.rpcs[r].sent[i].item);
    }
  }

  /** The step makes RPC `r` look at its send queue: it handles a WRITE or WRITE_NEEDED event of it. */
  predicate Looks(s: Server, a: Step, r: nat)
    requires Enabled(s, a)
  {
    a.Handle? && r in s.active && (s.queues[a.queue][0] == Completion(r, Write) || s.queues[a.queue][0] == Internal(r))
  }

  lemma LocalIssue(l: Machine.Local, a: Machine.Action)
    requires Machine.OpsOk(l) && Machine.Enabled(l, a) && Machine.Step(l, a).Running?
    ensures var r, r' := l.rpc, Machine.Step(l, a).next.rpc;
            var written := if a.Handle? && l.inbox[0] == Write then 1 else 0;
            var looks := l.active && (written == 1 || a.Wake?);
            if looks && r.sendQueue != [] && Machine.Unhandled(l, Write) + Machine.Unhandled(l, Finish) == written
            then r'.sent == r.sent + [Sent(EventFor(r.rpcType, r.sendQueue[0]), r.sendQueue[0])]
            else r'.sent == r.sent
  {
    if a.Handle? {
      assert Machine.Queued(l, l.inbox[0]);
    }
  }

  /** When an item is handed to gRPC: exactly in a step that looks at a send queue which is not empty,
      and with no other WRITE or FINISH outstanding than the one being handled. It is the first item. */
  lemma IssuesWhenFree(c: Config, run: seq<Step>, s: Server, a: Step, r: nat)
    requires c.eventQueues > 0 && Reached(c, run, s) && r < |s.rpcs|
    requires Enabled(s, a) && Next(s, a).Running?
    ensures r < |Next(s, a).next.rpcs|
    ensures var rpc, l := s.rpcs[r], View(s, r);
            var written := if a.Handle? && s.queues[a.queue][0] == Completion(r, Write) then 1 else 0;
            Next(s, a).next.rpcs[r].sent == rpc.sent +
              if Looks(s, a, r) && rpc.sendQueue != []
                 && Machine.Unhandled(l, Write) + Machine.Unhandled(l, Finish) == written
              then [Sent(EventFor(rpc.rpcType, rpc.sendQueue[0]), rpc.sendQueue[0])] else []
  {
    ReachedGood(c, run, s);
    assert Machine.Invariant(View(s, r));
    StepProjects(s, a, r);
    assert View(Next(s, a).next, r).rpc == Next(s, a).next.rpcs[r];
    if a.Handle? && s.queues[a.queue][0].Completion? && s.queues[a.queue][0].rpc == r {
      HeadIsInbox(s, a.queue, r);
    }
    if Projected(s, a, r).Some? {
      LocalIssue(View(s, r), Projected(s, a, r).value);
    }
  }

  lemma HeadIsInbox(s: Server, q: nat, r: nat)
    requires WellFormed(s) && q < |s.queues| && s.queues[q] != [] && r < |s.rpcs|
    requires s.queues[q][0].Completion? && s.queues[q][0].rpc == r
    ensures View(s, r).inbox != [] && View(s, r).inbox[0] == s.queues[q][0].event
  {
    assert QueueOk(s, q, s.queues[q][0]);
  }

  // ---------------------------------------------------------------- requests

  /** Requests: the handler sees what gRPC read in the run, in order; all of it but at most the latest
      message, and that too unless its READ waits to be handled. Only an RPC that was refused never
      shows its message. */
  lemma RequestsFollowRun(c: Config, run: seq<Step>, s: Server, r: nat)
    requires c.eventQueues > 0 && Reached(c, run, s) && r < |s.rpcs|
    ensures var rpc, read := s.rpcs[r], ReadFor(Start(c), run, r);
            var requests := Machine.Requests(rpc.calls);
            && requests <= read
            && (r in s.active || rpc.hasHandler ==> |read| <= |requests| + 1)
            && (rpc.hasHandler && Completion(r, Read) !in s.queues[rpc.homeQueue] ==> requests == read)
  {
    ReachedGood(c, run, s);
    ReachedLog(c, run, s, r);
    assert Machine.Invariant(View(s, r));
    RequestsInOrder(c, run, s, r);
    QueuedCompletion(s.queues[s.rpcs[r].homeQueue], r, Read);
  }

  // ---------------------------------------------------------------- connections

  predicate StreamsIn(t: RpcType) {
    match t
    case NormalRpc => false
    case ServerStreaming => false
    case ClientStreaming => true
    case BidiStreaming => true
  }

  lemma LocalConnection(l: Machine.Local, stopped: bool, items: seq<SendItem>)
    requires Machine.OpsOk(l) && l.active && Machine.Enabled(l, Machine.Handle(stopped, items))
    requires l.inbox[0] == NewConnection
    ensures var r, o := l.rpc, Machine.Step(l, Machine.Handle(stopped, items));
            if stopped then
              o.Running? && !o.next.active && o.next.rpc.calls == [] && o.next.rpc.inGrpc == r.inGrpc
            else if NewConnection !in r.okEvents then o == Machine.Faulted(UseAfterRemove)
            else
              && o.Running? && o.next.active && o.next.rpc.sendQueue == items
              && o.next.rpc.inGrpc == (if StreamsIn(r.rpcType) then r.inGrpc.(read := 1) else r.inGrpc)
              && o.next.rpc.calls == if StreamsIn(r.rpcType) then [Initialize]
                                     else [Initialize, OnRequest(r.request), OnReadsDone]
    ensures l.rpc.inGrpc.read == 0
  {
    assert Machine.Queued(l, NewConnection);
  }

  /** Handling a connection. Once the service is stopping, the RPC is removed, its handler is never
      created and nothing more is asked of gRPC. While serving, a connection that failed is a fault;
      for one that came up, a method that streams requests has exactly one READ under way and its
      handler has seen Initialize only; the handler of any other method has seen the one message that
      came with the connection and the end of reading, and no READ is under way. */
  lemma ConnectionFollowsType(c: Config, run: seq<Step>, s: Server, q: nat, items: seq<SendItem>, r: nat)
    requires c.eventQueues > 0 && Reached(c, run, s) && Enabled(s, Handle(q, items))
    requires s.queues[q][0] == Completion(r, NewConnection)
    ensures r < |s.rpcs|
    ensures var o, rpc := Next(s, Handle(q, items)), s.rpcs[r];
            if s.shuttingDown then
              && o.Running? && |o.next.rpcs| == |s.rpcs| && r !in o.next.active
              && o.next.rpcs[r].calls == [] && o.next.rpcs[r].inGrpc == rpc.inGrpc
            else if NewConnection !in GoodIn({}, run, r) then o == Faulted(UseAfterRemove)
            else
              && o.Running? && |o.next.rpcs| == |s.rpcs| + 1 && r in o.next.active
              && o.next.rpcs[r].sendQueue == items
              && match rpc.rpcType
                 case ClientStreaming => o.next.rpcs[r].calls == [Initialize] && o.next.rpcs[r].inGrpc.read == 1
                 case BidiStreaming => o.next.rpcs[r].calls == [Initialize] && o.next.rpcs[r].inGrpc.read == 1
                 case _ =>
                   && |ReadFor(Start(c), run, r)| == 1 && o.next.rpcs[r].inGrpc.read == 0
                   && o.next.rpcs[r].calls == [Initialize, OnRequest(ReadFor(Start(c), run, r)[0]), OnReadsDone]
  {
    var a := Handle(q, items);
    assert QueueOk(s, q, s.queues[q][0]);
    ReachedGood(c, run, s);
    ReachedLog(c, run, s, r);
    var l := View(s, r);
    assert Machine.Invariant(l);
    HeadIsInbox(s, q, r);
    assert Machine.Queued(l, NewConnection);
    LocalConnection(l, s.shuttingDown, items);
    StepProjects(s, a, r);
    if Next(s, a).Running? {
      StepSpawns(s, a);
      assert View(Next(s, a).next, r).rpc == Next(s, a).next.rpcs[r];
      assert View(Next(s, a).next, r).active == (r in Next(s, a).next.active);
    }
  }

  // ---------------------------------------------------------------- types and StopServing

  /** Every RPC serves a method of the configuration, on one of its completion queues, as what the
      method is. */
  ghost predicate Typed(rpc: RpcState, c: Config) {
    && rpc.methodIndex < |c.methods| && rpc.completionQueue < c.completionQueues
    && rpc.rpcType == c.methods[rpc.methodIndex]
  }

  ghost predicate AllTyped(s: Server, c: Config) {
    forall r :: 0 <= r < |s.rpcs| ==> Typed(s.rpcs[r], c)
  }

  lemma StartedTyped(c: Config, i: nat, j: nat)
    requires c.eventQueues > 0 && j <= c.completionQueues && i <= |c.methods| && (j > 0 ==> i < |c.methods|)
    ensures AllTyped(Started(c, i, j), c)
    decreases i, j
  {
    if j > 0 {
      StartedTyped(c, i, j - 1);
    } else if i > 0 {
      StartedTyped(c, i - 1, c.completionQueues);
    }
  }

  lemma StepTyped(s: Server, a: Step, c: Config)
    requires Good(s) && AllTyped(s, c) && Enabled(s, a) && Next(s, a).Running?
    ensures AllTyped(Next(s, a).next, c)
  {
    var s' := Next(s, a).next;
    StepIdentities(s, a);
    StepSpawns(s, a);
    forall r | 0 <= r < |s'.rpcs| ensures Typed(s'.rpcs[r], c) {
      if r < |s.rpcs| {
        assert SameIdentity(s.rpcs[r], s'.rpcs[r]);
      } else {
        assert View(s', r).rpc == s'.rpcs[r];
      }
    }
  }

  lemma RunTyped(s: Server, run: seq<Step>, c: Config)
    requires Good(s) && AllTyped(s, c) && Feasible(s, run) && Exec(s, run).Running?
    ensures AllTyped(Exec(s, run).next, c)
    ensures Exec(s, run).next.shuttingDown <==> s.shuttingDown || Stop in run
    decreases |run|
  {
    if run != [] {
      StepGood(s, run[0]);
      StepTyped(s, run[0], c);
      StepStop(s, run[0]);
      RunTyped(Next(s, run[0]).next, run[1..], c);
    }
  }

  lemma StepStop(s: Server, a: Step)
    requires WellFormed(s) && Enabled(s, a) && Next(s, a).Running?
    ensures Next(s, a).next.shuttingDown <==> s.shuttingDown || a == Stop
  {
  }

  /** In every reached state every RPC, a started listener or a clone, has the type of its method; and
      the service is stopping exactly if StopServing was called. */
  lemma TypesFollowMethods(c: Config, run: seq<Step>, s: Server, r: nat)
    requires c.eventQueues > 0 && Reached(c, run, s) && r < |s.rpcs|
    ensures s.rpcs[r].methodIndex < |c.methods| && s.rpcs[r].completionQueue < c.completionQueues
    ensures s.rpcs[r].rpcType == c.methods[s.rpcs[r].methodIndex]
    ensures s.shuttingDown <==> Stop in run
  {
    StartedTyped(c, |c.methods|, 0);
    StartedGood(c, |c.methods|, 0);
    StartedServing(c, |c.methods|, 0);
    RunTyped(Start(c), run, c);
    assert Typed(s.rpcs[r], c);
  }
}
