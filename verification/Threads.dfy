/** Interleavings that go wrong with a second event thread, or with a Writer that holds an RPC while it
    is removed; and, with them, for which numbers of threads and Writers nothing goes wrong. */
module Threads {
  import opened Types
  import opened RpcModel
  import opened SmallSteps
  import opened SerialSends
  import opened Reduction
  import Machine = RpcMachine

  /** `run` leads from `start` to `m`, and its connections come up exactly while serving. */
  ghost predicate Leads(start: Micro, run: seq<MicroStep>, m: Micro) {
    Feasible(start, run) && Exec(start, run) == m && Allowed(start, run) && ConnectsThroughout(start, run)
  }

  lemma ExtendLeads(start: Micro, run: seq<MicroStep>, m: Micro, a: MicroStep)
    requires Leads(start, run, m) && Enabled(m, a) && Connects(m, a)
    ensures Allowed(start, run + [a]) && ConnectsThroughout(start, run + [a])
    ensures Next(m, a).Running? ==> Leads(start, run + [a], Next(m, a).next)
    ensures Next(m, a).Running? || !ExactThroughout(start, run + [a])
    decreases |run|
  {
    if run == [] {
      assert (run + [a])[0] == a && (run + [a])[1..] == [];
    } else {
      ExtendLeads(Next(start, run[0]).next, run[1..], m, a);
      assert (run + [a])[0] == run[0] && (run + [a])[1..] == run[1..] + [a];
    }
  }

  lemma StepTo(start: Micro, run: seq<MicroStep>, m: Micro, a: MicroStep)
    returns (run': seq<MicroStep>, m': Micro)
    requires Leads(start, run, m) && Enabled(m, a) && Connects(m, a) && Next(m, a).Running?
    ensures Leads(start, run', m') && m' == Next(m, a).next
  {
    ExtendLeads(start, run, m, a);
    run', m' := run + [a], Next(m, a).next;
  }

  lemma NotExactAtEnd(start: Micro, run: seq<MicroStep>, m: Micro)
    requires Leads(start, run, m) && !Exact(m)
    ensures !ExactThroughout(start, run)
    decreases |run|
  {
    if run != [] {
      NotExactAtEnd(Next(start, run[0]).next, run[1..], m);
    }
  }

  // ---------------------------------------------------------------- a connected RPC with queued items

  /** A connected RPC that waits for DONE, with `items` to send and a wakeup for each. */
  ghost predicate Loaded(m: Micro, items: seq<SendItem>) {
    && m.registered && m.inbox == [] && m.wakeups == |items| && m.locked == m.between == {}
    && m.rpc.hasHandler && m.rpc.pending == {Done} && m.rpc.inGrpc == Ops(0, 0, 0, 0, 1)
    && m.rpc.sendQueue == m.rpc.enqueued == items && m.rpc.sent == []
  }

  /** The handler has sent the items and still runs. */
  ghost predicate Called(m: Micro, items: seq<SendItem>) {
    && |m.workers| > 0 && Loaded(m, items)
    && m.workers[0] == Calling(if m.rpc.rpcType.StreamsRequests() then ThenRead else ThenRest, false)
    && forall w :: 0 < w < |m.workers| ==> m.workers[w] == Free
  }

  /** The handler has returned, and reading is over. */
  ghost predicate Ready(m: Micro, items: seq<SendItem>) {
    |m.workers| > 0 && Loaded(m, items) && Idle(m)
  }

  predicate SameKind(m: Micro, m': Micro) {
    m'.rpc.rpcType == m.rpc.rpcType && m'.writers == m.writers && |m'.workers| == |m.workers|
  }

  ghost predicate Listens(m: Micro) {
    && |m.workers| > 0 && Idle(m) && m.registered && m.inbox == [] && m.wakeups == 0 && m.locked == m.between == {}
    && !m.rpc.hasHandler && m.rpc.pending == {Done, NewConnection} && m.rpc.inGrpc == Ops(1, 0, 0, 0, 1)
    && m.rpc.sendQueue == m.rpc.enqueued == [] && m.rpc.sent == []
  }

  lemma Connect(start: Micro, payload: Message) returns (run: seq<MicroStep>, m: Micro)
    requires Listens(start)
    ensures Leads(start, run, m) && Called(m, []) && SameKind(start, m)
  {
    run, m := StepTo(start, [], start, Deliver(NewConnection, true, payload));
    run, m := StepTo(start, run, m, TakeCompletion);
    run, m := StepTo(start, run, m, Work(0, false));
  }

  lemma SendInCall(start: Micro, run: seq<MicroStep>, m: Micro, items: seq<SendItem>, item: SendItem)
    returns (run': seq<MicroStep>, m': Micro)
    requires Leads(start, run, m) && Called(m, items)
    ensures Leads(start, run', m') && Called(m', items + [item]) && SameKind(m, m')
  {
    run', m' := StepTo(start, run, m, HandlerSend(0, item));
    run', m' := StepTo(start, run', m', Work(0, false));
  }

  lemma SendAllInCall(start: Micro, run: seq<MicroStep>, m: Micro, items: seq<SendItem>)
    returns (run': seq<MicroStep>, m': Micro)
    requires Leads(start, run, m) && Called(m, [])
    ensures Leads(start, run', m') && Called(m', items) && SameKind(m, m')
  {
    run', m' := run, m;
    for i := 0 to |items|
      invariant Leads(start, run', m') && Called(m', items[..i]) && SameKind(m, m')
    {
      assert items[..i + 1] == items[..i] + [items[i]];
      run', m' := SendInCall(start, run', m', items[..i], items[i]);
    }
    assert items[..|items|] == items;
  }

  /** The read that a streaming RPC starts after the call. */
  lemma StartRead(start: Micro, run: seq<MicroStep>, m: Micro) returns (run': seq<MicroStep>, m': Micro)
    requires Leads(start, run, m) && |m.workers| > 0 && m.workers[0] == Calling(ThenRead, false)
    requires Alive(m)
    ensures Leads(start, run', m') && SameKind(m, m')
    ensures m' == m.(workers := m.workers[0 := Free], rpc := AskRead(m.rpc))
  {
    run', m' := StepTo(start, run, m, Work(0, false));
    run', m' := StepTo(start, run', m', Work(0, false));
    run', m' := StepTo(start, run', m', Work(0, false));
  }

  /** A read fails, and DONE is still to come. */
  lemma EndReading(start: Micro, run: seq<MicroStep>, m: Micro) returns (run': seq<MicroStep>, m': Micro)
    requires Leads(start, run, m) && |m.workers| > 0 && m.workers[0] == Free && m.inbox == [] && m.registered
    requires m.rpc.hasHandler && Done in m.rpc.pending && m.rpc.inGrpc.read > 0
    ensures Leads(start, run', m') && SameKind(m, m')
    ensures m' == m.(rpc := m'.rpc)
    ensures m'.rpc == Call(Complete(m.rpc, Read, false, ""), OnReadsDone).(pending := m.rpc.pending - {Read})
  {
    run', m' := StepTo(start, run, m, Deliver(Read, false, ""));
    run', m' := StepTo(start, run', m', TakeCompletion);
    run', m' := StepTo(start, run', m', Work(0, false));
    run', m' := StepTo(start, run', m', Work(0, false));
    run', m' := StepTo(start, run', m', Work(0, false));
  }

  lemma ReturnFromCall(start: Micro, run: seq<MicroStep>, m: Micro, items: seq<SendItem>)
    returns (run': seq<MicroStep>, m': Micro)
    requires Leads(start, run, m) && Called(m, items)
    ensures Leads(start, run', m') && Ready(m', items) && SameKind(m, m')
  {
    if m.rpc.rpcType.StreamsRequests() {
      run', m' := StartRead(start, run, m);
      run', m' := EndReading(start, run', m');
      assert {Done} + {Read} - {Read} == {Done};
    } else {
      run', m' := StepTo(start, run, m, Work(0, false));
    }
  }

  /** Whatever the type of the RPC and the number of threads, its handler can load it with any items. */
  lemma ReadyReached(t: RpcType, threads: nat, writers: nat, items: seq<SendItem>)
    returns (run: seq<MicroStep>, m: Micro)
    requires threads > 0
    ensures Leads(Listener(t, threads, writers), run, m) && Ready(m, items)
    ensures m.rpc.rpcType == t && |m.workers| == threads && m.writers == writers
  {
    var start := Listener(t, threads, writers);
    run, m := Connect(start, "");
    run, m := SendAllInCall(start, run, m, items);
    run, m := ReturnFromCall(start, run, m, items);
  }

  // ---------------------------------------------------------------- removal

  /** DONE is the last thing pending, so the RPC is removed. */
  lemma DoneRemoves(start: Micro, run: seq<MicroStep>, m: Micro) returns (run': seq<MicroStep>, m': Micro)
    requires Leads(start, run, m) && |m.workers| > 0 && m.workers[0] == Free && m.inbox == [] && m.registered
    requires m.rpc.pending == {Done} && m.rpc.inGrpc == Ops(0, 0, 0, 0, 1)
    ensures Leads(start, run', m')
    ensures m' == m.(registered := false, rpc := m'.rpc)
    ensures m'.rpc == Complete(m.rpc, Done, true, "").(pending := {})
  {
    run', m' := StepTo(start, run, m, Deliver(Done, true, ""));
    run', m' := StepTo(start, run', m', TakeCompletion);
    assert m'.rpc.pending == {};
    run', m' := StepTo(start, run', m', Work(0, false));
    run', m' := StepTo(start, run', m', Work(0, false));
    run', m' := StepTo(start, run', m', Work(0, false));
  }

  /** The thread for WRITE_NEEDED pops the head of the send queue. */
  lemma WakeAndPop(start: Micro, run: seq<MicroStep>, m: Micro) returns (run': seq<MicroStep>, m': Micro)
    requires Leads(start, run, m) && |m.workers| == 2 && m.workers[1] == Free
    requires m.registered && m.wakeups > 0 && !SendBlocked(m.rpc)
    ensures Leads(start, run', m')
    ensures m' == m.(rpc := m.rpc.(sendQueue := m.rpc.sendQueue[1..]), wakeups := m.wakeups - 1,
                     workers := m.workers[1 := Holding(m.rpc.sendQueue[0])])
  {
    run', m' := StepTo(start, run, m, TakeWakeup);
    run', m' := StepTo(start, run', m', Work(1, false));
    assert m'.workers == m.workers[1 := Holding(m.rpc.sendQueue[0])];
  }

  lemma FlagAndIssue(start: Micro, run: seq<MicroStep>, m: Micro, w: nat)
    returns (run': seq<MicroStep>, m': Micro)
    requires Leads(start, run, m) && w < |m.workers| && m.workers[w].Holding?
    requires m.registered || w == |m.workers| - 1 == 1
    ensures Leads(start, run', m')
    ensures m' == m.(rpc := Perform(m.rpc, m.workers[w].item), workers := m.workers[w := Checking])
  {
    run', m' := StepTo(start, run, m, Work(w, false));
    run', m' := StepTo(start, run', m', Work(w, false));
    assert m'.workers == m.workers[w := Checking];
  }

  lemma Keeps(start: Micro, run: seq<MicroStep>, m: Micro, w: nat) returns (run': seq<MicroStep>, m': Micro)
    requires Leads(start, run, m) && w < |m.workers| && m.workers[w] == Checking && IsAnyEventPending(m.rpc)
    requires m.registered || w == |m.workers| - 1 == 1
    ensures Leads(start, run', m') && m' == m.(workers := m.workers[w := Free])
  {
    run', m' := StepTo(start, run, m, Work(w, false));
  }

  lemma RemoveWhileHolding(start: Micro, run: seq<MicroStep>, m: Micro, item: SendItem)
    returns (run': seq<MicroStep>, m': Micro)
    requires Leads(start, run, m) && Ready(m, [item]) && |m.workers| == 2
    ensures Leads(start, run', m') && !m'.registered && Idle(m') && m'.locked == m'.between == {}
    ensures m'.rpc.inGrpc == Ops(0, 0, 0, 0, 0).Plus(SendEvent(m'.rpc, item)) && |m'.workers| == 2
  {
    run', m' := WakeAndPop(start, run, m);
    run', m' := DoneRemoves(start, run', m');
    run', m' := FlagAndIssue(start, run', m', 1);
    run', m' := Keeps(start, run', m', 1);
  }

  lemma Stranded(m: Micro, e: Event)
    requires !m.registered && Idle(m) && m.locked == m.between == {} && |m.workers| == 2
    requires (e == Write || e == Finish) && m.rpc.inGrpc == Ops(0, 0, 0, 0, 0).Plus(e)
    ensures Outstanding(m) && !Exact(m)
    ensures forall ok, payload :: Enabled(m, Deliver(e, ok, payload))
                                  && Next(m, Deliver(e, ok, payload)) == SmallSteps.Faulted(StaleDispatch)
  {
    assert Machine.Unhandled(Machine.Local(m.rpc, m.inbox, m.wakeups, m.registered), e) > 0;
  }

  /** With two threads, an RPC of any type can be removed while any item is being sent: gRPC is left
      with an operation of an RPC that does not exist any more, and its completion fails. */
  lemma RemovedWhileSending(t: RpcType, writers: nat, item: SendItem) returns (run: seq<MicroStep>, m: Micro)
    ensures Leads(Listener(t, 2, writers), run, m)
    ensures !m.registered && Idle(m) && Outstanding(m) && !Exact(m)
    ensures forall ok, payload ::
              Enabled(m, Deliver(SendEvent(m.rpc, item), ok, payload))
              && Next(m, Deliver(SendEvent(m.rpc, item), ok, payload)) == SmallSteps.Faulted(StaleDispatch)
  {
    run, m := ReadyReached(t, 2, writers, [item]);
    run, m := RemoveWhileHolding(Listener(t, 2, writers), run, m, item);
    Stranded(m, SendEvent(m.rpc, item));
  }

  // ---------------------------------------------------------------- Writers

  /** A Writer that holds the RPC while it is removed runs into the CHECK of GetWeakPtr; whatever the
      type of the RPC, the number of threads and the item. */
  lemma WriterAborts(t: RpcType, threads: nat, writers: nat, item: SendItem)
    returns (run: seq<MicroStep>, m: Micro)
    requires threads > 0 && writers > 0
    ensures Leads(Listener(t, threads, writers), run, m)
    ensures Enabled(m, WriterPush(0)) && Next(m, WriterPush(0)) == Aborted
  {
    var start := Listener(t, threads, writers);
    run, m := ReadyReached(t, threads, writers, []);
    run, m := StepTo(start, run, m, WriterLock(0));
    run, m := DoneRemoves(start, run, m);
    run, m := StepTo(start, run, m, WriterEnqueue(0, item));
  }

  // ---------------------------------------------------------------- overtaking

  /** The first item is written; its completion is handled by the other thread, which pops the next
      item; before that thread sets the pending flag, a wakeup pops the item after it. */
  lemma BothHold(t: RpcType, writers: nat, a: SendItem, b: SendItem, c: SendItem)
    returns (run: seq<MicroStep>, m: Micro)
    requires !Terminal(t, a)
    ensures Leads(Listener(t, 2, writers), run, m) && m.registered
    ensures m.workers == [Holding(b), Holding(c)] && m.rpc.rpcType == t && m.rpc.inGrpc == Ops(0, 0, 0, 0, 1)
    ensures m.rpc.enqueued == [a, b, c] && m.rpc.sent == [Sent(Write, a)]
  {
    var start := Listener(t, 2, writers);
    run, m := ReadyReached(t, 2, writers, [a, b, c]);
    run, m := WakeAndPop(start, run, m);
    run, m := FlagAndIssue(start, run, m, 1);
    run, m := Keeps(start, run, m, 1);
    run, m := CompleteAndPop(start, run, m);
    run, m := WakeAndPop(start, run, m);
    assert m.workers == [Holding(b), Holding(c)];
  }

  lemma CompleteAndPop(start: Micro, run: seq<MicroStep>, m: Micro) returns (run': seq<MicroStep>, m': Micro)
    requires Leads(start, run, m) && |m.workers| == 2 && m.workers[0] == Free && m.inbox == [] && m.registered
    requires m.rpc.inGrpc == Ops(0, 0, 1, 0, 1) && m.rpc.pending == {Done, Write} && m.rpc.sendQueue != []
    ensures Leads(start, run', m')
    ensures m' == m.(rpc := m'.rpc, workers := m.workers[0 := Holding(m.rpc.sendQueue[0])])
    ensures m'.rpc == Complete(m.rpc, Write, true, "").(sendQueue := m.rpc.sendQueue[1..], pending := {Done})
  {
    run', m' := StepTo(start, run, m, Deliver(Write, true, ""));
    run', m' := StepTo(start, run', m', TakeCompletion);
    assert m'.rpc.pending == {Done};
    run', m' := StepTo(start, run', m', Work(0, false));
    assert m'.workers == m.workers[0 := Holding(m.rpc.sendQueue[0])];
  }

  /** With two threads, the third of any three items can overtake the second: gRPC holds both at once,
      in the wrong order, and a Finish can be followed by a Write. */
  lemma Overtakes(t: RpcType, writers: nat, a: SendItem, b: SendItem, c: SendItem)
    returns (run: seq<MicroStep>, m: Micro)
    requires !Terminal(t, a) && !Terminal(t, b)
    ensures Leads(Listener(t, 2, writers), run, m)
    ensures m.rpc.rpcType == t && m.rpc.enqueued == [a, b, c]
    ensures m.rpc.sent == [Sent(Write, a), Sent(if Terminal(t, c) then Finish else Write, c), Sent(Write, b)]
    ensures !OneSendAtATime(m)
  {
    var start := Listener(t, 2, writers);
    run, m := BothHold(t, writers, a, b, c);
    run, m := FlagAndIssue(start, run, m, 1);
    run, m := FlagAndIssue(start, run, m, 0);
  }

  // ---------------------------------------------------------------- how many threads, how many Writers

  lemma OutOfOrder(m: Micro, x: SendItem, y: SendItem)
    requires m.rpc.enqueued == [x, x, y] && x != y && |m.rpc.sent| == 3 && m.rpc.sent[1].item == y
    ensures !SentInOrder(m)
  {
    assert Machine.Items(m.rpc.sent)[1] == y;
  }

  lemma FinishOvertakes(m: Micro, x: SendItem, end: SendItem)
    requires m.rpc.enqueued == [x, x, end] && !Terminal(m.rpc.rpcType, x)
    requires |m.rpc.sent| == 3 && m.rpc.sent[1].event == Finish
    ensures !FinishesLast(m)
  {
  }

  lemma TwoSenders(t: RpcType, writers: nat) returns (run: seq<MicroStep>, run': seq<MicroStep>)
    requires t.StreamsResponses()
    ensures var start := Listener(t, 2, writers);
            && Feasible(start, run) && !OneSendAtATime(Exec(start, run)) && !SentInOrder(Exec(start, run))
            && Feasible(start, run') && !FinishesLast(Exec(start, run'))
  {
    var m, m';
    var x, y, end := SendItem(Some("x"), STATUS_OK), SendItem(Some("y"), STATUS_OK), SendItem(None, STATUS_OK);
    run, m := Overtakes(t, writers, x, x, y);
    OutOfOrder(m, x, y);
    run', m' := Overtakes(t, writers, x, x, end);
    FinishOvertakes(m', x, end);
  }

  ghost predicate AlwaysSerial(start: Micro) {
    forall run :: Feasible(start, run) ==> Serial(Exec(start, run))
  }

  ghost predicate AlwaysOneSend(start: Micro) {
    forall run :: Feasible(start, run) ==> OneSendAtATime(Exec(start, run))
  }

  ghost predicate AlwaysInOrder(start: Micro) {
    forall run :: Feasible(start, run) ==> SentInOrder(Exec(start, run))
  }

  ghost predicate AlwaysFinishesLast(start: Micro) {
    forall run :: Feasible(start, run) ==> FinishesLast(Exec(start, run))
  }

  lemma SerialMeans(start: Micro)
    requires AlwaysSerial(start)
    ensures AlwaysOneSend(start) && AlwaysInOrder(start) && AlwaysFinishesLast(start)
  {
    forall run | Feasible(start, run)
      ensures OneSendAtATime(Exec(start, run)) && SentInOrder(Exec(start, run)) && FinishesLast(Exec(start, run))
    {
      assert Serial(Exec(start, run));
    }
  }

  /** In all interleavings there is one send at a time, sends are in order, and the Finish of a call
      that ends once comes last: each of these, and all of OneSenderSerial, if and only if one thread
      handles all events of the RPC or the RPC does not stream responses. */
  lemma SerialIffOneSender(t: RpcType, threads: nat, writers: nat)
    requires 1 <= threads <= 2
    ensures var start, single := Listener(t, threads, writers), threads == 1 || !t.StreamsResponses();
            && (AlwaysSerial(start) <==> single) && (AlwaysOneSend(start) <==> single)
            && (AlwaysInOrder(start) <==> single) && (AlwaysFinishesLast(start) <==> single)
  {
    var start := Listener(t, threads, writers);
    if threads == 1 || !t.StreamsResponses() {
      forall run | Feasible(start, run) ensures Serial(Exec(start, run)) {
        OneSenderSerial(t, threads, writers, run);
      }
    } else {
      var run, run' := TwoSenders(t, writers);
      assert !AlwaysOneSend(start) && !AlwaysInOrder(start) && !AlwaysFinishesLast(start);
    }
    if AlwaysSerial(start) {
      SerialMeans(start);
    }
  }

  lemma NoHoldersStay(m: Micro, a: MicroStep)
    requires |m.workers| == 1 && m.writers == 0 && m.locked == m.between == {} && Enabled(m, a)
    ensures Undisturbed(m, a)
    ensures Next(m, a).Running? ==>
              var m' := Next(m, a).next; |m'.workers| == 1 && m'.writers == 0 && m'.locked == m'.between == {}
  {
  }

  lemma NoWritersNoDisturbance(m: Micro, run: seq<MicroStep>)
    requires |m.workers| == 1 && m.writers == 0 && m.locked == m.between == {} && Allowed(m, run)
    ensures UndisturbedThroughout(m, run)
    decreases |run|
  {
    if run != [] {
      NoHoldersStay(m, run[0]);
      if Next(m, run[0]).Running? {
        NoWritersNoDisturbance(Next(m, run[0]).next, run[1..]);
      }
    }
  }

  /** In all interleavings whose connections come up exactly while serving, the RPC is registered
      exactly while something is outstanding or being handled, and nothing fails, if and only if
      there is one event thread and no Writer. */
  lemma LifetimeIffAlone(t: RpcType, threads: nat, writers: nat)
    requires 1 <= threads <= 2
    ensures var start := Listener(t, threads, writers);
            (forall run :: Allowed(start, run) && ConnectsThroughout(start, run) ==> ExactThroughout(start, run))
            <==> threads == 1 && writers == 0
  {
    var start := Listener(t, threads, writers);
    if threads == 1 && writers == 0 {
      forall run | Allowed(start, run) && ConnectsThroughout(start, run) ensures ExactThroughout(start, run) {
        NoWritersNoDisturbance(start, run);
        OneThreadLifetime(t, writers, run);
      }
    } else if threads == 2 {
      var run, m := RemovedWhileSending(t, writers, SendItem(None, STATUS_OK));
      NotExactAtEnd(start, run, m);
    } else {
      var run, m := WriterAborts(t, threads, writers, SendItem(None, STATUS_OK));
      ExtendLeads(start, run, m, WriterPush(0));
    }
  }

  ghost predicate AbortFree(m: Micro, run: seq<MicroStep>)
    requires Allowed(m, run)
    decreases |run|
  {
    run == [] ||
    (!Next(m, run[0]).Aborted? && (Next(m, run[0]).Running? ==> AbortFree(Next(m, run[0]).next, run[1..])))
  }

  lemma UndisturbedAbortFree(m: Micro, run: seq<MicroStep>)
    requires OneThreadOk(m) && Allowed(m, run) && UndisturbedThroughout(m, run)
    ensures AbortFree(m, run)
    decreases |run|
  {
    if run != [] {
      StepRefines(m, run[0]);
      if Next(m, run[0]).Running? {
        UndisturbedAbortFree(Next(m, run[0]).next, run[1..]);
      }
    }
  }

  lemma AbortAtEnd(start: Micro, run: seq<MicroStep>, m: Micro, a: MicroStep)
    requires Leads(start, run, m) && Enabled(m, a) && Next(m, a).Aborted?
    ensures Allowed(start, run + [a]) && !AbortFree(start, run + [a])
    decreases |run|
  {
    if run == [] {
      assert (run + [a])[0] == a && (run + [a])[1..] == [];
    } else {
      AbortAtEnd(Next(start, run[0]).next, run[1..], m, a);
      assert (run + [a])[0] == run[0] && (run + [a])[1..] == run[1..] + [a];
    }
  }

  lemma HandlersAreSafe(t: RpcType, run: seq<MicroStep>)
    requires Allowed(Listener(t, 1, 0), run)
    ensures AbortFree(Listener(t, 1, 0), run)
  {
    var start := Listener(t, 1, 0);
    NoWritersNoDisturbance(start, run);
    ListenerOk(t, 0);
    UndisturbedAbortFree(start, run);
  }

  /** The CHECK of GetWeakPtr never fails, in all interleavings with one event thread, if and only if
      only handlers send and no Writer is used from another thread. */
  lemma AbortFreeIffNoWriters(t: RpcType, writers: nat)
    ensures (forall run :: Allowed(Listener(t, 1, writers), run) ==> AbortFree(Listener(t, 1, writers), run))
            <==> writers == 0
  {
    var start := Listener(t, 1, writers);
    if writers == 0 {
      forall run | Allowed(start, run) ensures AbortFree(start, run) {
        HandlersAreSafe(t, run);
      }
    } else {
      var run, m := WriterAborts(t, 1, writers, SendItem(None, STATUS_OK));
      AbortAtEnd(start, run, m, WriterPush(0));
      assert !AbortFree(start, run + [WriterPush(0)]);
    }
  }
}
