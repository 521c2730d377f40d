/** The asynchronous client of a server-streaming method: WRITE, any number of READs, FINISH. */
module AsyncClientModel {
  import opened Types

  datatype Op = WriteOp | ReadOp | FinishOp

  /** A call of the user's callback: with a response, or with a null response and a final status. */
  datatype Report = Data(response: Message) | Last(status: Status)

  /** The last four fields are histories: what the callback was told, what gRPC read, and whether the
      initial write failed and the FINISH event was handled. */
  datatype Client = Client(
    callback: bool,               // callback_ is not null
    response: Message,
    finishStatus: Status,
    started: bool,                // response_reader_ exists
    outstanding: seq<Op>,         // with gRPC, in issue order
    reports: seq<Report>,
    received: seq<Message>,
    writeFailed: bool,
    finished: Option<bool>)       // the ok flag of the handled FINISH event

  datatype Step =
    | WriteAsync
    | Complete(op: Op, ok: bool, payload: Message, status: Status)

  const WRITE_FAILED := Status(INTERNAL, "Write failed in async server streaming.")
  const FINISH_FAILED := Status(INTERNAL, "Finish failed in async server streaming.")

  function New(callback: bool): Client {
    Client(callback, "", STATUS_OK, false, [], [], [], false, None)
  }

  function Issue(c: Client, op: Op): Client {
    c.(outstanding := c.outstanding + [op])
  }

  function Tell(c: Client, report: Report): Client {
    if c.callback then c.(reports := c.reports + [report]) else c
  }

  function HandleWriteEvent(c: Client, ok: bool): Client {
    if ok then Issue(c, ReadOp)
    else Issue(Tell(c, Last(WRITE_FAILED)).(callback := false, finishStatus := WRITE_FAILED, writeFailed := true),
               FinishOp)
  }

  function HandleReadEvent(c: Client, ok: bool): Client {
    if ok then Issue(Tell(c, Data(c.response)), ReadOp)
    else Issue(c.(finishStatus := STATUS_OK), FinishOp)
  }

  function HandleFinishEvent(c: Client, ok: bool): Client {
    Tell(c, Last(if ok then STATUS_OK else FINISH_FAILED)).(callback := false, finished := Some(ok))
  }

  function HandleEvent(c: Client, op: Op, ok: bool): Client {
    match op
    case WriteOp => HandleWriteEvent(c, ok)
    case ReadOp => HandleReadEvent(c, ok)
    case FinishOp => HandleFinishEvent(c, ok)
  }

  /** gRPC completes an operation: a read fills the response slot, a finish the status. */
  function Completed(c: Client, op: Op, ok: bool, payload: Message, status: Status): Client
    requires op in c.outstanding
  {
    var i := IndexOf(c.outstanding, op);
    var c' := c.(outstanding := c.outstanding[..i] + c.outstanding[i+1..]);
    if op == ReadOp && ok then c'.(response := payload, received := c.received + [payload])
    else if op == FinishOp then c'.(finishStatus := status)
    else c'
  }

  function IndexOf(ops: seq<Op>, op: Op): (i: nat)
    requires op in ops
    ensures i < |ops| && ops[i] == op
  {
    if ops[0] == op then 0 else 1 + IndexOf(ops[1..], op)
  }

  predicate Enabled(c: Client, a: Step) {
    match a
    case WriteAsync => !c.started
    case Complete(op, _, _, _) => op in c.outstanding
  }

  function Next(c: Client, a: Step): Client
    requires Enabled(c, a)
  {
    match a
    case WriteAsync => Issue(c.(started := true), WriteOp)
    case Complete(op, ok, payload, status) => HandleEvent(Completed(c, op, ok, payload, status), op, ok)
  }

  ghost predicate Feasible(c: Client, run: seq<Step>)
    decreases |run|
  {
    run == [] || (Enabled(c, run[0]) && Feasible(Next(c, run[0]), run[1..]))
  }

  ghost function Exec(c: Client, run: seq<Step>): Client
    requires Feasible(c, run)
    decreases |run|
  {
    if run == [] then c else Exec(Next(c, run[0]), run[1..])
  }

  // ---------------------------------------------------------------- the callback trace

  /** One data report per message. */
  function Datas(received: seq<Message>): seq<Report> {
    seq(|received|, i requires 0 <= i < |received| => Data(received[i]))
  }

  /** The final report, once the initial write has failed or FINISH has been handled. */
  function Ending(c: Client): seq<Report> {
    if c.writeFailed then [Last(WRITE_FAILED)]
    else match c.finished
      case None => []
      case Some(ok) => [Last(if ok then STATUS_OK else FINISH_FAILED)]
  }

  /** `given` says whether the user passed a callback. */
  ghost predicate TraceOk(c: Client, given: bool) {
    && c.reports == (if given then Datas(c.received) + Ending(c) else [])
    && (c.callback <==> given && Ending(c) == [])
    && (!c.started ==> c.outstanding == [] && c.received == [] && !c.writeFailed && c.finished.None?)
    && (c.started ==> |c.outstanding| == if c.finished.None? then 1 else 0)
    && (c.writeFailed ==> c.received == [] && (c.finished.None? ==> c.outstanding == [FinishOp]))
    && (WriteOp in c.outstanding ==> c.received == [])
  }

  lemma StepTrace(c: Client, a: Step, given: bool)
    requires TraceOk(c, given) && Enabled(c, a)
    ensures TraceOk(Next(c, a), given)
  {
    var c' := Next(c, a);
    if a.Complete? {
      assert c.outstanding == [a.op];
      if a.op == ReadOp && a.ok {
        assert Datas(c'.received) == Datas(c.received) + [Data(a.payload)];
      }
    }
  }

  lemma RunTrace(c: Client, run: seq<Step>, given: bool)
    requires TraceOk(c, given) && Feasible(c, run)
    ensures TraceOk(Exec(c, run), given)
    decreases |run|
  {
    if run != [] {
      StepTrace(c, run[0], given);
      RunTrace(Next(c, run[0]), run[1..], given);
    }
  }

  /** The messages that gRPC read successfully in the run, in order. */
  function Payloads(run: seq<Step>): seq<Message> {
    if run == [] then []
    else
      var a := run[0];
      (if a.Complete? && a.op == ReadOp && a.ok then [a.payload] else []) + Payloads(run[1..])
  }

  lemma StepReads(c: Client, a: Step)
    requires Enabled(c, a)
    ensures Next(c, a).received ==
            c.received + if a.Complete? && a.op == ReadOp && a.ok then [a.payload] else []
  {
  }

  lemma RunReads(c: Client, run: seq<Step>)
    requires Feasible(c, run)
    ensures Exec(c, run).received == c.received + Payloads(run)
    decreases |run|
  {
    if run != [] {
      var c', rest := Next(c, run[0]), run[1..];
      StepReads(c, run[0]);
      RunReads(c', rest);
      assert Exec(c, run) == Exec(c', rest);
    }
  }

  // ---------------------------------------------------------------- told from the run

  /** What gRPC is asked for after the step: WRITE at the start, READ after a success, FINISH after a
      failure, nothing after FINISH. */
  function Answer(a: Step): seq<Op> {
    match a
    case WriteAsync => [WriteOp]
    case Complete(op, ok, _, _) =>
      match op
      case WriteOp => if ok then [ReadOp] else [FinishOp]
      case ReadOp => if ok then [ReadOp] else [FinishOp]
      case FinishOp => []
  }

  /** The operation awaited after the run. */
  function Awaited(run: seq<Step>): seq<Op> {
    if run == [] then [] else Answer(run[|run|-1])
  }

  /** The step ends the call for the callback: the write fails, or FINISH completes. */
  function EndIn(a: Step): seq<Report> {
    if a.WriteAsync? || a.op == ReadOp || (a.op == WriteOp && a.ok) then []
    else if a.op == WriteOp then [Last(Status(13, "Write failed in async server streaming."))]
    else if a.ok then [Last(Status(0, ""))]
    else [Last(Status(13, "Finish failed in async server streaming."))]
  }

  /** The first end. */
  function EndOf(run: seq<Step>): seq<Report> {
    if run == [] then [] else if EndIn(run[0]) != [] then EndIn(run[0]) else EndOf(run[1..])
  }

  lemma StepAwaited(c: Client, a: Step, given: bool)
    requires TraceOk(c, given) && Enabled(c, a)
    ensures Next(c, a).outstanding == Answer(a)
  {
    if a.Complete? {
      assert c.outstanding == [a.op];
      assert IndexOf(c.outstanding, a.op) == 0;
      assert [a.op][..0] + [a.op][1..] == [];
    }
  }

  lemma RunAwaited(c: Client, run: seq<Step>, given: bool)
    requires TraceOk(c, given) && Feasible(c, run) && run != []
    ensures Exec(c, run).outstanding == Awaited(run)
    decreases |run|
  {
    StepAwaited(c, run[0], given);
    StepTrace(c, run[0], given);
    if |run| > 1 {
      RunAwaited(Next(c, run[0]), run[1..], given);
    } else {
      assert run == [run[0]] && run[1..] == [];
    }
  }

  lemma StepEnding(c: Client, a: Step, given: bool)
    requires TraceOk(c, given) && Enabled(c, a)
    ensures Ending(Next(c, a)) == if Ending(c) != [] then Ending(c) else EndIn(a)
  {
    if a.Complete? {
      assert c.outstanding == [a.op];
    }
  }

  lemma RunEnding(c: Client, run: seq<Step>, given: bool)
    requires TraceOk(c, given) && Feasible(c, run)
    ensures Ending(Exec(c, run)) == if Ending(c) != [] then Ending(c) else EndOf(run)
    decreases |run|
  {
    if run != [] {
      StepEnding(c, run[0], given);
      StepTrace(c, run[0], given);
      RunEnding(Next(c, run[0]), run[1..], given);
    }
  }

  /** Each step answers the one before it. */
  ghost predicate Chained(run: seq<Step>) {
    forall i :: 0 < i < |run| ==> run[i].Complete? && Answer(run[i - 1]) == [run[i].op]
  }

  lemma RunChained(c: Client, run: seq<Step>, given: bool)
    requires TraceOk(c, given) && Feasible(c, run)
    ensures Chained(run)
    ensures run != [] && !c.started ==> run[0] == WriteAsync
    ensures run != [] && c.started ==> run[0].Complete? && c.outstanding == [run[0].op]
    decreases |run|
  {
    if run != [] {
      StepTrace(c, run[0], given);
      StepAwaited(c, run[0], given);
      RunChained(Next(c, run[0]), run[1..], given);
      forall i | 0 < i < |run| ensures run[i].Complete? && Answer(run[i - 1]) == [run[i].op] {
        assert run[i] == run[1..][i - 1];
        assert i > 1 ==> run[i - 1] == run[1..][i - 2];
      }
    }
  }

  /** The i-th step of a chain that ends with FINISH. */
  lemma ChainAt(run: seq<Step>, i: nat)
    requires run != [] && run[0] == WriteAsync && Chained(run) && Answer(run[|run|-1]) == [] && 0 < i < |run|
    ensures run[i].op == (if i == |run| - 1 then FinishOp else if i == 1 then WriteOp else ReadOp)
    ensures i < |run| - 1 ==> (run[i].ok <==> i < |run| - 2)
    decreases |run| - i
  {
    assert Answer(run[i - 1]) == [run[i].op];
    if i < |run| - 1 {
      ChainAt(run, i + 1);
      assert Answer(run[i]) == [run[i + 1].op];
    }
  }

  /** A call after which nothing is outstanding is complete: WRITE, any number of READs and FINISH, of
      which exactly the last before FINISH failed. */
  lemma CompleteCall(given: bool, run: seq<Step>)
    requires Feasible(New(given), run) && run != [] && Exec(New(given), run).outstanding == []
    ensures |run| >= 3 && run[0] == WriteAsync
    ensures forall i :: 0 < i < |run| ==>
              && run[i].Complete?
              && run[i].op == (if i == |run| - 1 then FinishOp else if i == 1 then WriteOp else ReadOp)
              && (i < |run| - 1 ==> (run[i].ok <==> i < |run| - 2))
  {
    RunChained(New(given), run, given);
    RunAwaited(New(given), run, given);
    assert Answer(run[0]) == [WriteOp];
    forall i | 0 < i < |run|
      ensures run[i].op == (if i == |run| - 1 then FinishOp else if i == 1 then WriteOp else ReadOp)
      ensures i < |run| - 1 ==> (run[i].ok <==> i < |run| - 2)
    {
      ChainAt(run, i);
    }
    ChainAt(run, 1);
  }

  /** In every run the callback is told each message read, in order, and then once, with a null
      response, how the call ended: exactly if the initial write failed or FINISH was handled. What is
      outstanding is the one operation awaited, and nothing only before the start and after FINISH. */
  lemma CallbackTrace(given: bool, run: seq<Step>)
    requires Feasible(New(given), run)
    ensures var c := Exec(New(given), run);
            && c.reports == (if given then Datas(Payloads(run)) + Ending(c) else [])
            && |Ending(c)| == (if c.writeFailed || c.finished.Some? then 1 else 0)
            && |c.outstanding| == (if c.started && c.finished.None? then 1 else 0)
            && (c.writeFailed ==> Payloads(run) == [])
            && Ending(c) == EndOf(run) && c.outstanding == Awaited(run)
  {
    RunTrace(New(given), run, given);
    RunEnding(New(given), run, given);
    if run != [] {
      RunAwaited(New(given), run, given);
    }
    RunReads(New(given), run);
    assert [] + Payloads(run) == Payloads(run);
  }

  // ---------------------------------------------------------------- the final status

  predicate SameButStatus(a: Step, b: Step) {
    a == b || (a.Complete? && b.Complete? && b == a.(status := b.status))
  }

  predicate SameButFinishStatus(c: Client, d: Client) {
    d == c.(finishStatus := d.finishStatus)
  }

  lemma CompletedSame(c: Client, d: Client, op: Op, ok: bool, payload: Message, status: Status, status': Status)
    requires SameButFinishStatus(c, d) && op in c.outstanding
    ensures SameButFinishStatus(Completed(c, op, ok, payload, status), Completed(d, op, ok, payload, status'))
  {
    var i := IndexOf(c.outstanding, op);
    assert i == IndexOf(d.outstanding, op);
  }

  lemma HandleEventSame(c: Client, d: Client, op: Op, ok: bool)
    requires SameButFinishStatus(c, d)
    ensures SameButFinishStatus(HandleEvent(c, op, ok), HandleEvent(d, op, ok))
  {
  }

  lemma StepSame(c: Client, d: Client, a: Step, b: Step)
    requires SameButFinishStatus(c, d) && Enabled(c, a) && SameButStatus(a, b)
    ensures Enabled(d, b) && SameButFinishStatus(Next(c, a), Next(d, b))
  {
    if a.Complete? {
      CompletedSame(c, d, a.op, a.ok, a.payload, a.status, b.status);
      HandleEventSame(Completed(c, a.op, a.ok, a.payload, a.status),
                      Completed(d, a.op, a.ok, a.payload, b.status), a.op, a.ok);
    }
  }

  /** The status with which the server ends the call never reaches the callback: two runs that differ
      only in it make the same reports. */
  lemma StatusNotReported(c: Client, d: Client, run: seq<Step>, other: seq<Step>)
    requires SameButFinishStatus(c, d) && Feasible(c, run) && |run| == |other|
    requires forall i :: 0 <= i < |run| ==> SameButStatus(run[i], other[i])
    ensures Feasible(d, other) && SameButFinishStatus(Exec(c, run), Exec(d, other))
    decreases |run|
  {
    if run != [] {
      StepSame(c, d, run[0], other[0]);
      StatusNotReported(Next(c, run[0]), Next(d, other[0]), run[1..], other[1..]);
    }
  }
}

/** The client as an object whose event handlers update it in place. */
module AsyncClients {
  import opened Types
  import opened Model = AsyncClientModel

  class AsyncClient {
    var callback: bool
    var response: Message
    var finishStatus: Status
    var started: bool
    ghost var outstanding: seq<Op>
    ghost var reports: seq<Report>
    ghost var received: seq<Message>
    ghost var writeFailed: bool
    ghost var finished: Option<bool>

    ghost function State(): Client
      reads this
    {
      Client(callback, response, finishStatus, started, outstanding, reports, received, writeFailed, finished)
    }

    constructor (callback: bool)
      ensures State() == New(callback)
    {
      this.callback, response, finishStatus, started := callback, "", STATUS_OK, false;
      outstanding, reports, received, writeFailed, finished := [], [], [], false, None;
    }

    method WriteAsync()
      requires Enabled(State(), Step.WriteAsync)
      modifies this
      ensures State() == Next(old(State()), Step.WriteAsync)
    {
      started := true;
      outstanding := outstanding + [WriteOp];
    }

    /** gRPC completes an operation and the completion queue runner has it handled. */
    method OnCompletion(op: Op, ok: bool, payload: Message, status: Status)
      requires Enabled(State(), Complete(op, ok, payload, status))
      modifies this
      ensures State() == Next(old(State()), Complete(op, ok, payload, status))
    {
      ghost var i := IndexOf(outstanding, op);
      outstanding := outstanding[..i] + outstanding[i+1..];
      if op == ReadOp && ok {
        response := payload;
        received := received + [payload];
      } else if op == FinishOp {
        finishStatus := status;
      }
      HandleEvent(op, ok);
    }

    method HandleEvent(op: Op, ok: bool)
      modifies this
      ensures State() == Model.HandleEvent(old(State()), op, ok)
    {
      match op {
        case WriteOp => HandleWriteEvent(ok);
        case ReadOp => HandleReadEvent(ok);
        case FinishOp => HandleFinishEvent(ok);
      }
    }

    method HandleWriteEvent(ok: bool)
      modifies this
      ensures State() == Model.HandleWriteEvent(old(State()), ok)
    {
      if !ok {
        if callback {
          reports := reports + [Last(WRITE_FAILED)];
          callback := false;
        }
        finishStatus := WRITE_FAILED;
        writeFailed := true;
        outstanding := outstanding + [FinishOp];
        return;
      }
      outstanding := outstanding + [ReadOp];
    }

    method HandleReadEvent(ok: bool)
      modifies this
      ensures State() == Model.HandleReadEvent(old(State()), ok)
    {
      if ok {
        if callback {
          reports := reports + [Data(response)];
        }
        outstanding := outstanding + [ReadOp];
      } else {
        finishStatus := STATUS_OK;
        outstanding := outstanding + [FinishOp];
      }
    }

    method HandleFinishEvent(ok: bool)
      modifies this
      ensures State() == Model.HandleFinishEvent(old(State()), ok)
    {
      if callback {
        reports := reports + [Last(if ok then STATUS_OK else FINISH_FAILED)];
        callback := false;
      }
      finished := Some(ok);
    }
  }
}
