/** After StopServing the server drains: deliveries and event handling come to an end, and they end
    with ActiveRpcs empty. */
module Shutdown {
  import opened Types
  import opened RpcModel
  import opened ServerModel
  import opened Projection
  import opened Lifetime
  import opened Delivery
  import opened Listeners
  import Machine = RpcMachine

  /** A step of the drain: gRPC fails connections and reads, threads handle what is queued, handlers
      and Writers may still send. */
  predicate Drains(a: Step) {
    match a
    case Deliver(_, e, ok, _) => e == NewConnection || e == Read ==> !ok
    case Handle(_, _) => true
    case WriterSend(_, _) => true
    case Stop => false
  }

  function Sends(a: Step): nat {
    match a
    case Handle(_, items) => |items|
    case WriterSend(_, _) => 1
    case _ => 0
  }

  /** The items sent in a run. */
  function AllSends(run: seq<Step>): nat {
    if run == [] then 0 else Sends(run[0]) + AllSends(run[1..])
  }

  predicate LocalDrains(a: Machine.Action) {
    match a
    case Deliver(e, ok, _) => e == NewConnection || e == Read ==> !ok
    case Handle(stopped, _) => stopped
    case Wake => true
    case Enqueue(_) => true
  }

  function LocalSends(a: Machine.Action): nat {
    match a
    case Handle(_, items) => |items|
    case Enqueue(_) => 1
    case _ => 0
  }

  /** Queued items weigh more than operations in gRPC, and these more than queued events; a queued
      read that succeeded will issue one more. */
  function Weight(l: Machine.Local): nat {
    var g := l.rpc.inGrpc;
    3 * |l.rpc.sendQueue| + 2 * (g.connection + g.read + g.write + g.finish + g.done) + |l.inbox| + l.wakeups
    + if Machine.Queued(l, Read) && Read in l.rpc.okEvents then 2 else 0
  }

  lemma SendQueueWeight(r: RpcState)
    ensures var r' := HandleSendQueue(r);
            r' == r || (|r'.sendQueue| == |r.sendQueue| - 1 && r'.okEvents == r.okEvents
                        && (r'.inGrpc == r.inGrpc.Plus(Write) || r'.inGrpc == r.inGrpc.Plus(Finish)))
  {
  }

  lemma DeliverDecreases(l: Machine.Local, e: Event, ok: bool, payload: Message)
    requires Machine.CanComplete(l.rpc, e) && LocalDrains(Machine.Deliver(e, ok, payload)) && l.active
    ensures Weight(Machine.Step(l, Machine.Deliver(e, ok, payload)).next) < Weight(l)
  {
    Machine.PushInbox(l.inbox, e);
  }

  lemma HandleDecreases(l: Machine.Local, items: seq<SendItem>)
    requires Machine.OutstandingOk(l) && Machine.ConnectionFirst(l) && l.active
    requires Machine.Enabled(l, Machine.Handle(true, items)) && Machine.Step(l, Machine.Handle(true, items)).Running?
    ensures Weight(Machine.Step(l, Machine.Handle(true, items)).next) + 1 <= Weight(l) + 5 * |items|
  {
    assert Machine.Queued(l, l.inbox[0]);
    if l.inbox[0] == Write || l.inbox[0] == WriteNeeded {
      SendQueueWeight(l.rpc.(pending := l.rpc.pending - {l.inbox[0]}));
    }
  }

  lemma LocalDrainDecreases(l: Machine.Local, a: Machine.Action)
    requires Machine.Invariant(l) && Machine.Enabled(l, a) && LocalDrains(a) && Machine.Step(l, a).Running?
    ensures Weight(Machine.Step(l, a).next) + 1 <= Weight(l) + 5 * LocalSends(a)
  {
    match a {
      case Deliver(e, ok, payload) => DeliverDecreases(l, e, ok, payload);
      case Handle(_, items) => HandleDecreases(l, items);
      case Wake => SendQueueWeight(l.rpc);
      case Enqueue(_) =>
    }
  }

  function Sum(xs: seq<nat>): nat {
    if xs == [] then 0 else Sum(xs[..|xs| - 1]) + xs[|xs| - 1]
  }

  lemma {:induction false} SumUpdate(xs: seq<nat>, p: nat, x: nat)
    requires p < |xs|
    ensures Sum(xs[p := x]) + xs[p] == Sum(xs) + x
  {
    var n := |xs| - 1;
    if p < n {
      SumUpdate(xs[..n], p, x);
      assert xs[p := x][..n] == xs[..n][p := x];
    } else {
      assert xs[p := x][..n] == xs[..n];
    }
  }

  ghost function Weights(s: Server): seq<nat>
    requires WellFormed(s)
  {
    seq(|s.rpcs|, r requires 0 <= r < |s.rpcs| => Weight(View(s, r)))
  }

  ghost function Work(s: Server): nat
    requires WellFormed(s)
  {
    Sum(Weights(s))
  }

  lemma WorkChanges(s: Server, s': Server, p: nat)
    requires WellFormed(s) && WellFormed(s') && |s.rpcs| == |s'.rpcs| && p < |s.rpcs|
    requires forall r :: 0 <= r < |s.rpcs| && r != p ==> View(s', r) == View(s, r)
    ensures Work(s') + Weight(View(s, p)) == Work(s) + Weight(View(s', p))
  {
    assert Weights(s') == Weights(s)[p := Weight(View(s', p))];
    SumUpdate(Weights(s), p, Weight(View(s', p)));
  }

  /** The RPC that a step of the drain is about. */
  function About(s: Server, a: Step): nat
    requires Enabled(s, a) && Drains(a)
  {
    match a
    case Deliver(r, _, _, _) => r
    case Handle(q, _) => s.queues[q][0].rpc
    case WriterSend(r, _) => r
  }

  lemma StepDrains(s: Server, a: Step)
    requires Good(s) && s.shuttingDown && Drains(a) && Enabled(s, a) && Next(s, a).Running?
    ensures Good(Next(s, a).next) && Next(s, a).next.shuttingDown
    ensures Work(Next(s, a).next) + 1 <= Work(s) + 5 * Sends(a)
  {
    var s', p := Next(s, a).next, About(s, a);
    StepGood(s, a);
    StepStopped(s, a);
    StepSpawns(s, a);
    if a.Handle? {
      assert QueueOk(s, a.queue, s.queues[a.queue][0]);
    }
    StepProjects(s, a, p);
    assert Machine.Invariant(View(s, p));
    var b := Projected(s, a, p);
    if b.Some? {
      LocalDrainDecreases(View(s, p), b.value);
    }
    forall r: nat | r < |s.rpcs| && r != p ensures View(s', r) == View(s, r) {
      StepProjects(s, a, r);
    }
    WorkChanges(s, s', p);
  }

  lemma RunDrains(s: Server, run: seq<Step>)
    requires Good(s) && s.shuttingDown && Feasible(s, run) && Exec(s, run).Running?
    requires forall i :: 0 <= i < |run| ==> Drains(run[i])
    ensures Good(Exec(s, run).next) && Exec(s, run).next.shuttingDown
    ensures |run| + Work(Exec(s, run).next) <= Work(s) + 5 * AllSends(run)
    decreases |run|
  {
    if run != [] {
      StepDrains(s, run[0]);
      RunDrains(Next(s, run[0]).next, run[1..]);
    }
  }

  /** Every drain without fault is finite: its length is bounded by the work left at StopServing and
      the number of items sent since. */
  lemma ShutdownDrains(c: Config, run: seq<Step>, s: Server, drain: seq<Step>)
    requires c.eventQueues > 0 && Reached(c, run, s) && s.shuttingDown
    requires Feasible(s, drain) && Exec(s, drain).Running?
    requires forall i :: 0 <= i < |drain| ==> Drains(drain[i])
    ensures |drain| <= Work(s) + 5 * AllSends(drain)
  {
    ReachedGood(c, run, s);
    RunDrains(s, drain);
  }

  /** The drain is not stuck while an RPC is registered, an operation outstanding or an event queued. */
  lemma DrainProgress(s: Server) returns (a: Step)
    requires Good(s)
    requires s.active != {} || exists q :: 0 <= q < |s.queues| && s.queues[q] != []
    ensures Drains(a) && Sends(a) == 0 && Enabled(s, a)
  {
    if q :| 0 <= q < |s.queues| && s.queues[q] != [] {
      a := Handle(q, []);
    } else {
      var r :| r in s.active;
      var l := View(s, r);
      assert Machine.Invariant(l);
      assert Completions(s.queues[l.rpc.homeQueue], r) == [];
      var g := l.rpc.inGrpc;
      var e := if g.connection > 0 then NewConnection else if g.read > 0 then Read
               else if g.write > 0 then Write else if g.finish > 0 then Finish else Done;
      a := Deliver(r, e, false, "");
    }
  }

  // ---------------------------------------------------------------- connections that came too late

  /** The connections waiting in the queue have failed. */
  ghost predicate ConnectionsFailed(s: Server, q: nat)
    requires WellFormed(s) && q < |s.queues|
  {
    forall i :: 0 <= i < |s.queues[q]| && s.queues[q][i].Completion? && s.queues[q][i].event == NewConnection ==>
      s.queues[q][i].rpc < |s.rpcs| && NewConnection !in s.rpcs[s.queues[q][i].rpc].okEvents
  }

  ghost predicate AllFailed(s: Server)
    requires WellFormed(s)
  {
    forall q :: 0 <= q < |s.queues| ==> ConnectionsFailed(s, q)
  }

  lemma HandlingKeepsOk(r: RpcState, e: Event, ok: bool, stopped: bool, items: seq<SendItem>)
    ensures var h := HandleEvent(r, e, ok, stopped, items); h.Handled? ==> h.rpc.okEvents == r.okEvents
  {
  }

  lemma HandleEntryKeepsOk(s: Server, e: QueuedEvent, items: seq<SendItem>)
    requires e.rpc < |s.rpcs|
    ensures HandleEntry(s, e, items).Handled? ==> HandleEntry(s, e, items).rpc.okEvents == s.rpcs[e.rpc].okEvents
  {
    var r := s.rpcs[e.rpc];
    if e.Completion? {
      HandlingKeepsOk(r.(pending := r.pending - {e.event}), e.event, e.event in r.okEvents, s.shuttingDown, items);
    } else {
      HandlingKeepsOk(r, WriteNeeded, true, false, []);
    }
  }

  function PushedTo(queues: seq<seq<QueuedEvent>>, q: nat, es: seq<QueuedEvent>): seq<seq<QueuedEvent>>
    requires q < |queues|
  {
    queues[q := queues[q] + es]
  }

  /** Handling the head of a queue in a stopping service takes it from the queue, and pushes one
      WRITE_NEEDED event for each item sent. */
  lemma HandleStopped(s: Server, q: nat, items: seq<SendItem>)
    requires WellFormed(s) && s.shuttingDown && Enabled(s, Handle(q, items)) && Next(s, Handle(q, items)).Running?
    ensures var s', e := Next(s, Handle(q, items)).next, s.queues[q][0];
            && s'.shuttingDown && |s'.rpcs| == |s.rpcs|
            && e.rpc < |s.rpcs| && s.rpcs[e.rpc].eventQueue < |s.queues|
            && s'.queues == PushedTo(Pop(s, q).queues, s.rpcs[e.rpc].eventQueue, Internals(e.rpc, |items|))
            && forall r :: 0 <= r < |s.rpcs| ==> s'.rpcs[r].okEvents == s.rpcs[r].okEvents
  {
    var e := s.queues[q][0];
    assert QueueOk(s, q, e);
    if e.rpc in s.active {
      HandleEntryKeepsOk(s, e, items);
    } else {
      PushNothing(Pop(s, q), e.rpc);
    }
  }

  lemma FailedAfterPush(s: Server, s': Server, q: nat, es: seq<QueuedEvent>, x: nat)
    requires WellFormed(s) && WellFormed(s') && |s'.rpcs| == |s.rpcs| && |s'.queues| == |s.queues|
    requires q < |s.queues| && x < |s.queues| && s'.queues == PushedTo(s.queues, q, es) && ConnectionsFailed(s, x)
    requires forall r :: 0 <= r < |s.rpcs| && NewConnection in s'.rpcs[r].okEvents ==>
               NewConnection in s.rpcs[r].okEvents
    requires forall i :: 0 <= i < |es| && es[i].Completion? && es[i].event == NewConnection ==>
               es[i].rpc < |s.rpcs| && NewConnection !in s'.rpcs[es[i].rpc].okEvents
    ensures ConnectionsFailed(s', x)
  {
    forall i | 0 <= i < |s'.queues[x]| && s'.queues[x][i].Completion? && s'.queues[x][i].event == NewConnection
      ensures s'.queues[x][i].rpc < |s.rpcs| && NewConnection !in s'.rpcs[s'.queues[x][i].rpc].okEvents
    {
      if i < |s.queues[x]| {
        assert s'.queues[x][i] == s.queues[x][i];
      } else {
        assert s'.queues[x][i] == es[i - |s.queues[x]|];
      }
    }
  }

  lemma PopFailed(s: Server, q: nat, x: nat)
    requires WellFormed(s) && q < |s.queues| && s.queues[q] != [] && x < |s.queues| && ConnectionsFailed(s, x)
    ensures WellFormed(Pop(s, q)) && ConnectionsFailed(Pop(s, q), x)
  {
    PopWellFormed(s, q);
    assert forall i :: 0 <= i < |s.queues[q]| - 1 ==> Pop(s, q).queues[q][i] == s.queues[q][i + 1];
  }

  /** The drain brings up no connection. */
  lemma StepFailed(s: Server, a: Step, x: nat)
    requires WellFormed(s) && s.shuttingDown && Drains(a) && Enabled(s, a) && Next(s, a).Running?
    requires x < |s.queues| && ConnectionsFailed(s, x)
    ensures WellFormed(Next(s, a).next) && |Next(s, a).next.queues| == |s.queues|
    ensures ConnectionsFailed(Next(s, a).next, x)
  {
    var s' := Next(s, a).next;
    NextWellFormed(s, a);
    match a {
      case Deliver(r, e, _, _) => FailedAfterPush(s, s', s.rpcs[r].homeQueue, [Completion(r, e)], x);
      case Handle(q, items) =>
        HandleStopped(s, q, items);
        var r := s.queues[q][0].rpc;
        PopFailed(s, q, x);
        FailedAfterPush(Pop(s, q), s', s.rpcs[r].eventQueue, Internals(r, |items|), x);
      case WriterSend(r, _) =>
        if r in s.active {
          FailedAfterPush(s, s', s.rpcs[r].eventQueue, Internals(r, 1), x);
        }
    }
  }

  lemma FailedConnects(s: Server, a: Step)
    requires WellFormed(s) && s.shuttingDown && Drains(a) && Enabled(s, a)
    requires a.Handle? ==> ConnectionsFailed(s, a.queue)
    ensures ConnectsWhileServing(s, a)
  {
  }

  lemma StepAllFailed(s: Server, a: Step)
    requires WellFormed(s) && s.shuttingDown && Drains(a) && Enabled(s, a) && Next(s, a).Running? && AllFailed(s)
    ensures WellFormed(Next(s, a).next) && AllFailed(Next(s, a).next)
  {
    NextWellFormed(s, a);
    StepSpawns(s, a);
    forall x | 0 <= x < |s.queues| ensures ConnectionsFailed(Next(s, a).next, x) {
      StepFailed(s, a, x);
    }
  }

  lemma DrainConnects(s: Server, drain: seq<Step>)
    requires Good(s) && s.shuttingDown && AllFailed(s) && Feasible(s, drain)
    requires forall i :: 0 <= i < |drain| ==> Drains(drain[i])
    ensures RunConnectsWhileServing(s, drain)
    decreases |drain|
  {
    if drain != [] {
      FailedConnects(s, drain[0]);
      if Next(s, drain[0]).Running? {
        StepDrains(s, drain[0]);
        StepAllFailed(s, drain[0]);
        DrainConnects(Next(s, drain[0]).next, drain[1..]);
      }
    }
  }

  /** From a stopped server whose registry is exact and whose waiting connections have failed, every
      drain, whatever handlers and Writers still send, is free of faults and bounded by the work left
      and the number of items sent; and when it cannot go on, the registry, the event queues and gRPC
      are empty. */
  lemma DrainCompletes(c: Config, run: seq<Step>, s: Server, drain: seq<Step>)
    requires c.eventQueues > 0 && Reached(c, run, s) && s.shuttingDown && LifetimeExact(s) && AllFailed(s)
    requires Feasible(s, drain) && forall i :: 0 <= i < |drain| ==> Drains(drain[i])
    ensures Exec(s, drain).Running? && LifetimeExact(Exec(s, drain).next)
    ensures |drain| <= Work(s) + 5 * AllSends(drain)
    ensures var s' := Exec(s, drain).next;
            (forall a :: Drains(a) && Sends(a) == 0 ==> !Enabled(s', a)) ==>
              && s'.active == {}
              && (forall q :: 0 <= q < |s'.queues| ==> s'.queues[q] == [])
              && (forall r :: 0 <= r < |s'.rpcs| ==> !Outstanding(s', r))
  {
    ReachedGood(c, run, s);
    DrainConnects(s, drain);
    ExactRuns(s, drain);
    RunExactEnds(s, drain);
    RunDrains(s, drain);
    if forall a :: Drains(a) && Sends(a) == 0 ==> !Enabled(Exec(s, drain).next, a) {
      DrainEnd(Exec(s, drain).next);
    }
  }

  lemma DrainEnd(s: Server)
    requires Good(s) && LifetimeExact(s) && forall a :: Drains(a) && Sends(a) == 0 ==> !Enabled(s, a)
    ensures s.active == {}
    ensures forall q :: 0 <= q < |s.queues| ==> s.queues[q] == []
    ensures forall r :: 0 <= r < |s.rpcs| ==> !Outstanding(s, r)
  {
    if s.active != {} || exists q :: 0 <= q < |s.queues| && s.queues[q] != [] {
      var a := DrainProgress(s);
      assert false;
    }
  }

  /** A connection that came up and waits in a queue is refused when its turn comes. */
  lemma LateDrain(s: Server, q: nat, i: nat) returns (drain: seq<Step>)
    requires Good(s) && LifetimeExact(s) && s.shuttingDown && q < |s.queues| && i < |s.queues[q]|
    requires var e := s.queues[q][i];
             e.Completion? && e.event == NewConnection && e.rpc < |s.rpcs| && NewConnection in s.rpcs[e.rpc].okEvents
    ensures Feasible(s, drain) && !RunConnectsWhileServing(s, drain)
    ensures forall j :: 0 <= j < |drain| ==> drain[j] == Handle(q, [])
    decreases i
  {
    var a := Handle(q, []);
    if !ConnectsWhileServing(s, a) {
      drain := [a];
      assert drain[1..] == [];
      if Next(s, a).Running? {
        NextWellFormed(s, a);
      }
    } else {
      StepExact(s, a);
      StepGood(s, a);
      HandleStopped(s, q, []);
      var s' := Next(s, a).next;
      PushNothing(Pop(s, q), s.queues[q][0].rpc);
      assert s'.queues == Pop(s, q).queues;
      assert i > 0 && s'.queues[q][i - 1] == s.queues[q][i];
      var rest := LateDrain(s', q, i - 1);
      drain := [a] + rest;
      assert drain[1..] == rest;
    }
  }

  /** From a stopped server with an exact registry, every drain keeps the registry exact and reaches no
      removed RPC if and only if the connections waiting in the event queues have failed. */
  lemma DrainExactIffFailed(c: Config, run: seq<Step>, s: Server)
    requires c.eventQueues > 0 && Reached(c, run, s) && s.shuttingDown && LifetimeExact(s)
    ensures (forall drain :: Feasible(s, drain) && (forall i :: 0 <= i < |drain| ==> Drains(drain[i])) ==>
               RunExact(s, drain)) <==> AllFailed(s)
  {
    ReachedGood(c, run, s);
    if AllFailed(s) {
      forall drain | Feasible(s, drain) && (forall i :: 0 <= i < |drain| ==> Drains(drain[i]))
        ensures RunExact(s, drain)
      {
        DrainConnects(s, drain);
        ExactRuns(s, drain);
      }
    } else {
      var q :| 0 <= q < |s.queues| && !ConnectionsFailed(s, q);
      var i :| 0 <= i < |s.queues[q]| && s.queues[q][i].Completion? && s.queues[q][i].event == NewConnection
               && !(s.queues[q][i].rpc < |s.rpcs| && NewConnection !in s.rpcs[s.queues[q][i].rpc].okEvents);
      assert QueueOk(s, q, s.queues[q][i]);
      var drain := LateDrain(s, q, i);
      ExactRuns(s, drain);
    }
  }

  // ---------------------------------------------------------------- one event queue

  function CompletionsIn(q: seq<QueuedEvent>): nat {
    if q == [] then 0 else (if q[0].Completion? then 1 else 0) + CompletionsIn(q[1..])
  }

  lemma {:induction false} CompletionsInConcat(a: seq<QueuedEvent>, b: seq<QueuedEvent>)
    ensures CompletionsIn(a + b) == CompletionsIn(a) + CompletionsIn(b)
  {
    if a == [] {
      assert a + b == b;
    } else {
      assert (a + b)[1..] == a[1..] + b;
      CompletionsInConcat(a[1..], b);
    }
  }

  lemma {:induction false} NoCompletions(r: nat, count: nat)
    ensures CompletionsIn(Internals(r, count)) == 0
  {
    if count > 0 {
      assert Internals(r, count)[1..] == Internals(r, count - 1);
      NoCompletions(r, count - 1);
    }
  }

  /** Other queues only get WRITE_NEEDED events. */
  ghost predicate OnlyWakeupsAdded(before: seq<seq<QueuedEvent>>, after: seq<seq<QueuedEvent>>, q: nat) {
    && |after| == |before|
    && forall x :: 0 <= x < |before| && x != q ==>
         before[x] <= after[x] && forall i :: |before[x]| <= i < |after[x]| ==> after[x][i].Internal?
  }

  lemma OnlyWakeupsTransitive(a: seq<seq<QueuedEvent>>, b: seq<seq<QueuedEvent>>, c: seq<seq<QueuedEvent>>, q: nat)
    requires OnlyWakeupsAdded(a, b, q) && OnlyWakeupsAdded(b, c, q)
    ensures OnlyWakeupsAdded(a, c, q)
  {
  }

  /** `after` has fewer completion events than `before`, or as many and is shorter. */
  predicate Shrinks(before: seq<QueuedEvent>, after: seq<QueuedEvent>) {
    || CompletionsIn(after) < CompletionsIn(before)
    || (CompletionsIn(after) == CompletionsIn(before) && |after| < |before|)
  }

  /** When a stopping service handles the next event of a queue, that queue loses a completion event or
      else gets shorter, whatever the handler sends. */
  lemma QueueShrinks(s: Server, q: nat, items: seq<SendItem>)
    requires WellFormed(s) && s.shuttingDown && Enabled(s, Handle(q, items)) && Next(s, Handle(q, items)).Running?
    ensures var s' := Next(s, Handle(q, items)).next;
            && s'.shuttingDown && |s'.rpcs| == |s.rpcs|
            && OnlyWakeupsAdded(s.queues, s'.queues, q) && Shrinks(s.queues[q], s'.queues[q])
  {
    HandleStopped(s, q, items);
    var e := s.queues[q][0];
    NoCompletions(e.rpc, |items|);
    CompletionsInConcat(s.queues[q][1..], Internals(e.rpc, |items|));
  }

  /** If only failed connections wait in it and the registry is exact, no fault comes of it, and the
      registry stays exact. */
  lemma QueueDrains(s: Server, q: nat, items: seq<SendItem>)
    requires Good(s) && LifetimeExact(s) && s.shuttingDown && Enabled(s, Handle(q, items))
    requires ConnectionsFailed(s, q)
    ensures Next(s, Handle(q, items)).Running?
    ensures var s' := Next(s, Handle(q, items)).next; Good(s') && LifetimeExact(s')
    ensures var s' := Next(s, Handle(q, items)).next; |s'.queues| == |s.queues| && ConnectionsFailed(s', q)
  {
    FailedConnects(s, Handle(q, items));
    StepExact(s, Handle(q, items));
    StepGood(s, Handle(q, items));
    StepFailed(s, Handle(q, items), q);
  }

  predicate HandlesOnly(run: seq<Step>, q: nat) {
    forall i :: 0 <= i < |run| ==> run[i].Handle? && run[i].queue == q
  }

  /** `run` handles events of queue `q` of a stopping service and leads from `s` to `s'`. */
  ghost predicate Drained(s: Server, run: seq<Step>, q: nat, s': Server) {
    && WellFormed(s) && WellFormed(s') && s.shuttingDown && s'.shuttingDown
    && Feasible(s, run) && Exec(s, run) == Running(s') && HandlesOnly(run, q)
    && q < |s.queues| && OnlyWakeupsAdded(s.queues, s'.queues, q)
  }

  lemma DrainedNothing(s: Server, q: nat)
    requires WellFormed(s) && s.shuttingDown && q < |s.queues|
    ensures Drained(s, [], q, s)
  {
  }

  lemma DrainedStep(s: Server, run: seq<Step>, q: nat, s': Server, items: seq<SendItem>)
    requires Drained(s, run, q, s') && Enabled(s', Handle(q, items))
    ensures var run' := run + [Handle(q, items)];
            && Feasible(s, run') && HandlesOnly(run', q) && Exec(s, run') == Next(s', Handle(q, items))
            && (Exec(s, run').Running? ==>
                  && Drained(s, run', q, Exec(s, run').next)
                  && Shrinks(s'.queues[q], Exec(s, run').next.queues[q]))
  {
    Extend(s, run, Handle(q, items));
    if Next(s', Handle(q, items)).Running? {
      QueueShrinks(s', q, items);
      NextWellFormed(s', Handle(q, items));
      OnlyWakeupsTransitive(s.queues, s'.queues, Next(s', Handle(q, items)).next.queues, q);
    }
  }
}
