/** The server seen by one RPC. The completion events of an RPC all wait in the queue it was
    constructed with, so a shared FIFO queue shows each RPC its own completions in order: every
    step of the server is, for each RPC, one step of its own machine or nothing at all. */
module Projection {
  import opened Types
  import opened RpcModel
  import opened ServerModel
  import Machine = RpcMachine

  function Completions(q: seq<QueuedEvent>, r: nat): seq<Event> {
    if q == [] then []
    else (if q[0].Completion? && q[0].rpc == r then [q[0].event] else []) + Completions(q[1..], r)
  }

  function Wakeups(q: seq<QueuedEvent>, r: nat): nat {
    if q == [] then 0 else (if q[0] == Internal(r) then 1 else 0) + Wakeups(q[1..], r)
  }

  ghost function View(s: Server, r: nat): Machine.Local
    requires WellFormed(s) && r < |s.rpcs|
  {
    var rpc := s.rpcs[r];
    Machine.Local(rpc, Completions(s.queues[rpc.homeQueue], r), Wakeups(s.queues[rpc.eventQueue], r), r in s.active)
  }

  /** The part RPC `r` plays in a step of the server. */
  ghost function Projected(s: Server, a: Step, r: nat): Option<Machine.Action>
    requires WellFormed(s) && Enabled(s, a)
  {
    match a
    case Deliver(p, e, ok, payload) => if p == r then Some(Machine.Deliver(e, ok, payload)) else None
    case Handle(q, items) =>
      var e := s.queues[q][0];
      if e.rpc != r then None
      else if e.Completion? then Some(Machine.Handle(s.shuttingDown, items))
      else Some(Machine.Wake)
    case WriterSend(p, item) => if p == r && r in s.active then Some(Machine.Enqueue(item)) else None
    case Stop => None
  }

  // ---------------------------------------------------------------- queues

  lemma ConcatQueues(a: seq<QueuedEvent>, b: seq<QueuedEvent>, r: nat)
    ensures Completions(a + b, r) == Completions(a, r) + Completions(b, r)
    ensures Wakeups(a + b, r) == Wakeups(a, r) + Wakeups(b, r)
  {
    if a == [] {
      assert a + b == b;
    } else {
      ConcatQueues(a[1..], b, r);
      assert (a + b)[1..] == a[1..] + b;
    }
  }

  lemma InternalEvents(count: nat, p: nat, r: nat)
    ensures Completions(Internals(p, count), r) == []
    ensures Wakeups(Internals(p, count), r) == if p == r then count else 0
  {
    if count > 0 {
      InternalEvents(count - 1, p, r);
      assert Internals(p, count)[1..] == Internals(p, count - 1);
    }
  }

  /** An RPC without entries in the queues has an empty inbox and no wakeups. */
  lemma Unmentioned(q: seq<QueuedEvent>, r: nat)
    requires forall i :: 0 <= i < |q| ==> q[i].rpc != r
    ensures Completions(q, r) == [] && Wakeups(q, r) == 0
  {
    if q != [] {
      assert forall i :: 0 <= i < |q[1..]| ==> q[1..][i] == q[i + 1];
      Unmentioned(q[1..], r);
    }
  }

  lemma PushWakeupsView(s: Server, p: nat, count: nat, r: nat)
    requires WellFormed(s) && p < |s.rpcs| && r < |s.rpcs|
    ensures WellFormed(PushWakeups(s, p, count))
    ensures View(PushWakeups(s, p, count), r) ==
            View(s, r).(wakeups := View(s, r).wakeups + if p == r then count else 0)
  {
    PushWakeupsWellFormed(s, p, count);
    InternalEvents(count, p, r);
    ConcatQueues(s.queues[s.rpcs[p].eventQueue], Internals(p, count), r);
  }

  lemma RegisterView(s: Server, rpc: RpcState, r: nat)
    requires WellFormed(s) && rpc.homeQueue < |s.queues| && r < |s.rpcs|
    ensures WellFormed(Register(s, rpc)) && View(Register(s, rpc), r) == View(s, r)
  {
    RegisterWellFormed(s, rpc);
  }

  /** A freshly registered RPC starts its machine as a new listener. */
  lemma RegisteredView(s: Server, rpc: RpcState)
    requires WellFormed(s) && rpc.homeQueue < |s.queues|
    ensures WellFormed(Register(s, rpc))
    ensures View(Register(s, rpc), |s.rpcs|) ==
            Machine.NewListener(SetEventQueue(rpc, SelectNextEventQueue(s)))
  {
    RegisterWellFormed(s, rpc);
    forall q, i | 0 <= q < |s.queues| && 0 <= i < |s.queues[q]| ensures s.queues[q][i].rpc != |s.rpcs| {
      assert QueueOk(s, q, s.queues[q][i]);
    }
    Unmentioned(s.queues[rpc.homeQueue], |s.rpcs|);
    Unmentioned(s.queues[SelectNextEventQueue(s)], |s.rpcs|);
  }

  // ---------------------------------------------------------------- steps

  lemma DeliverProjects(s: Server, p: nat, e: Event, ok: bool, payload: Message, r: nat)
    requires WellFormed(s) && Enabled(s, Deliver(p, e, ok, payload)) && p in s.active && r < |s.rpcs|
    ensures var s' := Next(s, Deliver(p, e, ok, payload)).next;
            && WellFormed(s')
            && View(s', r) == if p != r then View(s, r)
                              else Machine.Step(View(s, r), Machine.Deliver(e, ok, payload)).next
  {
    NextWellFormed(s, Deliver(p, e, ok, payload));
    ConcatQueues(s.queues[s.rpcs[p].homeQueue], [Completion(p, e)], r);
    assert [Completion(p, e)][1..] == [];
    assert Completions([Completion(p, e)], r) == if p == r then [e] else [];
  }

  lemma StoreView(s: Server, p: nat, rpc: RpcState, keep: bool, r: nat)
    requires WellFormed(s) && p in s.active && r < |s.rpcs|
    requires rpc.homeQueue == s.rpcs[p].homeQueue && rpc.eventQueue == s.rpcs[p].eventQueue
    ensures WellFormed(Store(s, p, rpc, keep))
    ensures View(Store(s, p, rpc, keep), r) ==
            if p != r then View(s, r) else View(s, r).(rpc := rpc, active := keep)
  {
    StoreWellFormed(s, p, rpc, keep);
  }

  lemma SettleView(s: Server, p: nat, h: Handled, count: nat, r: nat)
    requires WellFormed(s) && p in s.active && r < |s.rpcs| && h.Handled?
    requires h.rpc.homeQueue == s.rpcs[p].homeQueue && h.rpc.eventQueue == s.rpcs[p].eventQueue
    ensures var s' := Settle(s, p, h, count).next;
            && WellFormed(s') && |s'.rpcs| == |s.rpcs| + (if h.spawn then 1 else 0)
            && View(s', r) == (if p != r then View(s, r) else Machine.Settle(View(s, r), h, count).next)
  {
    StoreView(s, p, h.rpc, h.keep, r);
    PushWakeupsView(Store(s, p, h.rpc, h.keep), p, count, r);
    if h.spawn {
      RegisterView(PushWakeups(Store(s, p, h.rpc, h.keep), p, count), Clone(h.rpc), r);
    }
  }

  lemma SpawnView(s: Server, p: nat, h: Handled, count: nat)
    requires WellFormed(s) && p in s.active && h.Handled? && h.spawn
    requires h.rpc.homeQueue == s.rpcs[p].homeQueue && h.rpc.eventQueue == s.rpcs[p].eventQueue
    ensures var s' := Settle(s, p, h, count).next;
            && WellFormed(s') && |s'.rpcs| == |s.rpcs| + 1
            && View(s', |s.rpcs|) == Machine.NewListener(SetEventQueue(Clone(h.rpc), SelectNextEventQueue(s)))
  {
    StoreWellFormed(s, p, h.rpc, h.keep);
    PushWakeupsWellFormed(Store(s, p, h.rpc, h.keep), p, count);
    RegisteredView(PushWakeups(Store(s, p, h.rpc, h.keep), p, count), Clone(h.rpc));
  }

  lemma PopView(s: Server, q: nat, r: nat)
    requires WellFormed(s) && q < |s.queues| && s.queues[q] != [] && r < |s.rpcs|
    ensures var s', e := Pop(s, q), s.queues[q][0];
            && WellFormed(s')
            && if e.rpc != r then View(s', r) == View(s, r)
               else if e.Completion? then
                 View(s, r).inbox != [] && View(s, r).inbox[0] == e.event
                 && View(s', r) == View(s, r).(inbox := View(s, r).inbox[1..])
               else View(s, r).wakeups > 0 && View(s', r) == View(s, r).(wakeups := View(s, r).wakeups - 1)
  {
    PopWellFormed(s, q);
    assert QueueOk(s, q, s.queues[q][0]);
  }

  lemma HandleProjects(s: Server, q: nat, items: seq<SendItem>, r: nat)
    requires WellFormed(s) && Enabled(s, Handle(q, items)) && r < |s.rpcs|
    ensures Follows(s, Handle(q, items), r)
  {
    var e := s.queues[q][0];
    assert QueueOk(s, q, e);
    PopView(s, q, r);
    if e.rpc in s.active {
      var h := HandleEntry(s, e, items);
      if h.Handled? {
        SettleView(Pop(s, q), e.rpc, h, |items|, r);
      }
    }
  }

  /** The step of the server is, for RPC `r`, the step `Projected` names, or none. */
  ghost predicate Follows(s: Server, a: Step, r: nat)
    requires WellFormed(s) && Enabled(s, a) && r < |s.rpcs|
  {
    var p := Projected(s, a, r);
    if p.Some? then
      && Machine.Enabled(View(s, r), p.value)
      && match Machine.Step(View(s, r), p.value)
         case Faulted(f) => Next(s, a) == Faulted(f)
         case Running(l) =>
           && Next(s, a).Running? && WellFormed(Next(s, a).next)
           && r < |Next(s, a).next.rpcs| && View(Next(s, a).next, r) == l
    else
      Next(s, a).Running? ==>
        WellFormed(Next(s, a).next) && r < |Next(s, a).next.rpcs| && View(Next(s, a).next, r) == View(s, r)
  }

  lemma StepProjects(s: Server, a: Step, r: nat)
    requires WellFormed(s) && Enabled(s, a) && r < |s.rpcs|
    ensures Follows(s, a, r)
  {
    match a {
      case Deliver(p, e, ok, payload) =>
        if p in s.active { DeliverProjects(s, p, e, ok, payload, r); }
      case Handle(q, items) => HandleProjects(s, q, items, r);
      case WriterSend(p, item) => WriterProjects(s, p, item, r);
      case Stop => NextWellFormed(s, a);
    }
  }

  lemma WriterProjects(s: Server, p: nat, item: SendItem, r: nat)
    requires WellFormed(s) && Enabled(s, WriterSend(p, item)) && r < |s.rpcs|
    ensures Follows(s, WriterSend(p, item), r)
  {
    if p in s.active {
      SettleView(s, p, Handled(EnqueueAll(s.rpcs[p], [item]), true, false), 1, r);
    }
  }

  ghost predicate Spawns(s: Server, a: Step)
    requires Enabled(s, a)
  {
    && a.Handle? && s.queues[a.queue][0].Completion? && s.queues[a.queue][0].event == NewConnection
    && !s.shuttingDown
  }

  /** A step creates at most one RPC, and that one is a new listener: the clone of the RPC whose
      connection was handled, moved to the next event queue. */
  ghost predicate SpawnsListener(s: Server, a: Step, s': Server)
    requires WellFormed(s) && WellFormed(s') && Enabled(s, a)
  {
    && |s'.queues| == |s.queues|
    && if Spawns(s, a) then
         var parent := s.queues[a.queue][0].rpc;
         && |s'.rpcs| == |s.rpcs| + 1 && parent < |s.rpcs| && s'.currentQueue == SelectNextEventQueue(s)
         && View(s', |s.rpcs|) ==
            Machine.NewListener(SetEventQueue(Clone(s.rpcs[parent]), SelectNextEventQueue(s)))
       else
         |s'.rpcs| == |s.rpcs| && s'.currentQueue == s.currentQueue
  }

  lemma HandleSpawns(s: Server, q: nat, items: seq<SendItem>)
    requires WellFormed(s) && Enabled(s, Handle(q, items)) && Next(s, Handle(q, items)).Running?
    ensures WellFormed(Next(s, Handle(q, items)).next)
    ensures SpawnsListener(s, Handle(q, items), Next(s, Handle(q, items)).next)
  {
    NextWellFormed(s, Handle(q, items));
    var e := s.queues[q][0];
    assert QueueOk(s, q, e);
    PopWellFormed(s, q);
    if e.rpc in s.active {
      var h := HandleEntry(s, e, items);
      SettleView(Pop(s, q), e.rpc, h, |items|, e.rpc);
      if h.spawn {
        SpawnView(Pop(s, q), e.rpc, h, |items|);
      }
    }
  }

  lemma StepSpawns(s: Server, a: Step)
    requires WellFormed(s) && Enabled(s, a) && Next(s, a).Running?
    ensures WellFormed(Next(s, a).next) && SpawnsListener(s, a, Next(s, a).next)
  {
    NextWellFormed(s, a);
    if a.Handle? {
      HandleSpawns(s, a.queue, a.items);
    }
  }
}
