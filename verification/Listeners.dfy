/** Which RPCs wait for connections. */
module Listeners {
  import opened Types
  import opened RpcModel
  import opened ServerModel
  import opened Projection
  import opened Lifetime
  import opened Delivery
  import Machine = RpcMachine

  /** The connection of RPC `r` is still to be handled. */
  ghost predicate Listens(s: Server, r: nat)
    requires WellFormed(s)
  {
    r < |s.rpcs| && Machine.Unhandled(View(s, r), NewConnection) > 0
  }

  ghost function Listening(s: Server): set<nat>
    requires WellFormed(s)
  {
    set r: nat | r < |s.rpcs| && Listens(s, r)
  }

  function SlotsOf(rpcs: seq<RpcState>, listening: set<nat>): map<nat, (nat, nat)> {
    map r | r in listening && r < |rpcs| :: (rpcs[r].methodIndex, rpcs[r].completionQueue)
  }

  /** The listening RPCs, each with its method index and its completion queue. */
  ghost function Slots(s: Server): map<nat, (nat, nat)>
    requires WellFormed(s)
  {
    SlotsOf(s.rpcs, Listening(s))
  }

  /** The slots filled by `i` full rounds over `queues` completion queues and `j` more RPCs. */
  predicate InGrid(slot: (nat, nat), i: nat, j: nat, queues: nat) {
    slot.1 < queues && (slot.0 < i || (slot.0 == i && slot.1 < j))
  }

  /** Each of these slots is filled by exactly one RPC. */
  ghost predicate FilledOnce(slots: map<nat, (nat, nat)>, i: nat, j: nat, queues: nat) {
    && (forall slot :: slot in slots.Values <==> InGrid(slot, i, j, queues))
    && (forall r, r' :: r in slots && r' in slots && slots[r] == slots[r'] ==> r == r')
    && |slots| == i * queues + j
  }

  /** Exactly one RPC listens for each method on each completion queue. */
  ghost predicate OneListenerEach(s: Server, methods: nat, queues: nat)
    requires WellFormed(s)
  {
    FilledOnce(Slots(s), methods, 0, queues)
  }

  lemma AddSlot(slots: map<nat, (nat, nat)>, r: nat, i: nat, j: nat, queues: nat)
    requires FilledOnce(slots, i, j, queues) && r !in slots && j < queues
    ensures FilledOnce(slots[r := (i, j)], i, j + 1, queues)
  {
    var slots' := slots[r := (i, j)];
    assert slots'.Keys == slots.Keys + {r};
    assert (i, j) !in slots.Values;
    forall slot ensures slot in slots'.Values <==> slot in slots.Values || slot == (i, j) {
      if slot in slots.Values {
        var p :| p in slots && slots[p] == slot;
        assert slots'[p] == slot;
      }
      assert slots'[r] == (i, j);
    }
  }

  lemma MoveSlot(slots: map<nat, (nat, nat)>, r: nat, p: nat, i: nat, j: nat, queues: nat)
    requires FilledOnce(slots, i, j, queues) && r in slots && p !in slots
    ensures FilledOnce((slots - {r})[p := slots[r]], i, j, queues)
  {
    var slots' := (slots - {r})[p := slots[r]];
    assert slots'.Keys == slots.Keys - {r} + {p};
    forall slot ensures slot in slots'.Values <==> slot in slots.Values {
      if slot in slots.Values {
        var k :| k in slots && slots[k] == slot;
        assert slots'[if k == r then p else k] == slot;
      }
    }
  }

  // ---------------------------------------------------------------- one step

  lemma LocalIdentity(l: Machine.Local, a: Machine.Action)
    requires Machine.Enabled(l, a) && Machine.Step(l, a).Running?
    ensures SameIdentity(l.rpc, Machine.Step(l, a).next.rpc)
  {
    if a.Handle? {
      HandlingKeepsIdentity(l.rpc.(pending := l.rpc.pending - {l.inbox[0]}), l.inbox[0], l.inbox[0] in l.rpc.okEvents,
                            a.stopped, a.items);
    } else if a.Wake? {
      HandlingKeepsIdentity(l.rpc, WriteNeeded, true, false, []);
    }
  }

  lemma HandlingKeepsConnection(r: RpcState, e: Event, ok: bool, stopped: bool, items: seq<SendItem>)
    ensures var h := HandleEvent(r, e, ok, stopped, items);
            h.Handled? ==> h.rpc.inGrpc.connection == r.inGrpc.connection
  {
  }

  /** Only handling the connection of an RPC makes it stop listening. */
  lemma LocalListens(l: Machine.Local, a: Machine.Action)
    requires Machine.OutstandingOk(l) && Machine.Enabled(l, a) && Machine.Step(l, a).Running?
    ensures Machine.Unhandled(Machine.Step(l, a).next, NewConnection) ==
            if a.Handle? && l.inbox[0] == NewConnection then 0 else Machine.Unhandled(l, NewConnection)
  {
    match a {
      case Deliver(e, _, _) => Machine.PushInbox(l.inbox, e);
      case Handle(stopped, items) =>
        HandlingKeepsConnection(l.rpc.(pending := l.rpc.pending - {l.inbox[0]}), l.inbox[0],
                                l.inbox[0] in l.rpc.okEvents, stopped, items);
      case Wake => HandlingKeepsConnection(l.rpc, WriteNeeded, true, false, []);
      case Enqueue(_) =>
    }
  }

  /** The RPC whose connection the step handles. */
  ghost function Connecting(s: Server, a: Step): set<nat>
    requires Enabled(s, a)
  {
    if a.Handle? && s.queues[a.queue][0].Completion? && s.queues[a.queue][0].event == NewConnection
    then {s.queues[a.queue][0].rpc} else {}
  }

  lemma StepListens(s: Server, a: Step, r: nat)
    requires Good(s) && Enabled(s, a) && Next(s, a).Running? && WellFormed(Next(s, a).next) && r < |s.rpcs|
    ensures r < |Next(s, a).next.rpcs| && SameIdentity(s.rpcs[r], Next(s, a).next.rpcs[r])
    ensures Listens(Next(s, a).next, r) <==> Listens(s, r) && r !in Connecting(s, a)
  {
    assert Machine.Invariant(View(s, r));
    StepProjects(s, a, r);
    var p := Projected(s, a, r);
    if p.Some? {
      if a.Handle? {
        PopView(s, a.queue, r);
      }
      LocalIdentity(View(s, r), p.value);
      LocalListens(View(s, r), p.value);
      assert SameIdentity(s.rpcs[r], View(Next(s, a).next, r).rpc);
    } else {
      assert View(Next(s, a).next, r).rpc == s.rpcs[r];
    }
  }

  lemma StepCount(s: Server, a: Step)
    requires WellFormed(s) && Enabled(s, a) && Next(s, a).Running?
    ensures WellFormed(Next(s, a).next)
    ensures |Next(s, a).next.rpcs| == |s.rpcs| + if Spawns(s, a) then 1 else 0
  {
    StepSpawns(s, a);
  }

  lemma AllStepListen(s: Server, a: Step)
    requires Good(s) && Enabled(s, a) && Next(s, a).Running?
    ensures WellFormed(Next(s, a).next)
    ensures |Next(s, a).next.rpcs| == |s.rpcs| + if Spawns(s, a) then 1 else 0
    ensures forall r: nat :: r < |s.rpcs| ==> (Listens(Next(s, a).next, r) <==> Listens(s, r) && r !in Connecting(s, a))
  {
    StepCount(s, a);
    forall r: nat | r < |s.rpcs| ensures Listens(Next(s, a).next, r) <==> Listens(s, r) && r !in Connecting(s, a) {
      StepListens(s, a, r);
    }
  }

  lemma StepListening(s: Server, a: Step)
    requires Good(s) && Enabled(s, a) && Next(s, a).Running?
    ensures WellFormed(Next(s, a).next)
    ensures var l, l' := Listening(s), Listening(Next(s, a).next);
            l' == l - Connecting(s, a) + if Spawns(s, a) then {|s.rpcs|} else {}
  {
    var s' := Next(s, a).next;
    AllStepListen(s, a);
    if Spawns(s, a) {
      SpawnedSlot(s, a);
      ListeningPlus(s, s', Connecting(s, a));
    } else {
      ListeningMinus(s, s', Connecting(s, a));
    }
  }

  lemma ListeningMinus(s: Server, s': Server, gone: set<nat>)
    requires WellFormed(s) && WellFormed(s') && |s'.rpcs| == |s.rpcs|
    requires forall r: nat :: r < |s.rpcs| ==> (Listens(s', r) <==> Listens(s, r) && r !in gone)
    ensures Listening(s') == Listening(s) - gone
  {
  }

  lemma ListeningPlus(s: Server, s': Server, gone: set<nat>)
    requires WellFormed(s) && WellFormed(s') && |s'.rpcs| == |s.rpcs| + 1 && Listens(s', |s.rpcs|)
    requires forall r: nat :: r < |s.rpcs| ==> (Listens(s', r) <==> Listens(s, r) && r !in gone)
    ensures Listening(s') == Listening(s) - gone + {|s.rpcs|}
  {
  }

  lemma StepIdentities(s: Server, a: Step)
    requires Good(s) && Enabled(s, a) && Next(s, a).Running?
    ensures |Next(s, a).next.rpcs| >= |s.rpcs|
    ensures forall r :: 0 <= r < |s.rpcs| ==> SameIdentity(s.rpcs[r], Next(s, a).next.rpcs[r])
  {
    StepCount(s, a);
    forall r: nat | r < |s.rpcs| ensures SameIdentity(s.rpcs[r], Next(s, a).next.rpcs[r]) {
      StepListens(s, a, r);
    }
  }

  /** A step replaces the RPC whose connection it handles by a clone in the same slot, or just
      drops it once the service is stopping. */
  lemma StepSlots(s: Server, a: Step)
    requires Good(s) && Enabled(s, a) && Next(s, a).Running?
    ensures WellFormed(Next(s, a).next)
    ensures var slots, slots' := Slots(s), Slots(Next(s, a).next);
            if Spawns(s, a) then
              var r := s.queues[a.queue][0].rpc;
              r in slots && slots' == (slots - {r})[|s.rpcs| := slots[r]]
            else
              slots'.Keys <= slots.Keys && (!s.shuttingDown ==> slots' == slots)
  {
    var s' := Next(s, a).next;
    StepListening(s, a);
    StepIdentities(s, a);
    if Spawns(s, a) {
      SpawnedSlot(s, a);
      SlotsReplaced(s.rpcs, s'.rpcs, Listening(s), s.queues[a.queue][0].rpc);
    } else {
      assert !s.shuttingDown ==> Connecting(s, a) == {};
      SlotsKept(s.rpcs, s'.rpcs, Listening(s), Listening(s'));
    }
  }

  lemma SlotsKept(rpcs: seq<RpcState>, rpcs': seq<RpcState>, listening: set<nat>, listening': set<nat>)
    requires |rpcs'| >= |rpcs| && listening' <= listening && forall r :: r in listening ==> r < |rpcs|
    requires forall r :: 0 <= r < |rpcs| ==> SameIdentity(rpcs[r], rpcs'[r])
    ensures SlotsOf(rpcs', listening').Keys <= SlotsOf(rpcs, listening).Keys
    ensures listening' == listening ==> SlotsOf(rpcs', listening') == SlotsOf(rpcs, listening)
  {
  }

  lemma SlotsReplaced(rpcs: seq<RpcState>, rpcs': seq<RpcState>, listening: set<nat>, p: nat)
    requires |rpcs'| == |rpcs| + 1 && p in listening && forall r :: r in listening ==> r < |rpcs|
    requires forall r :: 0 <= r < |rpcs| ==> SameIdentity(rpcs[r], rpcs'[r])
    requires rpcs'[|rpcs|].methodIndex == rpcs[p].methodIndex
    requires rpcs'[|rpcs|].completionQueue == rpcs[p].completionQueue
    ensures var slots := SlotsOf(rpcs, listening);
            p in slots && SlotsOf(rpcs', listening - {p} + {|rpcs|}) == (slots - {p})[|rpcs| := slots[p]]
  {
  }

  lemma SpawnedSlot(s: Server, a: Step)
    requires Good(s) && Enabled(s, a) && Next(s, a).Running? && Spawns(s, a)
    ensures var s', r := Next(s, a).next, s.queues[a.queue][0].rpc;
            && WellFormed(s') && |s'.rpcs| == |s.rpcs| + 1 && Listens(s', |s.rpcs|) && Listens(s, r)
            && s'.rpcs[|s.rpcs|].methodIndex == s.rpcs[r].methodIndex
            && s'.rpcs[|s.rpcs|].completionQueue == s.rpcs[r].completionQueue
  {
    var s', r := Next(s, a).next, s.queues[a.queue][0].rpc;
    StepSpawns(s, a);
    PopView(s, a.queue, r);
    assert View(s', |s.rpcs|).rpc == s'.rpcs[|s.rpcs|];
  }

  // ---------------------------------------------------------------- listener conservation

  lemma StartedSlots(c: Config, i: nat, j: nat)
    requires c.eventQueues > 0 && j <= c.completionQueues && i <= |c.methods| && (j > 0 ==> i < |c.methods|)
    ensures WellFormed(Started(c, i, j)) && FilledOnce(Slots(Started(c, i, j)), i, j, c.completionQueues)
    decreases i, j
  {
    StartedWellFormed(c, i, j);
    if j > 0 {
      var s, s' := Started(c, i, j - 1), Started(c, i, j);
      StartedSlots(c, i, j - 1);
      AddListenerSlots(s, i, j - 1, c.methods[i]);
      AddSlot(Slots(s), |s.rpcs|, i, j - 1, c.completionQueues);
    } else if i > 0 {
      StartedSlots(c, i - 1, c.completionQueues);
      NextRow(Slots(Started(c, i, 0)), i, c.completionQueues);
    }
  }

  lemma NextRow(slots: map<nat, (nat, nat)>, i: nat, queues: nat)
    requires i > 0 && FilledOnce(slots, i - 1, queues, queues)
    ensures FilledOnce(slots, i, 0, queues)
  {
    assert (i - 1) * queues + queues == i * queues;
    forall slot ensures slot in slots.Values <==> InGrid(slot, i, 0, queues) {
      assert InGrid(slot, i, 0, queues) <==> InGrid(slot, i - 1, queues, queues);
    }
  }

  lemma AddListenerSlots(s: Server, m: nat, c: nat, t: RpcType)
    requires WellFormed(s)
    ensures WellFormed(AddListener(s, m, c, t))
    ensures Slots(AddListener(s, m, c, t)) == Slots(s)[|s.rpcs| := (m, c)]
  {
    var rpc, s' := NewRpc(m, c, t, SelectNextEventQueue(s)), AddListener(s, m, c, t);
    RegisteredView(s, rpc);
    assert Listens(s', |s.rpcs|);
    forall r: nat | r < |s.rpcs| ensures Listens(s', r) <==> Listens(s, r) {
      RegisterView(s, rpc, r);
    }
  }

  lemma RunListeners(s: Server, run: seq<Step>, methods: nat, queues: nat)
    requires Good(s) && Feasible(s, run) && Exec(s, run).Running?
    requires !s.shuttingDown ==> OneListenerEach(s, methods, queues)
    ensures !Exec(s, run).next.shuttingDown ==> OneListenerEach(Exec(s, run).next, methods, queues)
    ensures s.shuttingDown ==> Slots(Exec(s, run).next).Keys <= Slots(s).Keys
    ensures s.shuttingDown ==> Exec(s, run).next.shuttingDown
    decreases |run|
  {
    if run != [] {
      var s' := Next(s, run[0]).next;
      StepGood(s, run[0]);
      StepSlots(s, run[0]);
      StepStopped(s, run[0]);
      if !s.shuttingDown && Spawns(s, run[0]) {
        MoveSlot(Slots(s), s.queues[run[0].queue][0].rpc, |s.rpcs|, methods, 0, queues);
      }
      RunListeners(s', run[1..], methods, queues);
    }
  }

  lemma StepStopped(s: Server, a: Step)
    requires WellFormed(s) && Enabled(s, a) && Next(s, a).Running?
    ensures Next(s, a).next.shuttingDown <==> s.shuttingDown || a.Stop?
  {
  }

  /** Until StopServing, every run leaves exactly one RPC listening for each method and completion
      queue, N times M in all, and all of them registered; after it, the set of listening RPCs never
      grows. */
  lemma ListenerConservation(c: Config, run: seq<Step>, s: Server, more: seq<Step>)
    requires c.eventQueues > 0 && Reached(c, run, s) && Feasible(s, more) && Exec(s, more).Running?
    ensures !s.shuttingDown ==> OneListenerEach(s, |c.methods|, c.completionQueues)
    ensures Slots(s).Keys <= s.active
    ensures s.shuttingDown ==> Slots(Exec(s, more).next).Keys <= Slots(s).Keys
  {
    StartedGood(c, |c.methods|, 0);
    StartedSlots(c, |c.methods|, 0);
    RunListeners(Start(c), run, |c.methods|, c.completionQueues);
    ReachedGood(c, run, s);
    forall r | r in Slots(s) ensures r in s.active {
      assert Machine.Invariant(View(s, r));
    }
    RunListeners(s, more, |c.methods|, c.completionQueues);
  }
}
