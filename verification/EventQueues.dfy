/** Which event queue each RPC is bound to: round-robin for WRITE_NEEDED, inherited for completions. */
module EventQueues {
  import opened Types
  import opened RpcModel
  import opened ServerModel
  import opened Projection
  import opened Lifetime
  import opened Delivery
  import opened Listeners
  import opened RoundRobin
  import Machine = RpcMachine

  // ---------------------------------------------------------------- round-robin

  /** RPC r was given the queue of the (r+1)-th selection. */
  ghost predicate Assigned(s: Server) {
    && |s.queues| > 0
    && s.currentQueue == |s.rpcs| % |s.queues|
    && forall r :: 0 <= r < |s.rpcs| ==> s.rpcs[r].eventQueue == (r + 1) % |s.queues|
  }

  lemma RegisterAssigned(s: Server, rpc: RpcState)
    requires Assigned(s)
    ensures Assigned(Register(s, rpc))
  {
    NextMod(|s.rpcs|, |s.queues|);
  }

  lemma StartedAssigned(c: Config, i: nat, j: nat)
    requires c.eventQueues > 0 && j <= c.completionQueues && i <= |c.methods| && (j > 0 ==> i < |c.methods|)
    ensures Assigned(Started(c, i, j))
    ensures forall q :: 0 <= q < c.eventQueues ==> Started(c, i, j).queues[q] == []
    decreases i, j
  {
    if j > 0 {
      StartedAssigned(c, i, j - 1);
      var s := Started(c, i, j - 1);
      RegisterAssigned(s, NewRpc(i, j - 1, c.methods[i], SelectNextEventQueue(s)));
    } else if i > 0 {
      StartedAssigned(c, i - 1, c.completionQueues);
    }
  }

  lemma StepAssigned(s: Server, a: Step)
    requires Good(s) && Assigned(s) && Enabled(s, a) && Next(s, a).Running?
    ensures Assigned(Next(s, a).next)
  {
    var s' := Next(s, a).next;
    SpawnedQueues(s, a);
    StepIdentities(s, a);
    forall r: nat | r < |s.rpcs| ensures s'.rpcs[r].eventQueue == s.rpcs[r].eventQueue {
      assert SameIdentity(s.rpcs[r], s'.rpcs[r]);
    }
    AssignedNext(s, s');
  }

  /** A clone inherits its parent's WRITE_NEEDED queue for its completion events. */
  lemma SpawnedQueues(s: Server, a: Step)
    requires WellFormed(s) && Enabled(s, a) && Next(s, a).Running?
    ensures var s', n := Next(s, a).next, |s.rpcs|;
            && |s'.queues| == |s.queues|
            && if Spawns(s, a) then
                 var parent := s.queues[a.queue][0].rpc;
                 && |s'.rpcs| == n + 1 && parent < n && s'.currentQueue == SelectNextEventQueue(s)
                 && s'.rpcs[n].homeQueue == s.rpcs[parent].eventQueue
                 && s'.rpcs[n].eventQueue == SelectNextEventQueue(s)
               else |s'.rpcs| == n && s'.currentQueue == s.currentQueue
  {
    StepSpawns(s, a);
    if Spawns(s, a) {
      assert View(Next(s, a).next, |s.rpcs|).rpc == Next(s, a).next.rpcs[|s.rpcs|];
    }
  }

  lemma AssignedNext(s: Server, s': Server)
    requires Assigned(s) && |s'.queues| == |s.queues| && |s.rpcs| <= |s'.rpcs| <= |s.rpcs| + 1
    requires forall r :: 0 <= r < |s.rpcs| ==> s'.rpcs[r].eventQueue == s.rpcs[r].eventQueue
    requires |s'.rpcs| == |s.rpcs| ==> s'.currentQueue == s.currentQueue
    requires |s'.rpcs| > |s.rpcs| ==>
               s'.rpcs[|s.rpcs|].eventQueue == s'.currentQueue == SelectNextEventQueue(s)
    ensures Assigned(s')
  {
    NextMod(|s.rpcs|, |s.queues|);
  }

  lemma RunAssigned(s: Server, run: seq<Step>)
    requires Good(s) && Assigned(s) && Feasible(s, run) && Exec(s, run).Running?
    ensures Assigned(Exec(s, run).next)
    decreases |run|
  {
    if run != [] {
      StepGood(s, run[0]);
      StepAssigned(s, run[0]);
      RunAssigned(Next(s, run[0]).next, run[1..]);
    }
  }

  function BoundTo(rpcs: seq<RpcState>, q: nat): nat {
    if rpcs == [] then 0
    else BoundTo(rpcs[..|rpcs|-1], q) + if rpcs[|rpcs|-1].eventQueue == q then 1 else 0
  }

  lemma BoundToPicks(rpcs: seq<RpcState>, n: nat, q: nat)
    requires n > 0 && forall r :: 0 <= r < |rpcs| ==> rpcs[r].eventQueue == (r + 1) % n
    ensures BoundTo(rpcs, q) == Picks(n, |rpcs|, q)
  {
    if rpcs != [] {
      BoundToPicks(rpcs[..|rpcs|-1], n, q);
    }
  }

  /** Over every run, started listeners and clones together, the numbers of RPCs bound to any two
      event queues differ by at most one. */
  lemma QueuesBalanced(c: Config, run: seq<Step>, s: Server, p: nat, q: nat)
    requires c.eventQueues > 0 && Reached(c, run, s) && p < c.eventQueues && q < c.eventQueues
    ensures BoundTo(s.rpcs, p) <= BoundTo(s.rpcs, q) + 1
  {
    StartedGood(c, |c.methods|, 0);
    StartedAssigned(c, |c.methods|, 0);
    RunAssigned(Start(c), run);
    RunQueues(Start(c), run);
    BoundToPicks(s.rpcs, c.eventQueues, p);
    BoundToPicks(s.rpcs, c.eventQueues, q);
    Balanced(c.eventQueues, |s.rpcs|, p, q);
  }

  // ---------------------------------------------------------------- one queue per RPC

  lemma RunQueues(s: Server, run: seq<Step>)
    requires Good(s) && Feasible(s, run) && Exec(s, run).Running?
    ensures var s' := Exec(s, run).next;
            && |s'.queues| == |s.queues| && |s'.rpcs| >= |s.rpcs|
            && forall r :: 0 <= r < |s.rpcs| ==> SameIdentity(s.rpcs[r], s'.rpcs[r])
    decreases |run|
  {
    if run != [] {
      var s' := Next(s, run[0]).next;
      StepGood(s, run[0]);
      StepIdentities(s, run[0]);
      SpawnedQueues(s, run[0]);
      RunQueues(s', run[1..]);
      forall r: nat | r < |s.rpcs| ensures SameIdentity(s.rpcs[r], Exec(s', run[1..]).next.rpcs[r]) {
        assert SameIdentity(s.rpcs[r], s'.rpcs[r]);
      }
    }
  }

  /** Queue law: an RPC keeps its two queues for life; and the completion events of a clone use the
      queue its parent uses for WRITE_NEEDED, while its own WRITE_NEEDED queue is the next one. */
  lemma QueueLaw(c: Config, run: seq<Step>, s: Server, a: Step)
    requires c.eventQueues > 0 && Reached(c, run, s) && Enabled(s, a) && Next(s, a).Running?
    ensures var s' := Next(s, a).next;
            && |s'.rpcs| >= |s.rpcs|
            && (forall r :: 0 <= r < |s.rpcs| ==>
                  s'.rpcs[r].homeQueue == s.rpcs[r].homeQueue && s'.rpcs[r].eventQueue == s.rpcs[r].eventQueue)
            && (Spawns(s, a) ==>
                  var parent := s.queues[a.queue][0].rpc;
                  && |s'.rpcs| == |s.rpcs| + 1 && parent < |s.rpcs|
                  && s'.rpcs[|s.rpcs|].homeQueue == s.rpcs[parent].eventQueue
                  && s'.rpcs[|s.rpcs|].eventQueue == (|s.rpcs| + 1) % c.eventQueues)
  {
    ReachedGood(c, run, s);
    StartedGood(c, |c.methods|, 0);
    StartedAssigned(c, |c.methods|, 0);
    RunAssigned(Start(c), run);
    RunQueues(Start(c), run);
    SpawnedQueues(s, a);
    StepIdentities(s, a);
    NextMod(|s.rpcs|, c.eventQueues);
    forall r | 0 <= r < |s.rpcs|
      ensures Next(s, a).next.rpcs[r].homeQueue == s.rpcs[r].homeQueue
      ensures Next(s, a).next.rpcs[r].eventQueue == s.rpcs[r].eventQueue
    {
      assert SameIdentity(s.rpcs[r], Next(s, a).next.rpcs[r]);
    }
  }

  /** All events of an RPC go through one queue. */
  ghost predicate OneQueueEach(s: Server) {
    forall r :: 0 <= r < |s.rpcs| ==> s.rpcs[r].homeQueue == s.rpcs[r].eventQueue
  }

  /** The first connection for the last RPC started: its clone listens on one queue for completions
      and on another for WRITE_NEEDED. */
  function FirstConnection(c: Config): seq<Step>
    requires c.eventQueues > 0 && |Start(c).rpcs| > 0
  {
    var last := |Start(c).rpcs| - 1;
    [Deliver(last, NewConnection, true, ""), Handle(Start(c).rpcs[last].homeQueue, [])]
  }

  ghost predicate AllListen(s: Server) {
    !s.shuttingDown && forall r :: 0 <= r < |s.rpcs| ==> s.rpcs[r].inGrpc.connection == 1 && r in s.active
  }

  lemma AddListenerListens(s: Server, m: nat, c: nat, t: RpcType)
    requires |s.queues| > 0 && AllListen(s)
    ensures AllListen(AddListener(s, m, c, t))
  {
  }

  lemma StartedListens(c: Config, i: nat, j: nat)
    requires c.eventQueues > 0 && j <= c.completionQueues && i <= |c.methods| && (j > 0 ==> i < |c.methods|)
    ensures AllListen(Started(c, i, j))
    decreases i, j
  {
    if j > 0 {
      StartedListens(c, i, j - 1);
      AddListenerListens(Started(c, i, j - 1), i, j - 1, c.methods[i]);
    } else if i > 0 {
      StartedListens(c, i - 1, c.completionQueues);
    }
  }

  lemma StartedServing(c: Config, i: nat, j: nat)
    requires c.eventQueues > 0 && j <= c.completionQueues && i <= |c.methods| && (j > 0 ==> i < |c.methods|)
    ensures !Started(c, i, j).shuttingDown && |Started(c, i, j).rpcs| == i * c.completionQueues + j
    decreases i, j
  {
    if j > 0 {
      StartedServing(c, i, j - 1);
    } else if i > 0 {
      StartedServing(c, i - 1, c.completionQueues);
      assert (i - 1) * c.completionQueues + c.completionQueues == i * c.completionQueues;
    }
  }

  lemma ConnectIdle(s: Server, r: nat, payload: Message)
    requires WellFormed(s) && AllListen(s) && r < |s.rpcs| && s.queues[s.rpcs[r].homeQueue] == []
    ensures var a := Deliver(r, NewConnection, true, payload);
            && Enabled(s, a) && Next(s, a).Running?
            && var s' := Next(s, a).next;
               && WellFormed(s') && !s'.shuttingDown && r in s'.active && |s'.rpcs| == |s.rpcs|
               && |s'.queues| == |s.queues| && s'.currentQueue == s.currentQueue
               && s'.queues[s.rpcs[r].homeQueue] == [Completion(r, NewConnection)]
               && NewConnection in s'.rpcs[r].okEvents && s'.rpcs[r].eventQueue == s.rpcs[r].eventQueue
  {
    NextWellFormed(s, Deliver(r, NewConnection, true, payload));
  }

  lemma AcceptConnection(s: Server, r: nat, q: nat)
    requires WellFormed(s) && !s.shuttingDown && r in s.active && q < |s.queues|
    requires s.queues[q] == [Completion(r, NewConnection)] && NewConnection in s.rpcs[r].okEvents
    ensures Enabled(s, Handle(q, [])) && Next(s, Handle(q, [])).Running?
    ensures var s', n := Next(s, Handle(q, [])).next, |s.rpcs|;
            |s'.rpcs| == n + 1 && s'.rpcs[n].homeQueue == s.rpcs[r].eventQueue
            && s'.rpcs[n].eventQueue == SelectNextEventQueue(s)
  {
    assert Enabled(s, Handle(q, []));
    assert Next(s, Handle(q, [])).Running?;
    SpawnedQueues(s, Handle(q, []));
  }

  lemma TwoSteps(s: Server, a: Step, b: Step)
    requires WellFormed(s) && Enabled(s, a) && Next(s, a).Running? && WellFormed(Next(s, a).next)
    requires Enabled(Next(s, a).next, b)
    ensures Feasible(s, [a, b]) && Exec(s, [a, b]) == Next(Next(s, a).next, b)
  {
    Extend(s, [], a);
    Extend(s, [a], b);
    assert [] + [a] == [a] && [a] + [b] == [a, b];
  }

  lemma NextQueueDiffers(n: nat, k: nat)
    requires k > 1
    ensures (n % k + 1) % k != n % k
  {
    if n % k + 1 < k {
      assert (n % k + 1) % k == n % k + 1;
    } else {
      assert (n % k + 1) % k == 0;
    }
  }

  lemma ConnectionSplits(s: Server, r: nat, run: seq<Step>)
    requires WellFormed(s) && AllListen(s) && |s.queues| > 1 && s.currentQueue < |s.queues|
    requires r < |s.rpcs| && s.rpcs[r].eventQueue == s.currentQueue && s.queues[s.rpcs[r].homeQueue] == []
    requires run == [Deliver(r, NewConnection, true, ""), Handle(s.rpcs[r].homeQueue, [])]
    ensures Feasible(s, run) && Exec(s, run).Running? && !OneQueueEach(Exec(s, run).next)
  {
    ConnectIdle(s, r, "");
    var s1 := Next(s, run[0]).next;
    AcceptConnection(s1, r, s.rpcs[r].homeQueue);
    var s2 := Next(s1, run[1]).next;
    TwoSteps(s, run[0], run[1]);
    NextQueueDiffers(s.currentQueue, |s.queues|);
    assert s2.rpcs[|s.rpcs|].homeQueue != s2.rpcs[|s.rpcs|].eventQueue;
  }

  lemma FirstConnectionSplits(c: Config)
    requires c.eventQueues > 1 && |Start(c).rpcs| > 0
    ensures Feasible(Start(c), FirstConnection(c)) && Exec(Start(c), FirstConnection(c)).Running?
    ensures !OneQueueEach(Exec(Start(c), FirstConnection(c)).next)
  {
    StartedListens(c, |c.methods|, 0);
    StartedAssigned(c, |c.methods|, 0);
    StartedGood(c, |c.methods|, 0);
    ConnectionSplits(Start(c), |Start(c).rpcs| - 1, FirstConnection(c));
  }

  lemma OneThreadOneQueue(c: Config, run: seq<Step>, s: Server)
    requires c.eventQueues == 1 && Reached(c, run, s)
    ensures OneQueueEach(s)
  {
    ReachedGood(c, run, s);
    StartedGood(c, |c.methods|, 0);
    RunQueues(Start(c), run);
  }

  /** The claim that all events of an RPC are processed by the same event queue holds in every run
      if and only if there is only one event thread. */
  lemma SameQueueIffOneThread(c: Config)
    requires c.eventQueues > 0 && |c.methods| > 0 && c.completionQueues > 0
    ensures (forall run, s :: Reached(c, run, s) ==> OneQueueEach(s)) <==> c.eventQueues == 1
  {
    if c.eventQueues == 1 {
      forall run, s | Reached(c, run, s) ensures OneQueueEach(s) {
        OneThreadOneQueue(c, run, s);
      }
    } else {
      StartedServing(c, |c.methods|, 0);
      Product(|c.methods|, c.completionQueues);
      FirstConnectionSplits(c);
      assert Reached(c, FirstConnection(c), Exec(Start(c), FirstConnection(c)).next);
    }
  }

  lemma Product(a: nat, b: nat)
    requires a > 0 && b > 0
    ensures a * b > 0
  {
  }
}
