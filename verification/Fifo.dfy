/** The event queues are first in, first out, over whole runs; and every item sent brings exactly one
    WRITE_NEEDED event. */
module Fifo {
  import opened Types
  import opened RpcModel
  import opened ServerModel
  import opened Projection
  import opened Lifetime
  import opened Delivery
  import opened Listeners
  import opened EventQueues
  import Machine = RpcMachine

  /** One WRITE_NEEDED event for each item. */
  function OneEach(r: nat, items: seq<SendItem>): seq<QueuedEvent> {
    if items == [] then [] else [Internal(r)] + OneEach(r, items[1..])
  }

  /** What the step pushes to queue `q`: a completion to the queue with which its RPC was constructed,
      a WRITE_NEEDED event to the one its RPC was given afterwards. */
  function PushedIn(s: Server, a: Step, q: nat): seq<QueuedEvent>
    requires WellFormed(s) && Enabled(s, a)
  {
    match a
    case Deliver(r, e, _, _) => if s.rpcs[r].homeQueue == q then [Completion(r, e)] else []
    case Handle(p, items) =>
      var e := s.queues[p][0];
      assert QueueOk(s, p, e);
      if s.rpcs[e.rpc].eventQueue == q then OneEach(e.rpc, items) else []
    case WriterSend(r, item) => if r in s.active && s.rpcs[r].eventQueue == q then [Internal(r)] else []
    case Stop => []
  }

  /** What the step takes from queue `q`. */
  function TakenIn(s: Server, a: Step, q: nat): seq<QueuedEvent>
    requires Enabled(s, a)
  {
    if a.Handle? && a.queue == q then [s.queues[q][0]] else []
  }

  ghost function Pushed(s: Server, run: seq<Step>, q: nat): seq<QueuedEvent>
    requires WellFormed(s) && Feasible(s, run)
    decreases |run|
  {
    if run == [] then []
    else if Next(s, run[0]).Faulted? then PushedIn(s, run[0], q)
    else
      NextWellFormed(s, run[0]);
      PushedIn(s, run[0], q) + Pushed(Next(s, run[0]).next, run[1..], q)
  }

  ghost function Taken(s: Server, run: seq<Step>, q: nat): seq<QueuedEvent>
    requires WellFormed(s) && Feasible(s, run)
    decreases |run|
  {
    if run == [] then []
    else if Next(s, run[0]).Faulted? then TakenIn(s, run[0], q)
    else
      NextWellFormed(s, run[0]);
      TakenIn(s, run[0], q) + Taken(Next(s, run[0]).next, run[1..], q)
  }

  lemma {:induction false} OneEachIs(r: nat, items: seq<SendItem>)
    ensures OneEach(r, items) == Internals(r, |items|)
  {
    if items != [] {
      OneEachIs(r, items[1..]);
      assert Internals(r, |items|) == [Internal(r)] + Internals(r, |items| - 1);
    }
  }

  /** Settling pushes the WRITE_NEEDED events, and nothing else changes the queues. */
  lemma SettleQueues(s: Server, r: nat, h: Handled, items: seq<SendItem>)
    requires r < |s.rpcs| && h.Handled? && h.rpc.eventQueue < |s.queues|
    ensures Settle(s, r, h, |items|).next.queues
            == s.queues[h.rpc.eventQueue := s.queues[h.rpc.eventQueue] + OneEach(r, items)]
  {
    OneEachIs(r, items);
  }

  lemma HandleFifo(s: Server, p: nat, items: seq<SendItem>, q: nat)
    requires WellFormed(s) && Enabled(s, Handle(p, items)) && Next(s, Handle(p, items)).Running? && q < |s.queues|
    ensures var a, s' := Handle(p, items), Next(s, Handle(p, items)).next;
            q < |s'.queues| && TakenIn(s, a, q) + s'.queues[q] == s.queues[q] + PushedIn(s, a, q)
  {
    var e := s.queues[p][0];
    assert QueueOk(s, p, e);
    assert s.queues[p] == [e] + s.queues[p][1..];
    if e.rpc in s.active {
      SettleQueues(Pop(s, p), e.rpc, HandleEntry(s, e, items), items);
    }
  }

  lemma StepFifo(s: Server, a: Step, q: nat)
    requires WellFormed(s) && Enabled(s, a) && Next(s, a).Running? && q < |s.queues|
    ensures var s' := Next(s, a).next;
            |s'.queues| == |s.queues| && TakenIn(s, a, q) + s'.queues[q] == s.queues[q] + PushedIn(s, a, q)
  {
    StepSpawns(s, a);
    match a {
      case Handle(p, items) => HandleFifo(s, p, items, q);
      case WriterSend(r, _) => assert Internals(r, 1) == [Internal(r)];
      case _ =>
    }
  }

  lemma Chain<T>(take: seq<T>, rest: seq<T>, queue: seq<T>, queue': seq<T>, queue'': seq<T>, push: seq<T>, more: seq<T>)
    requires take + queue' == queue + push && rest + queue'' == queue' + more
    ensures take + rest + queue'' == queue + (push + more)
  {
    assert take + rest + queue'' == take + (rest + queue'') == take + queue' + more;
    assert queue + push + more == queue + (push + more);
  }

  lemma RunFifo(s: Server, run: seq<Step>, q: nat)
    requires WellFormed(s) && Feasible(s, run) && Exec(s, run).Running? && q < |s.queues|
    ensures var s' := Exec(s, run).next;
            |s'.queues| == |s.queues| && Taken(s, run, q) + s'.queues[q] == s.queues[q] + Pushed(s, run, q)
    decreases |run|
  {
    if run != [] {
      var s' := Next(s, run[0]).next;
      NextWellFormed(s, run[0]);
      StepFifo(s, run[0], q);
      RunFifo(s', run[1..], q);
      Chain(TakenIn(s, run[0], q), Taken(s', run[1..], q), s.queues[q], s'.queues[q], Exec(s, run).next.queues[q],
            PushedIn(s, run[0], q), Pushed(s', run[1..], q));
    }
  }

  /** First in, first out: what event threads took from a queue, in order, followed by what is in it, is
      what was pushed to it in the run; nothing is lost, added or reordered. */
  lemma FirstInFirstOut(c: Config, run: seq<Step>, s: Server, q: nat)
    requires c.eventQueues > 0 && Reached(c, run, s) && q < c.eventQueues
    ensures |s.queues| == c.eventQueues
    ensures Taken(Start(c), run, q) + s.queues[q] == Pushed(Start(c), run, q)
  {
    StartedAssigned(c, |c.methods|, 0);
    RunFifo(Start(c), run, q);
  }

  // ---------------------------------------------------------------- the queues of a started RPC

  lemma StartedHome(c: Config, i: nat, j: nat)
    requires c.eventQueues > 0 && j <= c.completionQueues && i <= |c.methods| && (j > 0 ==> i < |c.methods|)
    ensures forall r :: 0 <= r < |Started(c, i, j).rpcs| ==>
              Started(c, i, j).rpcs[r].homeQueue == Started(c, i, j).rpcs[r].eventQueue
    decreases i, j
  {
    if j > 0 {
      StartedHome(c, i, j - 1);
    } else if i > 0 {
      StartedHome(c, i - 1, c.completionQueues);
    }
  }

  /** The r-th RPC created gets the (r+1)-th selection for its WRITE_NEEDED events, for life; a started
      one uses the same queue for its completions. */
  lemma QueuesOfRpc(c: Config, run: seq<Step>, s: Server, r: nat)
    requires c.eventQueues > 0 && Reached(c, run, s) && r < |s.rpcs|
    ensures s.rpcs[r].eventQueue == (r + 1) % c.eventQueues
    ensures r < |Start(c).rpcs| ==> s.rpcs[r].homeQueue == s.rpcs[r].eventQueue
  {
    StartedGood(c, |c.methods|, 0);
    StartedAssigned(c, |c.methods|, 0);
    StartedHome(c, |c.methods|, 0);
    RunAssigned(Start(c), run);
    RunQueues(Start(c), run);
    if r < |Start(c).rpcs| {
      assert SameIdentity(Start(c).rpcs[r], s.rpcs[r]);
    }
  }
}
