/** What the worker pool promises, for any number of publishers and workers and every interleaving. */
module PoolTheorems {
  import opened Basics
  import opened PoolModel
  import opened PoolInvariants
  import opened PoolDrain
  import opened Totals

  /** How often the handler has been called for message `p`. */
  function Calls(s: State, p: PubId): nat {
    multiset(s.ran)[p]
  }

  /** In every reachable state a handler has been called at most once per publish, and never for a
      publish that was rejected, rolled back or not yet sent. */
  lemma AtMostOnce(s: State, p: PubId)
    requires Reachable(s)
    ensures Calls(s, p) <= 1
    ensures Calls(s, p) == 1 ==> p in s.pubs && Sent(s.pubs[p].pc)
  {
    InvWhenReachable(s);
    DistinctCount(s.ran, p);
    assert Became(s, p, Ran) <==> p in s.fate && s.fate[p] == Ran;
    assert Became(s, p, NotSent) <==> p in s.fate && s.fate[p] == NotSent;
  }

  /** When GracefulStop has returned, the queue is empty, every accepted publish has had its handler
      called exactly once and finished, and no other publish ever ran.  The parent context must
      not have been cancelled before GracefulStop began, unless the channel is unbuffered. */
  lemma GracefulStopLosesNothing(s: State)
    requires Reachable(s) && s.stop == SDone
    requires !s.earlyCancel || s.cap == 0
    ensures s.queue == [] && s.inFlight == 0 && AllReturned(s) && s.st == Stopped
    ensures forall p :: p in s.pubs ==> Calls(s, p) == if Sent(s.pubs[p].pc) then 1 else 0
  {
    InvWhenReachable(s);
    var w :| w in s.workers;
    assert SawNoDepth(s.workers[w]);
    TotalPositive(s.workers, Flying);
    forall p | p in s.pubs ensures Calls(s, p) == if Sent(s.pubs[p].pc) then 1 else 0 {
      SettledFate(s, p);
    }
  }

  /** The counters are exact in every reachable state, so QueueDepth is never negative and never
      below the number of queued tasks. */
  lemma QueueDepthExact(s: State)
    requires Reachable(s)
    ensures s.depth == |s.queue| + Total(s.pubs, Pending) + Total(s.workers, Holding)
    ensures s.publishers == Total(s.pubs, Counted) && s.inFlight == Total(s.workers, Flying)
    ensures 0 <= |s.queue| <= s.depth && |s.queue| <= s.cap
  {
    InvWhenReachable(s);
  }

  /** Every task object ever handed out is in exactly one place, and at most once in the queue. */
  lemma OneOwner(s: State, t: TaskId, o: Owner, o': Owner)
    requires Reachable(s)
    ensures t in s.heap ==> exists p :: At(s, t, p)
    ensures At(s, t, o) && At(s, t, o') ==> o == o'
    ensures multiset(s.queue)[t] <= 1
  {
    InvWhenReachable(s);
    assert t in s.heap ==> At(s, t, s.owner[t]);
    DistinctCount(s.queue, t);
  }

  /** A handler is called with the message of the publish that filled the task. */
  lemma RightMessage(s: State, w: WorkerId)
    requires Reachable(s) && w in s.workers && s.workers[w].WCall?
    ensures Message(s, s.workers[w].t).Some?
    ensures var p := Message(s, s.workers[w].t).value; p in s.pubs && Sent(s.pubs[p].pc) && Calls(s, p) == 0
  {
    InvWhenReachable(s);
    var p := Message(s, s.workers[w].t).value;
    assert Became(s, p, Taken(w));
    assert Became(s, p, NotSent) <==> p in s.fate && s.fate[p] == NotSent;
    assert Became(s, p, Ran) <==> p in s.fate && s.fate[p] == Ran;
    DistinctCount(s.ran, p);
  }

  // ----- Progress

  /** Actions taken by the pool's own threads.  Arrivals, context cancellation by others and the
      garbage collector are not among them. */
  predicate System(s: State, a: Action) {
    match a
    case Begin(_, _) => false
    case ParentCancel => false
    case PoolDrop(_) => false
    case StopStep => s.stop != SIdle
    case PubGiveUp(p) => p in s.pubs && (s.cancelled || !s.pubs[p].blocking)
    case _ => true
  }

  ghost predicate CanMove(s: State) {
    exists a :: System(s, a) && Enabled(s, a)
  }

  lemma Moves(s: State, a: Action)
    requires System(s, a) && Enabled(s, a)
    ensures CanMove(s)
  {}

  lemma {:induction false} FreshTask(m: set<nat>) returns (t: nat)
    ensures t !in m && forall k :: k in m ==> k < t
    decreases m
  {
    if m == {} {
      t := 0;
    } else {
      var k :| k in m;
      var r := FreshTask(m - {k});
      t := if k < r then r else k + 1;
      assert forall j :: j in m ==> j == k || j in m - {k};
    }
  }

  lemma HolderMoves(s: State)
    requires LockOk(s) && s.mu.Some?
    ensures CanMove(s)
  {
    match s.mu.value
    case PubThread(p) =>
      Moves(s, PubStep(p));
    case WorkerThread(w) =>
      if s.workers[w] == WTryTake && s.queue != [] {
        Moves(s, WorkerTake(w));
      } else {
        Moves(s, WorkerStep(w));
      }
    case StopThread =>
      Moves(s, StopStep);
  }

  lemma PublisherMoves(s: State, p: PubId)
    requires s.mu == None && s.cancelled && p in s.pubs && !s.pubs[p].pc.PDone?
    ensures CanMove(s)
  {
    if s.pubs[p].pc == PGet {
      var t := FreshTask(s.heap.Keys);
      Moves(s, PubGet(p, t));
    } else if s.pubs[p].pc.PSend? && |s.queue| >= s.cap {
      Moves(s, PubGiveUp(p));
    } else {
      Moves(s, PubStep(p));
    }
  }

  lemma WorkerMoves(s: State, w: WorkerId)
    requires s.mu == None && s.cancelled && w in s.workers && s.workers[w] != WAsleep && s.workers[w] != WExit
    ensures CanMove(s)
  {
    if (s.workers[w] == WTop || s.workers[w] == WTryTake) && s.queue != [] {
      Moves(s, WorkerTake(w));
    } else {
      Moves(s, WorkerStep(w));
    }
  }

  /** No lost wake-up: in every reachable state a worker asleep in cond.Wait, whatever the counters,
      has a broadcast still to come. */
  lemma SleeperIsWoken(s: State, w: WorkerId)
    requires Reachable(s) && w in s.workers && s.workers[w] == WAsleep
    ensures SignalToCome(s)
  {
    InvWhenReachable(s);
    assert Sleeping(s.workers[w]);
  }

  lemma OnlySleepersLeft(s: State, w: WorkerId)
    requires SleepOk(s) && w in s.workers && s.workers[w] == WAsleep
    requires forall p :: p in s.pubs ==> s.pubs[p].pc.PDone?
    requires forall v :: v in s.workers ==> s.workers[v] == WAsleep || s.workers[v] == WExit
    ensures StopWillSignal(s.stop)
  {
    assert Sleeping(s.workers[w]);
    assert SignalToCome(s);
  }

  /** Drain never gets stuck: after cancel, while a worker has not returned, some publisher, worker
      or the caller of GracefulStop can act. */
  lemma DrainNeverStuck(s: State)
    requires Reachable(s) && s.cancelled && !AllReturned(s)
    ensures CanMove(s)
  {
    InvWhenReachable(s);
    var w :| w in s.workers && s.workers[w] != WExit;
    if s.mu.Some? {
      HolderMoves(s);
    } else if p :| p in s.pubs && !s.pubs[p].pc.PDone? {
      PublisherMoves(s, p);
    } else if v :| v in s.workers && s.workers[v] != WAsleep && s.workers[v] != WExit {
      WorkerMoves(s, v);
    } else {
      OnlySleepersLeft(s, w);
      Moves(s, StopStep);
    }
  }

  /** From the compare-and-swap of GracefulStop to its return, some thread of the pool can always act. */
  lemma ShutdownNeverStuck(s: State)
    requires Reachable(s) && s.stop != SIdle && s.stop != SDone
    ensures CanMove(s)
  {
    if s.cancelled && !AllReturned(s) {
      DrainNeverStuck(s);
    } else {
      InvWhenReachable(s);
      if s.mu.Some? {
        HolderMoves(s);
      } else {
        Moves(s, StopStep);
      }
    }
  }

  // ----- A running pool

  /** Before any cancellation a worker is in its receive loop or busy with a task. */
  predicate AtWork(pc: WorkerPc) {
    pc == WLoop || WorkerTask(pc).Some? || pc.WLand? || pc.WEndSignal?
  }

  lemma NotDrainingAtWork(s: State, w: WorkerId)
    requires PhaseOk(s) && !s.cancelled && w in s.workers
    ensures AtWork(s.workers[w]) && !s.workers[w].WTakeUnlock?
  {}

  lemma BusyMoves(s: State, w: WorkerId)
    requires s.mu == None && w in s.workers && s.workers[w] != WLoop && AtWork(s.workers[w]) && !s.workers[w].WTakeUnlock?
    ensures CanMove(s)
  {
    Moves(s, WorkerStep(w));
  }

  lemma SenderMoves(s: State, p: PubId, w: WorkerId)
    requires s.mu == None && p in s.pubs && !s.pubs[p].pc.PDone? && |s.queue| <= s.cap
    requires w in s.workers && s.workers[w] == WLoop
    ensures CanMove(s)
  {
    if s.pubs[p].pc == PGet {
      var t := FreshTask(s.heap.Keys);
      Moves(s, PubGet(p, t));
    } else if s.pubs[p].pc.PSend? && |s.queue| >= s.cap {
      if s.queue != [] {
        Moves(s, WorkerTake(w));
      } else {
        Moves(s, Handoff(p, w));
      }
    } else {
      Moves(s, PubStep(p));
    }
  }

  lemma IdleWorkers(s: State)
    requires Reachable(s) && !s.cancelled && !CanMove(s)
    ensures s.mu == None && s.queue == [] && s.workers != map[] && forall w :: w in s.workers ==> s.workers[w] == WLoop
  {
    InvWhenReachable(s);
    if s.mu.Some? {
      HolderMoves(s);
    }
    forall w | w in s.workers ensures s.workers[w] == WLoop {
      NotDrainingAtWork(s, w);
      if s.workers[w] != WLoop {
        BusyMoves(s, w);
      }
    }
    var w :| w in s.workers;
    if s.queue != [] {
      Moves(s, WorkerTake(w));
    }
  }

  /** While the pool is up it runs what it accepts: when no thread of a pool that is neither stopped nor
      cancelled can act any more, nothing is queued, every publish call has returned, and the handler was
      called exactly once for every accepted message. */
  lemma RunningPoolRunsAll(s: State)
    requires Reachable(s) && !s.cancelled && !CanMove(s)
    ensures s.queue == [] && s.depth == 0 && s.inFlight == 0 && s.publishers == 0
    ensures forall p :: p in s.pubs ==> s.pubs[p].pc.PDone?
    ensures forall p :: p in s.pubs ==> Calls(s, p) == if Sent(s.pubs[p].pc) then 1 else 0
  {
    InvWhenReachable(s);
    IdleWorkers(s);
    var w :| w in s.workers;
    forall p | p in s.pubs ensures s.pubs[p].pc.PDone? {
      if !s.pubs[p].pc.PDone? {
        SenderMoves(s, p, w);
      }
    }
    CountsAtRest(s);
    forall p | p in s.pubs ensures Calls(s, p) == if Sent(s.pubs[p].pc) then 1 else 0 {
      SettledFate(s, p);
    }
  }

  lemma CountsAtRest(s: State)
    requires CountersOk(s) && s.queue == []
    requires forall p :: p in s.pubs ==> s.pubs[p].pc.PDone?
    requires forall w :: w in s.workers ==> s.workers[w] == WLoop
    ensures s.depth == 0 && s.inFlight == 0 && s.publishers == 0
  {
    TotalZero(s.pubs, Counted);
    TotalZero(s.pubs, Pending);
    TotalZero(s.workers, Holding);
    TotalZero(s.workers, Flying);
  }

  /** With nothing queued and no worker before a call, an accepted message has run. */
  lemma SettledFate(s: State, p: PubId)
    requires FatesOk(s) && p in s.pubs && s.queue == [] && forall w :: w in s.workers ==> !BeforeCall(s.workers[w])
    ensures Calls(s, p) == if Sent(s.pubs[p].pc) then 1 else 0
  {
    DistinctCount(s.ran, p);
    assert Became(s, p, s.fate[p]);
    assert Became(s, p, Ran) <==> p in s.fate && s.fate[p] == Ran;
    assert Became(s, p, NotSent) <==> p in s.fate && s.fate[p] == NotSent;
  }
}
