/** Draining: nobody sends after a worker has seen no publishers, and no wake-up is lost. */
module PoolDrain {
  import opened Basics
  import opened PoolModel
  import opened PoolInvariants
  import opened PoolSafety
  import opened Totals

  // ----- The order of the loads

  lemma NoCountedNoLive(s: State)
    requires CountersOk(s) && s.publishers == 0
    ensures NoLivePublisher(s)
  {
    TotalPositive(s.pubs, Counted);
  }

  lemma WorkerDrainFacts(pc: WorkerPc, s: State)
    ensures var (e, q) := WorkerCode(pc, s);
      && (SawNoPublishers(q) ==> SawNoPublishers(pc) || (pc == WSeeP && s.publishers == 0))
      && (SawNoDepth(q) ==> SawNoDepth(pc) || (pc == WSeeD && s.depth == 0))
      && (SawNoPublishers(q) ==> Draining?(pc))
  {}

  lemma PhaseWoken(s: State)
    requires PhaseOk(s)
    ensures PhaseOk(s.(workers := Woken(s.workers)))
  {
    WokenAt(s.workers);
    assert AllReturned(s) ==> AllReturned(s.(workers := Woken(s.workers)));
  }

  lemma PhaseWorker(s: State, w: WorkerId)
    requires PhaseOk(s) && WorkerReady(s, w)
    ensures PhaseOk(DoWorker(s, w))
  {
    var s' := DoWorker(s, w);
    WorkerTaskFacts(s.workers[w], s);
    WorkerStageFacts(s.workers[w], s);
    WokenAt(s.workers);
    assert !AllReturned(s) && s'.workers.Keys == s.workers.Keys && s'.stop == s.stop && s'.st == s.st;
    forall v | v in s'.workers && Draining?(s'.workers[v]) ensures s'.cancelled {
      assert v != w ==> Draining?(s.workers[v]);
    }
  }

  lemma PhaseStop(s: State)
    requires PhaseOk(s) && StopReady(s)
    ensures PhaseOk(DoStop(s))
  {
    PhaseWoken(s);
    assert AllReturned(s) ==> AllReturned(s.(workers := Woken(s.workers)));
  }

  lemma PhasePub(s: State, p: PubId)
    requires PhaseOk(s) && PubReady(s, p)
    ensures PhaseOk(DoPub(s, p))
  {
    PubCodeFacts(s.pubs[p].pc, s);
    PhaseWoken(s);
  }

  /** One publisher moves: the others stay, a task that arrives comes with a signal, and the workers
      stay where they are or are woken by a broadcast made under the lock. */
  ghost predicate Moved(s: State, s': State, p: PubId)
    requires p in s.pubs
  {
    && s'.pubs.Keys == s.pubs.Keys && (forall q :: q in s.pubs && q != p ==> s'.pubs[q] == s.pubs[q])
    && (s'.queue == s.queue || s'.pubs[p].pc == PSentSignal(ToLock))
    && (s.pubs[p].pc == PSentSignal(ToLock) ==> s.mu == None)
    && s'.stop == s.stop
    && s'.workers.Keys == s.workers.Keys
    && (forall w :: w in s.workers ==> s'.workers[w] == s.workers[w] || (s.workers[w] == WAsleep && s'.workers[w] == WLock))
  }

  lemma PubMoves(s: State, p: PubId)
    requires PubReady(s, p)
    ensures Moved(s, DoPub(s, p), p)
  {
    WokenAt(s.workers);
  }

  lemma GateClosed(s: State)
    requires PhaseOk(s) && !s.earlyCancel && exists w :: w in s.workers && SawNoPublishers(s.workers[w])
    ensures s.st != Running
  {
    var w :| w in s.workers && SawNoPublishers(s.workers[w]);
    assert Draining?(s.workers[w]);
  }

  lemma DrainMoved(s: State, s': State, p: PubId)
    requires DrainOk(s) && p in s.pubs && Moved(s, s', p) && s'.earlyCancel == s.earlyCancel
    requires Live(s'.pubs[p].pc) ==>
               Live(s.pubs[p].pc) || s.earlyCancel || !exists w :: w in s.workers && SawNoPublishers(s.workers[w])
    requires s'.queue == s.queue || Live(s.pubs[p].pc)
    ensures DrainOk(s')
  {
    if !s.earlyCancel {
      if w :| w in s'.workers && SawNoPublishers(s'.workers[w]) {
        assert w in s.workers && SawNoPublishers(s.workers[w]);
        assert NoLivePublisher(s');
      }
      if w :| w in s'.workers && SawNoDepth(s'.workers[w]) {
        assert w in s.workers && SawNoDepth(s.workers[w]) && SawNoPublishers(s.workers[w]);
      }
    }
  }

  /** Nobody who could still send: then nobody ever will again. */
  lemma DrainPub(s: State, p: PubId)
    requires DrainOk(s) && PhaseOk(s) && PubReady(s, p)
    ensures DrainOk(DoPub(s, p))
  {
    PubCodeFacts(s.pubs[p].pc, s);
    PubFateFacts(s.pubs[p].pc, s);
    PubMoves(s, p);
    if !s.earlyCancel && exists w :: w in s.workers && SawNoPublishers(s.workers[w]) {
      GateClosed(s);
    }
    DrainMoved(s, DoPub(s, p), p);
  }

  lemma DrainWorker(s: State, w: WorkerId)
    requires DrainOk(s) && CountersOk(s) && WorkerReady(s, w)
    ensures DrainOk(DoWorker(s, w))
  {
    var pc, s' := s.workers[w], DoWorker(s, w);
    WorkerTaskFacts(pc, s);
    WorkerDrainFacts(pc, s);
    WokenAt(s.workers);
    if s.publishers == 0 {
      NoCountedNoLive(s);
    }
    if v :| v in s'.workers && SawNoPublishers(s'.workers[v]) {
      assert v != w ==> SawNoPublishers(s.workers[v]);
    }
    if v :| v in s'.workers && SawNoDepth(s'.workers[v]) {
      assert v != w ==> SawNoDepth(s.workers[v]);
    }
  }

  lemma DrainStop(s: State)
    requires DrainOk(s) && StopReady(s)
    ensures DrainOk(DoStop(s))
  {
    WokenAt(s.workers);
    var s' := DoStop(s);
    assert forall w :: w in s'.workers && SawNoPublishers(s'.workers[w]) ==> SawNoPublishers(s.workers[w]);
    assert forall w :: w in s'.workers && SawNoDepth(s'.workers[w]) ==> SawNoDepth(s.workers[w]);
  }

  // ----- No lost wake-up

  lemma SignalStays(s: State, s': State)
    requires SignalToCome(s)
    requires forall p :: p in s.pubs && PubWillSignal(s.pubs[p].pc) ==> p in s'.pubs && PubWillSignal(s'.pubs[p].pc)
    requires forall w :: w in s.workers && WorkerWillSignal(s.workers[w]) ==> w in s'.workers && WorkerWillSignal(s'.workers[w])
    requires StopWillSignal(s.stop) ==> StopWillSignal(s'.stop)
    ensures SignalToCome(s')
  {
    if exists p :: p in s.pubs && PubWillSignal(s.pubs[p].pc) {
      var p :| p in s.pubs && PubWillSignal(s.pubs[p].pc);
      assert p in s'.pubs && PubWillSignal(s'.pubs[p].pc);
    } else if exists w :: w in s.workers && WorkerWillSignal(s.workers[w]) {
      var w :| w in s.workers && WorkerWillSignal(s.workers[w]);
      assert w in s'.workers && WorkerWillSignal(s'.workers[w]);
    }
  }

  lemma SenderStays(s: State, s': State)
    requires SenderAtLock(s)
    requires forall p :: p in s.pubs && s.pubs[p].pc == PSentSignal(ToLock) ==> p in s'.pubs && s'.pubs[p].pc == PSentSignal(ToLock)
    ensures SenderAtLock(s')
  {
    var p :| p in s.pubs && s.pubs[p].pc == PSentSignal(ToLock);
    assert p in s'.pubs && s'.pubs[p].pc == PSentSignal(ToLock);
  }

  /** While a thread other than a worker of this kind holds the lock, no worker is parking or waiting. */
  lemma OneHolder(s: State, self: Thread)
    requires LockOk(s) && s.mu == Some(self)
    ensures forall w :: w in s.workers && (s.workers[w] == WPark || Waiting(s.workers[w])) ==> self == WorkerThread(w)
  {}

  ghost predicate WaitersHold(s: State) {
    forall w :: w in s.workers && (Waiting(s.workers[w]) || s.workers[w] == WPark) ==> s.mu == Some(WorkerThread(w))
  }

  lemma LockedWaiters(s: State)
    requires LockOk(s)
    ensures WaitersHold(s)
  {}

  lemma ArrivalMoved(s: State, s': State, p: PubId)
    requires ArrivalOk(s) && WaitersHold(s) && p in s.pubs && Moved(s, s', p)
    ensures ArrivalOk(s')
  {
    if w :| w in s'.workers && Waiting(s'.workers[w]) {
      assert w in s.workers && s'.workers[w] == s.workers[w] && s.mu == Some(WorkerThread(w));
      if s'.queue == s.queue != [] {
        var q :| q in s.pubs && s.pubs[q].pc == PSentSignal(ToLock);
        assert q in s'.pubs && s'.pubs[q] == s.pubs[q];
      }
    }
  }

  lemma ArrivalPub(s: State, p: PubId)
    requires ArrivalOk(s) && LockOk(s) && PubReady(s, p)
    ensures ArrivalOk(DoPub(s, p))
  {
    LockedWaiters(s);
    PubMoves(s, p);
    ArrivalMoved(s, DoPub(s, p), p);
  }

  /** A signal to come stays to come, except that of publisher `p`. */
  lemma SignalMoved(s: State, s': State, p: PubId)
    requires SignalToCome(s) && p in s.pubs && Moved(s, s', p)
    ensures SignalToCome(s') || (PubWillSignal(s.pubs[p].pc) && !PubWillSignal(s'.pubs[p].pc))
  {
    if q :| q in s.pubs && PubWillSignal(s.pubs[q].pc) {
      assert q in s'.pubs && (q != p ==> s'.pubs[q] == s.pubs[q]);
    } else if w :| w in s.workers && WorkerWillSignal(s.workers[w]) {
      assert w in s'.workers && s'.workers[w] == s.workers[w];
    }
  }

  /** A publisher that gives up its last signal has just broadcast under the lock, so nobody is asleep. */
  lemma SleepMoved(s: State, s': State, p: PubId)
    requires SleepOk(s) && WaitersHold(s) && p in s.pubs && Moved(s, s', p)
    requires PubWillSignal(s.pubs[p].pc) && !PubWillSignal(s'.pubs[p].pc) ==>
               s.mu == Some(PubThread(p)) && forall w :: w in s'.workers ==> s'.workers[w] != WAsleep
    ensures SleepOk(s')
  {
    if w :| w in s'.workers && Sleeping(s'.workers[w]) {
      assert w in s.workers && s'.workers[w] == s.workers[w];
      SignalMoved(s, s', p);
      assert s.workers[w] == WPark ==> s.mu == Some(WorkerThread(w));
    }
  }

  lemma SleepPub(s: State, p: PubId)
    requires SleepOk(s) && LockOk(s) && PubReady(s, p)
    ensures SleepOk(DoPub(s, p))
  {
    PubCodeFacts(s.pubs[p].pc, s);
    WokenAt(s.workers);
    LockedWaiters(s);
    PubMoves(s, p);
    SleepMoved(s, DoPub(s, p), p);
  }

  lemma WorkerWakeFacts(pc: WorkerPc, s: State)
    ensures var (e, q) := WorkerCode(pc, s);
      && (Waiting(q) ==> Waiting(pc) || pc == WTryTake)
      && (q == WPark ==> Waiting(pc) && (s.publishers != 0 || s.depth != 0 || s.inFlight != 0))
      && (q == WAsleep ==> pc == WPark || pc == WAsleep)
  {}

  lemma CountedWillSignal(s: State)
    requires Total(s.pubs, Counted) > 0
    ensures SignalToCome(s)
  {
    TotalPositive(s.pubs, Counted);
    var k :| k in s.pubs && Counted(s.pubs[k]) > 0;
    assert PubWillSignal(s.pubs[k].pc);
  }

  lemma PendingWillSignal(s: State)
    requires Total(s.pubs, Pending) > 0
    ensures SignalToCome(s)
  {
    TotalPositive(s.pubs, Pending);
    var k :| k in s.pubs && Pending(s.pubs[k]) > 0;
    assert PubWillSignal(s.pubs[k].pc);
  }

  lemma HoldingWillSignal(s: State)
    requires Total(s.workers, Holding) > 0
    ensures SignalToCome(s)
  {
    TotalPositive(s.workers, Holding);
    var k :| k in s.workers && Holding(s.workers[k]) > 0;
    assert WorkerWillSignal(s.workers[k]);
  }

  lemma FlyingWillSignal(s: State)
    requires Total(s.workers, Flying) > 0
    ensures SignalToCome(s)
  {
    TotalPositive(s.workers, Flying);
    var k :| k in s.workers && Flying(s.workers[k]) > 0;
    assert WorkerWillSignal(s.workers[k]);
  }

  lemma SenderWillSignal(s: State)
    requires SenderAtLock(s)
    ensures SignalToCome(s)
  {
    var p :| p in s.pubs && s.pubs[p].pc == PSentSignal(ToLock);
    assert PubWillSignal(s.pubs[p].pc);
  }

  /** Under the lock, after an empty receive: a counter that is not zero belongs to a thread that will signal. */
  lemma NonzeroWillSignal(s: State)
    requires CountersOk(s) && (s.publishers != 0 || s.depth != 0 || s.inFlight != 0)
    requires s.queue != [] ==> SenderAtLock(s)
    ensures SignalToCome(s)
  {
    if s.publishers != 0 {
      CountedWillSignal(s);
    } else if s.inFlight != 0 {
      FlyingWillSignal(s);
    } else if s.queue != [] {
      SenderWillSignal(s);
    } else if Total(s.pubs, Pending) > 0 {
      PendingWillSignal(s);
    } else {
      HoldingWillSignal(s);
    }
  }

  lemma ArrivalWorker(s: State, w0: WorkerId)
    requires ArrivalOk(s) && WorkerReady(s, w0)
    ensures ArrivalOk(DoWorker(s, w0))
  {
    var pc, s' := s.workers[w0], DoWorker(s, w0);
    WorkerTaskFacts(pc, s);
    WorkerWakeFacts(pc, s);
    WokenAt(s.workers);
    if w :| w in s'.workers && Waiting(s'.workers[w]) {
      if s'.queue != [] {
        assert Waiting(s.workers[w]);
        SenderStays(s, s');
      }
    }
  }

  lemma SleepPark(s: State, w0: WorkerId)
    requires ArrivalOk(s) && CountersOk(s) && WorkerReady(s, w0)
    requires Waiting(s.workers[w0]) && DoWorker(s, w0).workers[w0] == WPark
    ensures SignalToCome(DoWorker(s, w0))
  {
    WorkerWakeFacts(s.workers[w0], s);
    NonzeroWillSignal(s);
    SignalStays(s, DoWorker(s, w0));
  }

  lemma SleepWorker(s: State, w0: WorkerId)
    requires SleepOk(s) && ArrivalOk(s) && CountersOk(s) && LockOk(s) && WorkerReady(s, w0)
    ensures SleepOk(DoWorker(s, w0))
  {
    var pc, s' := s.workers[w0], DoWorker(s, w0);
    WokenAt(s.workers);
    WorkerWakeFacts(pc, s);
    if Waiting(pc) && s'.workers[w0] == WPark {
      SleepPark(s, w0);
    } else if w :| w in s'.workers && Sleeping(s'.workers[w]) {
      assert Sleeping(s.workers[w]);
      SleepersKept(s, w0, w);
    }
  }

  /** A sleeper that stays asleep keeps its broadcast to come: a broadcast would have woken it. */
  lemma SleepersKept(s: State, w0: WorkerId, w: WorkerId)
    requires LockOk(s) && SignalToCome(s) && WorkerReady(s, w0)
    requires w in s.workers && Sleeping(s.workers[w]) && Sleeping(DoWorker(s, w0).workers[w])
    ensures SignalToCome(DoWorker(s, w0))
  {
    var pc := s.workers[w0];
    WorkerCodeFacts(pc, s);
    WorkerStageFacts(pc, s);
    if WorkerCode(pc, s).0 == Broadcast {
      OneHolder(s, WorkerThread(w0));
      assert false;
    }
    SignalStays(s, DoWorker(s, w0));
  }

  lemma SleepStop(s: State)
    requires SleepOk(s) && LockOk(s) && StopReady(s)
    ensures SleepOk(DoStop(s))
  {
    LockedWaiters(s);
    WokenAt(s.workers);
    SleepStopped(s, DoStop(s));
  }

  lemma SleepStopped(s: State, s': State)
    requires SleepOk(s) && WaitersHold(s) && s'.pubs == s.pubs && s'.workers.Keys == s.workers.Keys
    requires forall w :: w in s.workers ==> s'.workers[w] == s.workers[w] || (s.workers[w] == WAsleep && s'.workers[w] == WLock)
    requires StopWillSignal(s.stop) && !StopWillSignal(s'.stop) ==>
               s.mu == Some(StopThread) && forall w :: w in s'.workers ==> s'.workers[w] != WAsleep
    ensures SleepOk(s')
  {
    if w :| w in s'.workers && Sleeping(s'.workers[w]) {
      assert w in s.workers && s'.workers[w] == s.workers[w] && Sleeping(s.workers[w]);
      if v :| v in s.workers && WorkerWillSignal(s.workers[v]) {
        assert v in s'.workers && s'.workers[v] == s.workers[v];
      }
    }
  }

  lemma ArrivalStop(s: State)
    requires ArrivalOk(s) && StopReady(s)
    ensures ArrivalOk(DoStop(s))
  {
    var s' := DoStop(s);
    WokenAt(s.workers);
    if w :| w in s'.workers && Waiting(s'.workers[w]) {
      assert Waiting(s.workers[w]);
    }
  }

  // ----- All invariants, action by action

  lemma KeptByPub(s: State, p: PubId)
    requires Inv(s) && PubReady(s, p)
    ensures Inv(DoPub(s, p))
  {
    CountersPubStep(s, p);
    LockPub(s, p);
    OwnersPub(s, p);
    FatesPub(s, p);
    PhasePub(s, p);
    DrainPub(s, p);
    SleepPub(s, p);
    ArrivalPub(s, p);
  }

  lemma KeptByWorker(s: State, w: WorkerId)
    requires Inv(s) && WorkerReady(s, w)
    ensures Inv(DoWorker(s, w))
  {
    CountersWorkerStep(s, w);
    LockWorker(s, w);
    OwnersWorker(s, w);
    FatesWorker(s, w);
    PhaseWorker(s, w);
    DrainWorker(s, w);
    SleepWorker(s, w);
    ArrivalWorker(s, w);
  }

  lemma KeptByStop(s: State)
    requires Inv(s) && StopReady(s)
    ensures Inv(DoStop(s))
  {
    CountersStop(s);
    LockStop(s);
    OwnersStop(s);
    FatesStop(s);
    PhaseStop(s);
    DrainStop(s);
    SleepStop(s);
    ArrivalStop(s);
  }

  lemma PhaseTake(s: State, w: WorkerId)
    requires PhaseOk(s) && DrainOk(s) && TakeReady(s, w)
    ensures PhaseOk(DoTake(s, w)) && DrainOk(DoTake(s, w))
  {
    var s' := DoTake(s, w);
    assert s.workers[w] != WExit;
    assert forall v :: v in s'.workers && SawNoPublishers(s'.workers[v]) ==> SawNoPublishers(s.workers[v]);
    assert forall v :: v in s'.workers && SawNoDepth(s'.workers[v]) ==> SawNoDepth(s.workers[v]);
  }

  lemma WakeTake(s: State, w: WorkerId)
    requires ArrivalOk(s) && TakeReady(s, w)
    ensures SleepOk(DoTake(s, w)) && ArrivalOk(DoTake(s, w))
  {
    var s' := DoTake(s, w);
    assert WorkerWillSignal(s'.workers[w]);
    assert forall v :: v in s'.workers && Waiting(s'.workers[v]) ==> Waiting(s.workers[v]);
  }

  lemma KeptByTake(s: State, w: WorkerId)
    requires Inv(s) && TakeReady(s, w)
    ensures Inv(DoTake(s, w))
  {
    CountersTake(s, w);
    LockTake(s, w);
    OwnersTake(s, w);
    FatesTake(s, w);
    PhaseTake(s, w);
    WakeTake(s, w);
  }

  lemma RestOfHandoff(s: State, p: PubId, w: WorkerId)
    requires PhaseOk(s) && DrainOk(s) && HandoffReady(s, p, w) && s.queue == []
    ensures var s' := DoHandoff(s, p, w); PhaseOk(s') && DrainOk(s') && SleepOk(s') && ArrivalOk(s')
  {
    var s' := DoHandoff(s, p, w);
    assert s.workers[w] != WExit;
    assert WorkerWillSignal(s'.workers[w]);
    assert forall v :: v in s'.workers && SawNoPublishers(s'.workers[v]) ==> SawNoPublishers(s.workers[v]);
  }

  lemma KeptByHandoff(s: State, p: PubId, w: WorkerId)
    requires Inv(s) && HandoffReady(s, p, w)
    ensures Inv(DoHandoff(s, p, w))
  {
    CountersHandoff(s, p, w);
    LockHandoff(s, p, w);
    OwnersHandoff(s, p, w);
    FatesHandoff(s, p, w);
    assert s.queue == [];
    RestOfHandoff(s, p, w);
  }

  /** A publisher moves; locks, workers, queue and phases do not. */
  lemma RestOfPub(s: State, s': State, p: PubId, v: Pub)
    requires LockOk(s) && PhaseOk(s) && DrainOk(s) && SleepOk(s) && ArrivalOk(s)
    requires s'.pubs == s.pubs[p := v] && s'.workers == s.workers && s'.queue == s.queue && s'.mu == s.mu
    requires s'.stop == s.stop && s'.st == s.st && s'.cancelled == s.cancelled && s'.earlyCancel == s.earlyCancel
    requires PubWillSignal(v.pc) && !PubHolds(v.pc)
    requires Live(v.pc) ==> p in s.pubs && Live(s.pubs[p].pc)
    requires p in s.pubs ==> !PubHolds(s.pubs[p].pc) && s.pubs[p].pc != PSentSignal(ToLock)
    ensures LockOk(s') && PhaseOk(s') && DrainOk(s') && SleepOk(s') && ArrivalOk(s')
  {
    assert p in s'.pubs && PubWillSignal(s'.pubs[p].pc);
    if SenderAtLock(s) { SenderStays(s, s'); }
  }

  lemma RestOfGet(s: State, p: PubId, t: TaskId)
    requires LockOk(s) && PhaseOk(s) && DrainOk(s) && SleepOk(s) && ArrivalOk(s) && Enabled(s, PubGet(p, t))
    ensures var s' := DoGet(s, p, t); LockOk(s') && PhaseOk(s') && DrainOk(s') && SleepOk(s') && ArrivalOk(s')
  {
    RestOfPub(s, DoGet(s, p, t), p, s.pubs[p].(pc := PFill(t)));
  }

  lemma RestOfGiveUp(s: State, p: PubId)
    requires LockOk(s) && PhaseOk(s) && DrainOk(s) && SleepOk(s) && ArrivalOk(s) && p in s.pubs && s.pubs[p].pc.PSend?
    ensures var s' := DoGiveUp(s, p); LockOk(s') && PhaseOk(s') && DrainOk(s') && SleepOk(s') && ArrivalOk(s')
  {
    RestOfPub(s, DoGiveUp(s, p), p, s.pubs[p].(pc := PUndoDepth(s.pubs[p].pc.t)));
  }

  lemma KeptByGet(s: State, p: PubId, t: TaskId)
    requires Inv(s) && Enabled(s, PubGet(p, t))
    ensures Inv(DoGet(s, p, t))
  {
    CountersGet(s, p, t);
    OwnersGet(s, p, t);
    FatesGet(s, p, t);
    RestOfGet(s, p, t);
  }

  lemma KeptByGiveUp(s: State, p: PubId)
    requires Inv(s) && p in s.pubs && s.pubs[p].pc.PSend?
    ensures Inv(DoGiveUp(s, p))
  {
    CountersGiveUp(s, p);
    OwnersGiveUp(s, p);
    FatesGiveUp(s, p);
    RestOfGiveUp(s, p);
  }

  lemma KeptByBegin(s: State, p: PubId, blocking: bool)
    requires Inv(s) && p !in s.pubs
    ensures Inv(DoBegin(s, p, blocking))
  {
    CountersBegin(s, p, blocking);
    OwnersBegin(s, p, blocking);
    FatesBegin(s, p, blocking);
    RestOfPub(s, DoBegin(s, p, blocking), p, Pub(PGate, blocking));
  }

  /** Threads, queue, lock and counters stay as they are. */
  ghost predicate Stays(s: State, s': State) {
    && s'.pubs == s.pubs && s'.workers == s.workers && s'.queue == s.queue && s'.mu == s.mu && s'.stop == s.stop
    && s'.st == s.st && s'.cap == s.cap
    && s'.publishers == s.publishers && s'.depth == s.depth && s'.inFlight == s.inFlight
  }

  lemma WakingStays(s: State, s': State)
    requires Stays(s, s') && CountersOk(s) && LockOk(s) && SleepOk(s) && ArrivalOk(s)
    ensures CountersOk(s') && LockOk(s') && SleepOk(s') && ArrivalOk(s')
  {
    if SignalToCome(s) { SignalStays(s, s'); }
    if SenderAtLock(s) { SenderStays(s, s'); }
  }

  lemma PhaseStays(s: State, s': State)
    requires Stays(s, s') && PhaseOk(s) && DrainOk(s)
    requires (s'.cancelled == s.cancelled && s'.earlyCancel == s.earlyCancel)
             || (s'.cancelled && s'.earlyCancel == (s.earlyCancel || s.st == Running))
    ensures PhaseOk(s') && DrainOk(s')
  {
    assert AllReturned(s') == AllReturned(s);
    assert NoLivePublisher(s') == NoLivePublisher(s);
  }

  lemma KeptByDrop(s: State, t: TaskId)
    requires Inv(s) && t in s.free
    ensures Inv(DoDrop(s, t))
  {
    var s' := DoDrop(s, t);
    OwnersDrop(s, t);
    FatesDrop(s, t);
    PhaseStays(s, s');
    WakingStays(s, s');
  }

  lemma KeptByParentCancel(s: State)
    requires Inv(s)
    ensures Inv(DoParentCancel(s))
  {
    var s' := DoParentCancel(s);
    OwnersParentCancel(s);
    FatesParentCancel(s);
    PhaseStays(s, s');
    WakingStays(s, s');
  }

  /** Every action keeps every invariant. */
  lemma Kept(s: State, a: Action)
    requires Inv(s) && Enabled(s, a)
    ensures Inv(Do(s, a))
  {
    match a
    case Begin(p, b) => KeptByBegin(s, p, b);
    case PubGet(p, t) => KeptByGet(s, p, t);
    case PubStep(p) => KeptByPub(s, p);
    case PubGiveUp(p) => KeptByGiveUp(s, p);
    case WorkerTake(w) => KeptByTake(s, w);
    case WorkerStep(w) => KeptByWorker(s, w);
    case Handoff(p, w) => KeptByHandoff(s, p, w);
    case StopStep => KeptByStop(s);
    case ParentCancel => KeptByParentCancel(s);
    case PoolDrop(t) => KeptByDrop(s, t);
  }

  lemma CountersAtStart(n: int, buf: int)
    ensures CountersOk(New(n, buf))
  {
    var s := New(n, buf);
    TotalPositive(s.workers, Holding);
    TotalPositive(s.workers, Flying);
  }

  lemma PlacesAtStart(n: int, buf: int)
    ensures OwnersOk(New(n, buf)) && FatesOk(New(n, buf))
  {
    var s := New(n, buf);
    forall t, o ensures !At(s, t, o) {}
    forall p, f ensures !Became(s, p, f) {}
  }

  lemma ThreadsAtStart(n: int, buf: int)
    ensures var s := New(n, buf); LockOk(s) && PhaseOk(s) && DrainOk(s) && SleepOk(s) && ArrivalOk(s)
  {
    assert 0 in New(n, buf).workers;
  }

  lemma InvAtStart(n: int, buf: int)
    ensures Inv(New(n, buf))
  {
    CountersAtStart(n, buf);
    PlacesAtStart(n, buf);
    ThreadsAtStart(n, buf);
  }

  /** Every state of every run satisfies the invariants. */
  lemma {:induction false} InvOnRuns(trace: seq<State>, n: int, buf: int, i: nat)
    requires IsRun(trace) && trace[0] == New(n, buf) && i < |trace|
    ensures Inv(trace[i])
  {
    if i == 0 {
      InvAtStart(n, buf);
    } else {
      InvOnRuns(trace, n, buf, i - 1);
      assert Follows(trace[i - 1], trace[i]);
      var a :| Enabled(trace[i - 1], a) && Do(trace[i - 1], a) == trace[i];
      Kept(trace[i - 1], a);
    }
  }

  lemma InvWhenReachable(s: State)
    requires Reachable(s)
    ensures Inv(s)
  {
    var trace: seq<State>, n: int, buf: int :| IsRun(trace) && trace[0] == New(n, buf) && trace[|trace| - 1] == s;
    InvOnRuns(trace, n, buf, |trace| - 1);
  }
}
