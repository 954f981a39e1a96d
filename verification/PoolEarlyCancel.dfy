/** The one way to lose a task: with a buffered channel, cancelling the parent context before
    GracefulStop lets the workers return while publishes still succeed. */
module PoolEarlyCancel {
  import opened Basics
  import opened PoolModel
  import opened PoolInvariants
  import opened PoolSafety
  import opened PoolTheorems
  import opened PoolTermination

  lemma InitiallyReachable(n: int, buf: int)
    ensures Reachable(New(n, buf))
  {
    var trace := [New(n, buf)];
    assert IsRun(trace) && trace[0] == New(n, buf) && trace[|trace| - 1] == New(n, buf);
  }

  /** Nothing was ever published, but the context is cancelled. */
  predicate Empty(s: State) {
    && s.cancelled && s.queue == [] && s.publishers == 0 && s.depth == 0 && s.inFlight == 0
  }

  predicate Returning(pc: WorkerPc) {
    pc == WLoop || pc == WTop || pc == WSeeP || pc == WSeeD || pc == WSeeF || pc == WExit
  }

  lemma CheckStep(s: State, k: WorkerId) returns (q: WorkerPc)
    requires Empty(s) && k in s.workers && Returning(s.workers[k]) && s.workers[k] != WExit
    ensures WorkerReady(s, k) && DoWorker(s, k) == SetWorker(s, k, q)
    ensures Returning(q) && Rank(Mode(true, true, true), q) < Rank(Mode(true, true, true), s.workers[k])
  {
    q := WorkerCode(s.workers[k], s).1;
  }

  lemma CheckOnce(s: State, k: WorkerId) returns (q: WorkerPc)
    requires Reachable(s) && Empty(s) && k in s.workers && Returning(s.workers[k]) && s.workers[k] != WExit
    ensures Reachable(SetWorker(s, k, q))
    ensures Returning(q) && Rank(Mode(true, true, true), q) < Rank(Mode(true, true, true), s.workers[k])
  {
    q := CheckStep(s, k);
    ExtendRun(s, WorkerStep(k));
  }

  lemma SetTwice(s: State, k: WorkerId, pc: WorkerPc, q: WorkerPc)
    ensures SetWorker(SetWorker(s, k, pc), k, q) == SetWorker(s, k, q)
    ensures k in s.workers && s.workers[k] == pc ==> SetWorker(s, k, pc) == s
  {
    assert s.workers[k := pc][k := q] == s.workers[k := q];
  }

  /** An idle worker whose loads all find zero returns. */
  lemma {:induction false} OneReturns(s: State, k: WorkerId, pc: WorkerPc)
    requires Reachable(SetWorker(s, k, pc)) && Empty(s) && Returning(pc)
    ensures Reachable(SetWorker(s, k, WExit))
    decreases Rank(Mode(true, true, true), pc)
  {
    if pc != WExit {
      var q := CheckOnce(SetWorker(s, k, pc), k);
      SetTwice(s, k, pc, q);
      OneReturns(s, k, q);
    }
  }

  lemma {:induction false} AllReturn(s: State, todo: set<WorkerId>) returns (s': State)
    requires Reachable(s) && Empty(s)
    requires forall w :: w in s.workers ==> s.workers[w] == if w in todo then WLoop else WExit
    ensures Reachable(s') && AllReturned(s') && s' == s.(workers := s'.workers) && s'.workers.Keys == s.workers.Keys
    decreases todo
  {
    if k :| k in todo && k in s.workers {
      assert SetWorker(s, k, WExit).workers.Keys == s.workers.Keys;
      SetTwice(s, k, WLoop, WExit);
      OneReturns(s, k, WLoop);
      s' := AllReturn(SetWorker(s, k, WExit), todo - {k});
    } else {
      s' := s;
    }
  }

  /** All workers are gone, nothing ran, and publisher 0 alone is on its way to acceptance. */
  ghost predicate Alone(s: State, pc: PubPc) {
    && Reachable(s) && AllReturned(s) && s.ran == [] && s.cap > 0
    && s.pubs == map[0 := Pub(pc, true)]
    && s.st == Running && s.stop == SIdle
    && s.mu == (if PubHolds(pc) then Some(PubThread(0)) else None)
    && (Sent(pc) || s.queue == [])
    && (pc == PGate || Live(pc) || Sent(pc))
  }

  lemma AloneGet(s: State) returns (s': State, q: PubPc)
    requires Alone(s, PGet)
    ensures Alone(s', q) && PubWork(Pub(q, true)) < PubWork(Pub(PGet, true))
    ensures s'.workers == s.workers && s'.cap == s.cap
  {
    var t := FreshTask(s.heap.Keys);
    ExtendRun(s, PubGet(0, t));
    s', q := DoGet(s, 0, t), PFill(t);
  }

  lemma AloneFacts(s: State, pc: PubPc)
    requires AllReturned(s) && s.cap > 0 && s.pubs == map[0 := Pub(pc, true)] && s.st == Running
    requires s.mu == if PubHolds(pc) then Some(PubThread(0)) else None
    requires (Sent(pc) || s.queue == []) && (pc == PGate || Live(pc) || Sent(pc)) && pc != PDone(true) && pc != PGet
    ensures PubReady(s, 0)
    ensures var (e, q) := PubCode(pc, s); q == PGet || Live(q) || Sent(q)
    ensures var s' := DoPub(s, 0); s'.mu == if PubHolds(PubCode(pc, s).1) then Some(PubThread(0)) else None
    ensures var s' := DoPub(s, 0); s'.workers == s.workers && s'.ran == s.ran && (Sent(PubCode(pc, s).1) || s'.queue == [])
  {
    PubCodeFacts(pc, s);
    assert Woken(s.workers) == s.workers;
  }

  lemma AloneStep(s: State, pc: PubPc) returns (s': State, q: PubPc)
    requires Alone(s, pc) && pc != PDone(true) && pc != PGet
    ensures Alone(s', q) && PubWork(Pub(q, true)) < PubWork(Pub(pc, true))
    ensures s'.workers == s.workers && s'.cap == s.cap
  {
    AloneFacts(s, pc);
    PubStepWork(Pub(pc, true), s);
    ExtendRun(s, PubStep(0));
    s', q := DoPub(s, 0), PubCode(pc, s).1;
    PubCodeFacts(pc, s);
    assert s'.pubs == map[0 := Pub(q, true)];
  }

  lemma {:induction false} AloneAccepted(s: State, pc: PubPc) returns (s': State)
    requires Alone(s, pc)
    ensures Alone(s', PDone(true)) && s'.workers == s.workers && s'.cap == s.cap
    decreases PubWork(Pub(pc, true))
  {
    if pc == PDone(true) {
      s' := s;
    } else {
      var r, q;
      if pc == PGet {
        r, q := AloneGet(s);
      } else {
        r, q := AloneStep(s, pc);
      }
      s' := AloneAccepted(r, q);
    }
  }

  lemma StopGoesOn(s: State) returns (s': State)
    requires AllReturned(s) && s.stop != SDone && (s.stop == SIdle ==> s.st == Running)
    requires s.mu == if StopHolds(s.stop) then Some(StopThread) else None
    ensures StopReady(s) && s' == DoStop(s) && StopWork(s'.stop) < StopWork(s.stop)
    ensures s'.workers == s.workers && s'.cap == s.cap && s'.pubs == s.pubs && s'.ran == s.ran && s'.stop != SIdle
    ensures s'.mu == if StopHolds(s'.stop) then Some(StopThread) else None
  {
    assert Woken(s.workers) == s.workers;
    s' := DoStop(s);
  }

  lemma {:induction false} StopReturns(s: State) returns (s': State)
    requires Reachable(s) && AllReturned(s) && (s.stop == SIdle ==> s.st == Running)
    requires s.mu == if StopHolds(s.stop) then Some(StopThread) else None
    ensures Reachable(s') && s'.stop == SDone && s'.pubs == s.pubs && s'.ran == s.ran
    ensures s'.workers == s.workers && s'.cap == s.cap
    decreases StopWork(s.stop)
  {
    if s.stop == SDone {
      s' := s;
    } else {
      var r := StopGoesOn(s);
      ExtendRun(s, StopStep);
      s' := StopReturns(r);
    }
  }

  /** GracefulStop has returned, and the handler was never called for an accepted publish. */
  ghost predicate LostIn(s: State, p: PubId) {
    Reachable(s) && s.stop == SDone && p in s.pubs && s.pubs[p].pc == PDone(true) && Calls(s, p) == 0
  }

  /** For every pool size and every buffered channel there is a run that loses an accepted publish. */
  lemma EarlyCancelLosesTasks(n: int, buf: int) returns (s: State, p: PubId)
    requires buf > 0
    ensures LostIn(s, p) && s.cap == buf && s.workers.Keys == New(n, buf).workers.Keys
  {
    var start := New(n, buf);
    InitiallyReachable(n, buf);
    ExtendRun(start, ParentCancel);
    var idle := AllReturn(DoParentCancel(start), start.workers.Keys);
    s, p := LosesAfterReturn(idle);
  }

  lemma LosesAfterReturn(s: State) returns (s': State, p: PubId)
    requires Reachable(s) && AllReturned(s) && s.ran == [] && s.cap > 0 && s.pubs == map[]
    requires s.st == Running && s.stop == SIdle && s.mu == None && s.queue == []
    ensures LostIn(s', p) && s'.cap == s.cap && s'.workers == s.workers
  {
    ExtendRun(s, Begin(0, true));
    assert Alone(DoBegin(s, 0, true), PGate);
    var accepted := AloneAccepted(DoBegin(s, 0, true), PGate);
    s' := StopReturns(accepted);
    p := 0;
  }
}
