/** What the worker pool promises about whole runs: why a publish is refused, and that the pool keeps its size. */
module PoolRuns {
  import opened Basics
  import opened PoolModel
  import opened PoolInvariants
  import opened PoolDrain

  // ----- Refused publishes

  /** On the way to returning false. */
  predicate Refusing(pc: PubPc) {
    || pc.PUndoDepth? || pc.PUndoTask? || pc.PUndoPut?
    || pc == PLeave(false) || (pc.PLeaveSignal? && !pc.ok) || pc == PDone(false)
  }

  predicate IsRefused(s: State, p: PubId) { p in s.pubs && Refusing(s.pubs[p].pc) }

  /** The pool is not running when the call looks at its state; or the call is at the channel and its buffer is
      full, or it waits there and a context ends. */
  predicate Cause(s: State, p: PubId) {
    && p in s.pubs
    && ((s.pubs[p].pc == PGate && s.st != Running)
        || (s.pubs[p].pc.PSend? && (s.pubs[p].blocking || |s.queue| >= s.cap)))
  }

  lemma PubRefused(s: State, p: PubId)
    requires PubReady(s, p) && Refusing(PubCode(s.pubs[p].pc, s).1) && !Refusing(s.pubs[p].pc)
    ensures Cause(s, p)
  {}

  lemma RefusalStep(s: State, a: Action, p: PubId)
    requires Enabled(s, a) && IsRefused(Do(s, a), p) && !IsRefused(s, p)
    ensures Cause(s, p)
  {
    match a
    case PubStep(q) =>
      if q == p {
        PubRefused(s, p);
      }
    case _ =>
  }

  lemma RefusalFollows(s: State, s': State, p: PubId)
    requires Follows(s, s') && IsRefused(s', p) && !IsRefused(s, p)
    ensures Cause(s, p)
  {
    var a :| Enabled(s, a) && Do(s, a) == s';
    RefusalStep(s, a, p);
  }

  lemma {:induction false} RefusedSince(trace: seq<State>, i: nat, p: PubId) returns (j: nat)
    requires IsRun(trace) && i < |trace| && IsRefused(trace[i], p) && !IsRefused(trace[0], p)
    ensures j < i && Cause(trace[j], p)
  {
    j := i - 1;
    if IsRefused(trace[j], p) {
      j := RefusedSince(trace, j, p);
    } else {
      RefusalFollows(trace[j], trace[i], p);
    }
  }

  /** A publish call returns false only for a cause: the pool had left the running state when the call looked,
      or the buffer was full at a non-blocking call, or a context ended under a blocking one. */
  lemma RefusedForCause(trace: seq<State>, n: int, buf: int, i: nat, p: PubId)
    requires IsRun(trace) && trace[0] == New(n, buf) && i < |trace| && p in trace[i].pubs && trace[i].pubs[p].pc == PDone(false)
    ensures exists j: nat :: j < i && Cause(trace[j], p)
  {
    var j := RefusedSince(trace, i, p);
  }

  // ----- Returning workers

  /** The worker's load of a counter was zero, and took it to `pc`. */
  predicate SawZero(s: State, w: WorkerId, pc: WorkerPc) {
    && w in s.workers
    && match pc
       case WSeeD => s.workers[w] == WSeeP && s.publishers == 0
       case WSeeF => s.workers[w] == WSeeD && s.depth == 0
       case WExit => s.workers[w] == WSeeF && s.inFlight == 0
       case _ => false
  }

  predicate Checking(pc: WorkerPc) { pc == WSeeD || pc == WSeeF || pc == WExit }

  predicate IsAt(s: State, w: WorkerId, pc: WorkerPc) { w in s.workers && s.workers[w] == pc }

  lemma WorkerChecks(s: State, w: WorkerId, pc: WorkerPc)
    requires WorkerReady(s, w) && Checking(pc) && WorkerCode(s.workers[w], s).1 == pc
    ensures SawZero(s, w, pc)
  {}

  lemma CheckStep(s: State, a: Action, w: WorkerId, pc: WorkerPc)
    requires Enabled(s, a) && Checking(pc) && IsAt(Do(s, a), w, pc) && !IsAt(s, w, pc)
    ensures SawZero(s, w, pc)
  {
    match a
    case WorkerStep(v) =>
      if v == w {
        WorkerChecks(s, w, pc);
      }
    case _ =>
  }

  lemma CheckFollows(s: State, s': State, w: WorkerId, pc: WorkerPc)
    requires Follows(s, s') && Checking(pc) && IsAt(s', w, pc) && !IsAt(s, w, pc)
    ensures SawZero(s, w, pc)
  {
    var a :| Enabled(s, a) && Do(s, a) == s';
    CheckStep(s, a, w, pc);
  }

  lemma {:induction false} CheckedSince(trace: seq<State>, i: nat, w: WorkerId, pc: WorkerPc) returns (j: nat)
    requires IsRun(trace) && i < |trace| && Checking(pc) && IsAt(trace[i], w, pc) && !IsAt(trace[0], w, pc)
    ensures j < i && SawZero(trace[j], w, pc)
  {
    j := i - 1;
    if IsAt(trace[j], w, pc) {
      j := CheckedSince(trace, j, w, pc);
    } else {
      CheckFollows(trace[j], trace[i], w, pc);
    }
  }

  /** A worker returns only after it has read publishers, then depth, then inFlight as zero. */
  lemma ReturnsAfterZeros(trace: seq<State>, n: int, buf: int, i: nat, w: WorkerId)
    requires IsRun(trace) && trace[0] == New(n, buf) && i < |trace| && IsAt(trace[i], w, WExit)
    ensures exists j: nat, k: nat, l: nat ::
      j < k < l < i && SawZero(trace[j], w, WSeeD) && SawZero(trace[k], w, WSeeF) && SawZero(trace[l], w, WExit)
  {
    var l := CheckedSince(trace, i, w, WExit);
    var k := CheckedSince(trace, l, w, WSeeF);
    var j := CheckedSince(trace, k, w, WSeeD);
  }

  // ----- Pooled tasks

  /** A task object is on its way into the free pool, or in it. */
  ghost predicate Discarded(s: State, t: TaskId) {
    || t in s.free
    || (exists w :: w in s.workers && s.workers[w].WPut? && s.workers[w].t == t)
    || (exists p :: p in s.pubs && s.pubs[p].pc == PUndoPut(t))
  }

  /** Nothing of a message is left in a task object that is put back. */
  ghost predicate Clean(s: State) {
    forall t :: Discarded(s, t) ==> Message(s, t) == None
  }

  lemma PubDiscards(s: State, p: PubId, t: TaskId)
    requires PubReady(s, p) && Discarded(DoPub(s, p), t)
    ensures Discarded(s, t) || s.pubs[p].pc == PUndoTask(t)
  {
    var s' := DoPub(s, p);
    if w :| w in s'.workers && s'.workers[w].WPut? && s'.workers[w].t == t {
      assert s.workers[w] == s'.workers[w];
    }
  }

  /** Who owns a discarded object. */
  lemma DiscardedOwner(s: State, t: TaskId)
    requires OwnersOk(s) && Discarded(s, t)
    ensures t in s.owner
    ensures s.owner[t].ByPub? ==> s.owner[t].p in s.pubs && s.pubs[s.owner[t].p].pc == PUndoPut(t)
  {
    if t in s.free {
      assert At(s, t, InPool);
    } else if w :| w in s.workers && s.workers[w].WPut? && s.workers[w].t == t {
      assert At(s, t, ByWorker(w));
    } else {
      var p :| p in s.pubs && s.pubs[p].pc == PUndoPut(t);
      assert At(s, t, ByPub(p));
    }
  }

  lemma CleanPub(s: State, p: PubId)
    requires OwnersOk(s) && Clean(s) && PubReady(s, p)
    ensures Clean(DoPub(s, p))
  {
    var s', pc := DoPub(s, p), s.pubs[p].pc;
    forall t | Discarded(s', t) ensures Message(s', t) == None {
      PubDiscards(s, p, t);
      if pc != PUndoTask(t) {
        DiscardedOwner(s, t);
        assert pc.PFill? ==> At(s, pc.t, ByPub(p));
      }
    }
  }

  lemma WorkerDiscards(s: State, w: WorkerId, t: TaskId)
    requires WorkerReady(s, w) && Discarded(DoWorker(s, w), t)
    ensures Discarded(s, t) || (s.workers[w].WReset? && s.workers[w].t == t)
  {
    var s' := DoWorker(s, w);
    if v :| v in s'.workers && s'.workers[v].WPut? && s'.workers[v].t == t {
      assert v != w ==> s.workers[v] == s'.workers[v];
    }
  }

  lemma CleanWorker(s: State, w: WorkerId)
    requires Clean(s) && WorkerReady(s, w)
    ensures Clean(DoWorker(s, w))
  {
    forall t | Discarded(DoWorker(s, w), t) ensures Message(DoWorker(s, w), t) == None {
      WorkerDiscards(s, w, t);
    }
  }

  lemma OthersDiscard(s: State, a: Action, t: TaskId)
    requires Enabled(s, a) && !a.PubStep? && !a.WorkerStep? && Discarded(Do(s, a), t)
    ensures Discarded(s, t) && (Message(Do(s, a), t) == Message(s, t) || Message(Do(s, a), t) == None)
  {
    var s' := Do(s, a);
    if v :| v in s'.workers && s'.workers[v].WPut? && s'.workers[v].t == t {
      assert v in s.workers && s.workers[v] == s'.workers[v];
    }
    if p :| p in s'.pubs && s'.pubs[p].pc == PUndoPut(t) {
      assert p in s.pubs && s.pubs[p].pc == s'.pubs[p].pc;
    }
  }

  lemma CleanKept(s: State, a: Action)
    requires OwnersOk(s) && Clean(s) && Enabled(s, a)
    ensures Clean(Do(s, a))
  {
    if a.PubStep? {
      CleanPub(s, a.p);
    } else if a.WorkerStep? {
      CleanWorker(s, a.w);
    } else {
      forall t | Discarded(Do(s, a), t) ensures Message(Do(s, a), t) == None {
        OthersDiscard(s, a, t);
      }
    }
  }

  lemma CleanFollows(s: State, s': State)
    requires Follows(s, s') && OwnersOk(s) && Clean(s)
    ensures Clean(s')
  {
    var a :| Enabled(s, a) && Do(s, a) == s';
    CleanKept(s, a);
  }

  /** The free pool keeps no message alive: a task object put back has been reset, on every path. */
  lemma {:induction false} PooledTasksAreClean(trace: seq<State>, n: int, buf: int, i: nat)
    requires IsRun(trace) && trace[0] == New(n, buf) && i < |trace|
    ensures Clean(trace[i])
  {
    if i > 0 {
      PooledTasksAreClean(trace, n, buf, i - 1);
      InvOnRuns(trace, n, buf, i - 1);
      CleanFollows(trace[i - 1], trace[i]);
    }
  }

  // ----- Size

  lemma SizeStep(s: State, a: Action)
    requires Enabled(s, a)
    ensures Do(s, a).workers.Keys == s.workers.Keys && Do(s, a).cap == s.cap
  {}

  lemma SizeFollows(s: State, s': State)
    requires Follows(s, s')
    ensures s'.workers.Keys == s.workers.Keys && s'.cap == s.cap
  {
    var a :| Enabled(s, a) && Do(s, a) == s';
    SizeStep(s, a);
  }

  lemma SameKeys(m: map<WorkerId, WorkerPc>, k: map<WorkerId, WorkerPc>)
    requires m.Keys == k.Keys
    ensures |m| == |k|
  {
    assert |m.Keys| == |m| && |k.Keys| == |k|;
  }

  /** A pool has as many workers and as large a buffer as asked for, at least one and none, for good. */
  lemma {:induction false} SizeIsFixed(trace: seq<State>, n: int, buf: int, i: nat)
    requires IsRun(trace) && trace[0] == New(n, buf) && i < |trace|
    ensures |trace[i].workers| == if n < 1 then 1 else n
    ensures trace[i].cap == if buf < 0 then 0 else buf
  {
    if i > 0 {
      SizeIsFixed(trace, n, buf, i - 1);
      SizeFollows(trace[i - 1], trace[i]);
      SameKeys(trace[i].workers, trace[i - 1].workers);
    }
  }
}
