/** What every action of the worker pool keeps. */
module PoolInvariants {
  import opened Basics
  import opened PoolModel
  import opened Totals

  // ----- Regions of the program counters

  /** publishers counts these: from the first increment to the deferred decrement. */
  function Counted(p: Pub): nat {
    match p.pc
    case PLeaveSignal(_, _) => 0
    case PDone(_) => 0
    case _ => 1
  }

  /** depth counts these publishers: incremented, not yet sent or rolled back. */
  function Pending(p: Pub): nat {
    if p.pc.PSend? || p.pc.PUndoDepth? then 1 else 0
  }

  /** depth counts these workers: received, not yet decremented. */
  function Holding(pc: WorkerPc): nat {
    if pc.WTakeUnlock? || pc.WDepth? then 1 else 0
  }

  /** inFlight counts these workers. */
  function Flying(pc: WorkerPc): nat {
    if pc.WStartSignal? || pc.WCall? || pc.WHandling? || pc.WReset? || pc.WPut? || pc.WLand? then 1 else 0
  }

  function PubTask(pc: PubPc): (r: Option<TaskId>) {
    match pc
    case PFill(t) => Some(t)
    case PInc(t) => Some(t)
    case PSend(t) => Some(t)
    case PUndoDepth(t) => Some(t)
    case PUndoTask(t) => Some(t)
    case PUndoPut(t) => Some(t)
    case _ => None
  }

  function WorkerTask(pc: WorkerPc): (r: Option<TaskId>) {
    match pc
    case WTakeUnlock(t) => Some(t)
    case WDepth(t, _) => Some(t)
    case WFlight(t, _) => Some(t)
    case WStartSignal(_, t, _) => Some(t)
    case WCall(t, _) => Some(t)
    case WHandling(t, _) => Some(t)
    case WReset(t, _) => Some(t)
    case WPut(t, _) => Some(t)
    case _ => None
  }

  /** The worker holds a task whose handler has not been called. */
  predicate BeforeCall(pc: WorkerPc) {
    pc.WTakeUnlock? || pc.WDepth? || pc.WFlight? || pc.WStartSignal? || pc.WCall?
  }

  predicate Filled(pc: PubPc) {
    pc.PInc? || pc.PSend? || pc.PUndoDepth?
  }

  /** The send of this call succeeded. */
  predicate Sent(pc: PubPc) {
    pc.PSentSignal? || (pc.PLeave? && pc.ok) || (pc.PLeaveSignal? && pc.ok) || (pc.PDone? && pc.ok)
  }

  /** Past the gate and still able to send. */
  predicate Live(pc: PubPc) {
    pc == PGet || pc.PFill? || pc.PInc? || pc.PSend?
  }

  predicate PubHolds(pc: PubPc) {
    (pc.PSentSignal? || pc.PLeaveSignal?) && pc.ph != ToLock
  }

  predicate WorkerHolds(pc: WorkerPc) {
    match pc
    case WTakeUnlock(_) => true
    case WStartSignal(ph, _, _) => ph != ToLock
    case WEndSignal(ph, _) => ph != ToLock
    case WLoopP => true case WLoopD => true case WLoopF => true
    case WTryTake => true
    case WWaitP => true case WWaitD => true case WWaitF => true
    case WPark => true
    case WUnlock => true
    case _ => false
  }

  predicate StopHolds(pc: StopPc) {
    pc.SSignal? && pc.ph != ToLock
  }

  // ----- The invariants

  /** The three counters count exactly their regions. */
  ghost predicate CountersOk(s: State) {
    && s.publishers == Total(s.pubs, Counted)
    && s.depth == |s.queue| + Total(s.pubs, Pending) + Total(s.workers, Holding)
    && s.inFlight == Total(s.workers, Flying)
    && |s.queue| <= s.cap
  }

  /** The lock is held by exactly the thread whose program counter says so. */
  ghost predicate LockOk(s: State) {
    && (forall p :: p in s.pubs ==> (PubHolds(s.pubs[p].pc) <==> s.mu == Some(PubThread(p))))
    && (forall w :: w in s.workers ==> (WorkerHolds(s.workers[w]) <==> s.mu == Some(WorkerThread(w))))
    && (StopHolds(s.stop) <==> s.mu == Some(StopThread))
    && (s.mu.Some? && s.mu.value.PubThread? ==> s.mu.value.p in s.pubs)
    && (s.mu.Some? && s.mu.value.WorkerThread? ==> s.mu.value.w in s.workers)
  }

  /** Task object `t` is in place `o`. */
  ghost predicate At(s: State, t: TaskId, o: Owner) {
    match o
    case InPool => t in s.free
    case InQueue => t in s.queue
    case ByPub(p) => p in s.pubs && PubTask(s.pubs[p].pc) == Some(t)
    case ByWorker(w) => w in s.workers && WorkerTask(s.workers[w]) == Some(t)
  }

  /** Every task object is in exactly one place, and once if that is the queue. */
  ghost predicate OwnersOk(s: State) {
    && s.owner.Keys == s.heap.Keys
    && (forall t, o :: At(s, t, o) <==> t in s.owner && s.owner[t] == o)
    && Distinct(s.queue)
  }

  /** What became of message `p`: not sent, in a queued task, in a worker's hands, or its handler was called. */
  ghost predicate Became(s: State, p: PubId, f: Fate) {
    match f
    case NotSent => p in s.pubs && !Sent(s.pubs[p].pc)
    case Queued(t) => t in s.queue && Message(s, t) == Some(p)
    case Taken(w) => w in s.workers && BeforeCall(s.workers[w]) && Message(s, s.workers[w].t) == Some(p)
    case Ran => p in s.ran
  }

  /** Every message has exactly one fate, no handler is called twice for a message, and tasks
      on their way to a handler carry the message of the call that filled them. */
  ghost predicate FatesOk(s: State) {
    && s.fate.Keys == s.pubs.Keys
    && (forall p, f :: Became(s, p, f) <==> p in s.fate && s.fate[p] == f)
    && Distinct(s.ran)
    && (forall t :: t in s.queue ==> Message(s, t).Some?)
    && (forall w :: w in s.workers && BeforeCall(s.workers[w]) ==> Message(s, s.workers[w].t).Some?)
    && (forall p :: p in s.pubs && Filled(s.pubs[p].pc) ==> Message(s, s.pubs[p].pc.t) == Some(p))
  }

  ghost predicate NoLivePublisher(s: State) {
    forall p :: p in s.pubs ==> !Live(s.pubs[p].pc)
  }

  predicate Draining?(pc: WorkerPc) {
    match pc
    case WLoop => false
    case WDepth(_, from) => from != FromLoop
    case WFlight(_, from) => from != FromLoop
    case WStartSignal(_, _, from) => from != FromLoop
    case WCall(_, from) => from != FromLoop
    case WHandling(_, from) => from != FromLoop
    case WReset(_, from) => from != FromLoop
    case WPut(_, from) => from != FromLoop
    case WLand(from) => from != FromLoop
    case WEndSignal(_, from) => from != FromLoop
    case _ => true
  }

  /** The pool leaves Running before it is cancelled, and stops only after all workers returned. */
  ghost predicate PhaseOk(s: State) {
    && s.workers != map[]
    && (s.stop == SIdle <==> s.st == Running)
    && (s.stop == SIdle || s.stop == SCancel || s.cancelled)
    && (s.stop == SStore || s.stop == SClose || s.stop == SDone ==> AllReturned(s))
    && (s.stop == SClose || s.stop == SDone <==> s.st == Stopped)
    && (!s.earlyCancel && s.cancelled ==> s.st != Running)
    && (forall w :: w in s.workers && Draining?(s.workers[w]) ==> s.cancelled)
  }

  ghost predicate AllReturned(s: State) {
    forall w :: w in s.workers ==> s.workers[w] == WExit
  }

  /** The order of the loads before a worker returns: once it has seen no publishers nobody can
      send any more, and once it has then seen depth zero the queue stays empty. */
  ghost predicate DrainOk(s: State) {
    !s.earlyCancel ==>
      && ((exists w :: w in s.workers && SawNoPublishers(s.workers[w])) ==> NoLivePublisher(s))
      && ((exists w :: w in s.workers && SawNoDepth(s.workers[w])) ==> s.queue == [])
  }

  predicate SawNoPublishers(pc: WorkerPc) { pc == WSeeD || pc == WSeeF || pc == WExit }

  predicate SawNoDepth(pc: WorkerPc) { pc == WSeeF || pc == WExit }

  // ----- Who still has a broadcast to make

  predicate PubWillSignal(pc: PubPc) {
    !pc.PDone? && !(pc.PLeaveSignal? && pc.ph == ToUnlock)
  }

  predicate WorkerWillSignal(pc: WorkerPc) {
    || WorkerTask(pc).Some?
    || pc.WLand?
    || (pc.WEndSignal? && pc.ph != ToUnlock)
  }

  predicate StopWillSignal(pc: StopPc) {
    pc == SCancel || (pc.SSignal? && pc.ph != ToUnlock)
  }

  ghost predicate SignalToCome(s: State) {
    || (exists p :: p in s.pubs && PubWillSignal(s.pubs[p].pc))
    || (exists w :: w in s.workers && WorkerWillSignal(s.workers[w]))
    || StopWillSignal(s.stop)
  }

  predicate Sleeping(pc: WorkerPc) { pc == WPark || pc == WAsleep }

  predicate Waiting(pc: WorkerPc) { pc == WWaitP || pc == WWaitD || pc == WWaitF }

  /** No lost wake-up: a worker that sleeps or is about to has a broadcast to come. */
  ghost predicate SleepOk(s: State) {
    (exists w :: w in s.workers && Sleeping(s.workers[w])) ==> SignalToCome(s)
  }

  /** A task that arrives after a worker found the queue empty comes with a publisher still to signal. */
  ghost predicate ArrivalOk(s: State) {
    (exists w :: w in s.workers && Waiting(s.workers[w])) && s.queue != [] ==> SenderAtLock(s)
  }

  ghost predicate SenderAtLock(s: State) {
    exists p :: p in s.pubs && s.pubs[p].pc == PSentSignal(ToLock)
  }

  ghost predicate Inv(s: State) {
    CountersOk(s) && LockOk(s) && OwnersOk(s) && FatesOk(s) && PhaseOk(s) && DrainOk(s) && SleepOk(s) && ArrivalOk(s)
  }
}
