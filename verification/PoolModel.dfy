/** The worker pool of workerpool/workerpool.go as a transition system.

    There is one action per atomic load, add or compare-and-swap, per channel
    operation, per lock operation and per use of a pooled task.  Any number of
    publishers may be inside `tryPublish`; the workers are the goroutines
    started by `Consume`; one more thread is the caller of `GracefulStop` that
    wins the compare-and-swap.  Go's atomics are sequentially consistent, so
    runs are interleavings of actions. */
module PoolModel {
  import opened Basics

  type PubId = nat     // one call of tryPublish, and the message it carries
  type WorkerId = nat
  type TaskId = nat    // identity of a pooled *task object

  datatype PoolState = Running | Draining | Stopped

  /** Where a thread stands inside signalDrain. */
  datatype Phase = ToLock | ToBroadcast | ToUnlock

  /** Which receive a worker's current task came from. */
  datatype Origin = FromLoop | FromTop | FromWait

  /** Program counter of tryPublish. */
  datatype PubPc =
    | PGate                               // publishers incremented, state not loaded yet
    | PGet                                // past the gate
    | PFill(t: TaskId)                    // owns t, fields not set
    | PInc(t: TaskId)                     // about to increment depth
    | PSend(t: TaskId)                    // at the channel select
    | PUndoDepth(t: TaskId)               // rollback
    | PUndoTask(t: TaskId)
    | PUndoPut(t: TaskId)
    | PSentSignal(ph: Phase)              // sent; signalDrain
    | PLeave(ok: bool)                    // deferred publishers.Add(-1)
    | PLeaveSignal(ph: Phase, ok: bool)   // deferred signalDrain
    | PDone(ok: bool)                     // returned (accepted?)

  datatype Pub = Pub(pc: PubPc, blocking: bool)

  /** Program counter of runner, drain and process. */
  datatype WorkerPc =
    | WLoop                                           // select in runner
    | WTakeUnlock(t: TaskId)                          // received under the lock
    | WDepth(t: TaskId, from: Origin)                 // process: depth.Add(-1)
    | WFlight(t: TaskId, from: Origin)                // inFlight.Add(1)
    | WStartSignal(ph: Phase, t: TaskId, from: Origin)
    | WCall(t: TaskId, from: Origin)                  // about to run the handler
    | WHandling(t: TaskId, from: Origin)              // handler running
    | WReset(t: TaskId, from: Origin)
    | WPut(t: TaskId, from: Origin)
    | WLand(from: Origin)                             // inFlight.Add(-1)
    | WEndSignal(ph: Phase, from: Origin)
    | WTop                                            // drain: receive or default
    | WSeeP | WSeeD | WSeeF                           // the three loads before return
    | WLock
    | WLoopP | WLoopD | WLoopF                        // loop condition, lock held
    | WTryTake                                        // receive or default, lock held
    | WWaitP | WWaitD | WWaitF                        // the three loads before Wait
    | WPark                                           // cond.Wait entered, lock held
    | WAsleep
    | WUnlock
    | WExit

  /** Program counter of the GracefulStop call that wins the compare-and-swap. */
  datatype StopPc = SIdle | SCancel | SSignal(ph: Phase) | SWait | SStore | SClose | SDone

  datatype Thread = PubThread(p: PubId) | WorkerThread(w: WorkerId) | StopThread

  /** Bookkeeping that no action reads: who owns a task object, and what became of a message. */
  datatype Owner = InPool | ByPub(p: PubId) | InQueue | ByWorker(w: WorkerId)
  datatype Fate = NotSent | Queued(t: TaskId) | Taken(w: WorkerId) | Ran

  datatype State = State(
    cap: nat,
    st: PoolState,
    cancelled: bool,
    depth: int,
    inFlight: int,
    publishers: int,
    queue: seq<TaskId>,                 // the channel buffer
    mu: Option<Thread>,
    pubs: map<PubId, Pub>,
    workers: map<WorkerId, WorkerPc>,
    stop: StopPc,
    heap: map<TaskId, Option<PubId>>,   // task contents; None after a reset
    free: set<TaskId>,                  // sync.Pool
    owner: map<TaskId, Owner>,
    fate: map<PubId, Fate>,
    ran: seq<PubId>,                    // handler invocations, in order
    earlyCancel: bool)                  // the parent context was cancelled while Running

  datatype Action =
    | Begin(p: PubId, blocking: bool)   // a new tryPublish call
    | PubGet(p: PubId, t: TaskId)       // sync.Pool.Get: a pooled object or a new one
    | PubStep(p: PubId)
    | PubGiveUp(p: PubId)               // default / ctx.Done / pool ctx.Done branch of the select
    | WorkerTake(w: WorkerId)           // receive from the buffer
    | WorkerStep(w: WorkerId)
    | Handoff(p: PubId, w: WorkerId)    // unbuffered channel: send meets receive
    | StopStep
    | ParentCancel
    | PoolDrop(t: TaskId)               // sync.Pool may discard objects at any time

  // ----- New and Consume

  /** The goroutines started by Consume, all at their select. */
  function Workers(n: nat): (r: map<WorkerId, WorkerPc>)
    ensures |r| == n
    ensures forall w: nat :: w in r <==> w < n
    ensures forall w :: w in r ==> r[w] == WLoop
  {
    if n == 0 then map[] else
      var r := Workers(n - 1);
      assert r[n - 1 := WLoop].Keys == r.Keys + {n - 1};
      r[n - 1 := WLoop]
  }

  /** A pool just built and started; undersized arguments are raised as New does. */
  function New(workerPoolLen: int, messageBufLen: int): State {
    State(
      cap := if messageBufLen < 0 then 0 else messageBufLen,
      st := Running, cancelled := false, depth := 0, inFlight := 0, publishers := 0,
      queue := [], mu := None, pubs := map[],
      workers := Workers(if workerPoolLen < 1 then 1 else workerPoolLen),
      stop := SIdle, heap := map[], free := {}, owner := map[], fate := map[], ran := [], earlyCancel := false)
  }

  // ----- Instructions

  /** What one instruction does to the shared state. */
  datatype Effect =
    | Nothing
    | AddPublishers(d: int) | AddDepth(d: int) | AddInFlight(d: int)
    | Acquire | Release                  // mu
    | Broadcast                          // cond.Broadcast
    | Fill(t: TaskId) | Clear(t: TaskId) // set or reset the fields of a task
    | Put(t: TaskId)                     // sync.Pool.Put
    | Enqueue(t: TaskId)                 // buffered send
    | Call(t: TaskId)                    // invoke the handler on the task's message
    | Store(st: PoolState) | Cancel

  /** Broadcast moves every sleeper on to re-acquiring the lock. */
  function Woken(workers: map<WorkerId, WorkerPc>): (r: map<WorkerId, WorkerPc>) {
    map w | w in workers :: if workers[w] == WAsleep then WLock else workers[w]
  }

  function Message(s: State, t: TaskId): Option<PubId> {
    if t in s.heap then s.heap[t] else None
  }

  function Apply(s: State, self: Thread, e: Effect): State {
    s.(publishers := s.publishers + (if e.AddPublishers? then e.d else 0),
       depth := s.depth + (if e.AddDepth? then e.d else 0),
       inFlight := s.inFlight + (if e.AddInFlight? then e.d else 0),
       mu := if e.Acquire? then Some(self) else if e.Release? then None else s.mu,
       workers := if e.Broadcast? then Woken(s.workers) else s.workers,
       heap := if e.Fill? && self.PubThread? then s.heap[e.t := Some(self.p)]
               else if e.Clear? then s.heap[e.t := None] else s.heap,
       free := if e.Put? then s.free + {e.t} else s.free,
       queue := if e.Enqueue? then s.queue + [e.t] else s.queue,
       owner := if e.Put? then s.owner[e.t := InPool]
                else if e.Enqueue? then s.owner[e.t := InQueue] else s.owner,
       fate := if e.Enqueue? && self.PubThread? then s.fate[self.p := Queued(e.t)]
               else if e.Call? && Message(s, e.t).Some? then s.fate[Message(s, e.t).value := Ran] else s.fate,
       ran := if e.Call? && Message(s, e.t).Some? then s.ran + [Message(s, e.t).value] else s.ran,
       st := if e.Store? then e.st else s.st,
       cancelled := s.cancelled || e.Cancel?)
  }

  // ----- tryPublish

  /** The instruction of a publisher and the next program counter. */
  function PubCode(pc: PubPc, s: State): (r: (Effect, PubPc)) {
    match pc
    case PGate => (Nothing, if s.st == Running then PGet else PLeave(false))
    case PFill(t) => (Fill(t), PInc(t))
    case PInc(t) => (AddDepth(1), PSend(t))
    case PSend(t) => (Enqueue(t), PSentSignal(ToLock))
    case PUndoDepth(t) => (AddDepth(-1), PUndoTask(t))
    case PUndoTask(t) => (Clear(t), PUndoPut(t))
    case PUndoPut(t) => (Put(t), PLeave(false))
    case PSentSignal(ToLock) => (Acquire, PSentSignal(ToBroadcast))
    case PSentSignal(ToBroadcast) => (Broadcast, PSentSignal(ToUnlock))
    case PSentSignal(ToUnlock) => (Release, PLeave(true))
    case PLeave(ok) => (AddPublishers(-1), PLeaveSignal(ToLock, ok))
    case PLeaveSignal(ToLock, ok) => (Acquire, PLeaveSignal(ToBroadcast, ok))
    case PLeaveSignal(ToBroadcast, ok) => (Broadcast, PLeaveSignal(ToUnlock, ok))
    case PLeaveSignal(ToUnlock, ok) => (Release, PDone(ok))
    case PGet => (Nothing, PGet)           // acts through PubGet only
    case PDone(ok) => (Nothing, PDone(ok))
  }

  predicate PubReady(s: State, p: PubId) {
    && p in s.pubs
    && s.pubs[p].pc != PGet && !s.pubs[p].pc.PDone?
    && (s.pubs[p].pc.PSend? ==> |s.queue| < s.cap)
    && (PubCode(s.pubs[p].pc, s).0 == Acquire ==> s.mu == None)
  }

  function SetPub(s: State, p: PubId, pc: PubPc): State
    requires p in s.pubs
  {
    s.(pubs := s.pubs[p := s.pubs[p].(pc := pc)])
  }

  function DoPub(s: State, p: PubId): State
    requires PubReady(s, p)
  {
    var (e, pc) := PubCode(s.pubs[p].pc, s);
    SetPub(Apply(s, PubThread(p), e), p, pc)
  }

  function DoGet(s: State, p: PubId, t: TaskId): State
    requires p in s.pubs
  {
    SetPub(s.(heap := if t in s.heap then s.heap else s.heap[t := None],
              free := s.free - {t}, owner := s.owner[t := ByPub(p)]),
           p, PFill(t))
  }

  // ----- runner, drain and process

  /** Where a receive of `t` leads from each of the three receive points. */
  function Receives(pc: WorkerPc, t: TaskId): (r: Option<WorkerPc>) {
    match pc
    case WLoop => Some(WDepth(t, FromLoop))
    case WTop => Some(WDepth(t, FromTop))
    case WTryTake => Some(WTakeUnlock(t))
    case _ => None
  }

  function Resume(from: Origin): WorkerPc {
    match from
    case FromLoop => WLoop
    case FromTop => WTop
    case FromWait => WLock
  }

  /** The instruction of a worker and the next program counter. */
  function WorkerCode(pc: WorkerPc, s: State): (r: (Effect, WorkerPc)) {
    match pc
    case WLoop => (Nothing, WTop)
    case WTakeUnlock(t) => (Release, WDepth(t, FromWait))
    case WDepth(t, from) => (AddDepth(-1), WFlight(t, from))
    case WFlight(t, from) => (AddInFlight(1), WStartSignal(ToLock, t, from))
    case WStartSignal(ToLock, t, from) => (Acquire, WStartSignal(ToBroadcast, t, from))
    case WStartSignal(ToBroadcast, t, from) => (Broadcast, WStartSignal(ToUnlock, t, from))
    case WStartSignal(ToUnlock, t, from) => (Release, WCall(t, from))
    case WCall(t, from) => (Call(t), WHandling(t, from))
    case WHandling(t, from) => (Nothing, WReset(t, from))
    case WReset(t, from) => (Clear(t), WPut(t, from))
    case WPut(t, from) => (Put(t), WLand(from))
    case WLand(from) => (AddInFlight(-1), WEndSignal(ToLock, from))
    case WEndSignal(ToLock, from) => (Acquire, WEndSignal(ToBroadcast, from))
    case WEndSignal(ToBroadcast, from) => (Broadcast, WEndSignal(ToUnlock, from))
    case WEndSignal(ToUnlock, from) => (Release, Resume(from))
    case WTop => (Nothing, WSeeP)
    case WSeeP => (Nothing, if s.publishers == 0 then WSeeD else WLock)
    case WSeeD => (Nothing, if s.depth == 0 then WSeeF else WLock)
    case WSeeF => (Nothing, if s.inFlight == 0 then WExit else WLock)
    case WLock => (Acquire, WLoopP)
    case WLoopP => (Nothing, if s.publishers == 0 then WLoopD else WTryTake)
    case WLoopD => (Nothing, if s.depth == 0 then WLoopF else WTryTake)
    case WLoopF => (Nothing, if s.inFlight == 0 then WUnlock else WTryTake)
    case WTryTake => (Nothing, WWaitP)
    case WWaitP => (Nothing, if s.publishers == 0 then WWaitD else WPark)
    case WWaitD => (Nothing, if s.depth == 0 then WWaitF else WPark)
    case WWaitF => (Nothing, if s.inFlight == 0 then WUnlock else WPark)
    case WPark => (Release, WAsleep)
    case WUnlock => (Release, WTop)
    case WAsleep => (Nothing, WAsleep)
    case WExit => (Nothing, WExit)
  }

  predicate WorkerReady(s: State, w: WorkerId) {
    && w in s.workers
    && s.workers[w] != WAsleep && s.workers[w] != WExit
    && (s.workers[w] == WLoop ==> s.cancelled)
    && (s.workers[w] == WTop || s.workers[w] == WTryTake ==> s.queue == [])
    && (WorkerCode(s.workers[w], s).0 == Acquire ==> s.mu == None)
  }

  function SetWorker(s: State, w: WorkerId, pc: WorkerPc): State {
    s.(workers := s.workers[w := pc])
  }

  function DoWorker(s: State, w: WorkerId): State
    requires WorkerReady(s, w)
  {
    var (e, pc) := WorkerCode(s.workers[w], s);
    SetWorker(Apply(s, WorkerThread(w), e), w, pc)
  }

  predicate TakeReady(s: State, w: WorkerId) {
    w in s.workers && s.queue != [] && Receives(s.workers[w], s.queue[0]).Some?
  }

  function DoTake(s: State, w: WorkerId): State
    requires TakeReady(s, w)
  {
    var t := s.queue[0];
    var m := Message(s, t);
    SetWorker(s.(queue := s.queue[1..], owner := s.owner[t := ByWorker(w)],
                 fate := if m.Some? then s.fate[m.value := Taken(w)] else s.fate),
              w, Receives(s.workers[w], t).value)
  }

  /** An unbuffered send completes only together with a receive, one of the two being a waiting one. */
  predicate HandoffReady(s: State, p: PubId, w: WorkerId) {
    && s.cap == 0
    && p in s.pubs && s.pubs[p].pc.PSend?
    && w in s.workers && Receives(s.workers[w], s.pubs[p].pc.t).Some?
    && (s.pubs[p].blocking || s.workers[w] == WLoop)
  }

  function DoHandoff(s: State, p: PubId, w: WorkerId): State
    requires HandoffReady(s, p, w)
  {
    var t := s.pubs[p].pc.t;
    SetWorker(SetPub(s.(owner := s.owner[t := ByWorker(w)], fate := s.fate[p := Taken(w)]), p, PSentSignal(ToLock)),
              w, Receives(s.workers[w], t).value)
  }

  // ----- GracefulStop

  function StopCode(pc: StopPc): (r: (Effect, StopPc)) {
    match pc
    case SIdle => (Store(Draining), SCancel)
    case SCancel => (Cancel, SSignal(ToLock))
    case SSignal(ToLock) => (Acquire, SSignal(ToBroadcast))
    case SSignal(ToBroadcast) => (Broadcast, SSignal(ToUnlock))
    case SSignal(ToUnlock) => (Release, SWait)
    case SWait => (Nothing, SStore)
    case SStore => (Store(Stopped), SClose)
    case SClose => (Nothing, SDone)
    case SDone => (Nothing, SDone)
  }

  predicate StopReady(s: State) {
    && s.stop != SDone
    && (s.stop == SIdle ==> s.st == Running)
    && (s.stop == SSignal(ToLock) ==> s.mu == None)
    && (s.stop == SWait ==> forall w :: w in s.workers ==> s.workers[w] == WExit)
  }

  function DoStop(s: State): State
    requires StopReady(s)
  {
    var (e, pc) := StopCode(s.stop);
    Apply(s, StopThread, e).(stop := pc)
  }

  // ----- All actions

  predicate Enabled(s: State, a: Action) {
    match a
    case Begin(p, _) => p !in s.pubs
    case PubGet(p, t) => p in s.pubs && s.pubs[p].pc == PGet && (t in s.free || t !in s.heap)
    case PubStep(p) => PubReady(s, p)
    case PubGiveUp(p) =>
      p in s.pubs && s.pubs[p].pc.PSend? && (s.pubs[p].blocking || |s.queue| >= s.cap)
    case WorkerTake(w) => TakeReady(s, w)
    case WorkerStep(w) => WorkerReady(s, w)
    case Handoff(p, w) => HandoffReady(s, p, w)
    case StopStep => StopReady(s)
    case ParentCancel => !s.cancelled
    case PoolDrop(t) => t in s.free
  }

  function DoBegin(s: State, p: PubId, blocking: bool): State {
    s.(publishers := s.publishers + 1, pubs := s.pubs[p := Pub(PGate, blocking)], fate := s.fate[p := NotSent])
  }

  function DoGiveUp(s: State, p: PubId): State
    requires p in s.pubs && s.pubs[p].pc.PSend?
  {
    SetPub(s, p, PUndoDepth(s.pubs[p].pc.t))
  }

  function DoParentCancel(s: State): State {
    s.(cancelled := true, earlyCancel := s.earlyCancel || s.st == Running)
  }

  function DoDrop(s: State, t: TaskId): State {
    s.(free := s.free - {t}, heap := s.heap - {t}, owner := s.owner - {t})
  }

  function Do(s: State, a: Action): State
    requires Enabled(s, a)
  {
    match a
    case Begin(p, blocking) => DoBegin(s, p, blocking)
    case PubGet(p, t) => DoGet(s, p, t)
    case PubStep(p) => DoPub(s, p)
    case PubGiveUp(p) => DoGiveUp(s, p)
    case WorkerTake(w) => DoTake(s, w)
    case WorkerStep(w) => DoWorker(s, w)
    case Handoff(p, w) => DoHandoff(s, p, w)
    case StopStep => DoStop(s)
    case ParentCancel => DoParentCancel(s)
    case PoolDrop(t) => DoDrop(s, t)
  }

  /** `trace` is a run: each state follows from the one before by an enabled action. */
  ghost predicate IsRun(trace: seq<State>) {
    && |trace| > 0
    && forall i :: 0 < i < |trace| ==> Follows(trace[i - 1], trace[i])
  }

  ghost predicate Follows(s: State, s': State) {
    exists a :: Enabled(s, a) && Do(s, a) == s'
  }

  /** Reachable from a pool built by `New` and started by `Consume`. */
  ghost predicate Reachable(s: State) {
    exists trace: seq<State>, n: int, buf: int ::
      IsRun(trace) && trace[0] == New(n, buf) && trace[|trace| - 1] == s
  }
}
