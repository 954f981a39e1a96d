/** Shutdown terminates under every scheduler: every action but a new publish call lowers a measure. */
module PoolTermination {
  import opened PoolModel
  import opened PoolSafety
  import opened PoolInvariants
  import opened PoolTheorems
  import opened Totals

  // ----- Work: actions that change counters, move tasks or broadcast

  const TASK := 15    // work a queued task still causes

  function SignalWork(ph: Phase): nat {
    match ph case ToLock => 2 case ToBroadcast => 1 case ToUnlock => 0
  }

  function PubWork(p: Pub): nat {
    match p.pc
    case PGate => TASK + 12
    case PGet => TASK + 11
    case PFill(_) => TASK + 10
    case PInc(_) => TASK + 9
    case PSend(_) => TASK + 8
    case PUndoDepth(_) => 7
    case PUndoTask(_) => 6
    case PUndoPut(_) => 5
    case PSentSignal(ph) => 5 + SignalWork(ph)
    case PLeave(_) => 4
    case PLeaveSignal(ph, _) => 1 + SignalWork(ph)
    case PDone(_) => 0
  }

  function WorkerWork(pc: WorkerPc): nat {
    match pc
    case WTakeUnlock(_) => 14
    case WDepth(_, _) => 13
    case WFlight(_, _) => 12
    case WStartSignal(ph, _, _) => 9 + SignalWork(ph)
    case WCall(_, _) => 8
    case WHandling(_, _) => 7
    case WReset(_, _) => 6
    case WPut(_, _) => 5
    case WLand(_) => 4
    case WEndSignal(ph, _) => 1 + SignalWork(ph)
    case _ => 0
  }

  function StopWork(pc: StopPc): nat {
    match pc
    case SIdle => 8
    case SCancel => 7
    case SSignal(ph) => 4 + SignalWork(ph)
    case SWait => 3
    case SStore => 2
    case SClose => 1
    case SDone => 0
  }

  ghost function Work(s: State): nat {
    Total(s.pubs, PubWork) + TASK * |s.queue| + Total(s.workers, WorkerWork) + StopWork(s.stop)
  }

  // ----- Idling: loads, lock and wait steps of a draining worker between two pieces of work

  /** Which counters are zero right now. */
  datatype Mode = Mode(p: bool, d: bool, f: bool)

  function ModeOf(s: State): Mode {
    Mode(s.publishers == 0, s.depth == 0, s.inFlight == 0)
  }

  const RANKS := 16

  /** How far an idling worker is from sleeping or returning, as long as the counters stay as they are.
      A worker whose earlier loads no longer agree with the counters (16, 15) passes the checks once more. */
  function Rank(m: Mode, pc: WorkerPc): nat {
    if m.p && m.d && m.f then
      match pc
      case WLock => 9
      case WLoopP => 8 case WLoopD => 7 case WLoopF => 6
      case WTryTake => 9
      case WWaitP => 8 case WWaitD => 7 case WWaitF => 6
      case WUnlock => 5
      case WLoop => 5
      case WTop => 4
      case WSeeP => 3 case WSeeD => 2 case WSeeF => 1
      case WPark => 1
      case _ => 0
    else
      match pc
      case WLoop => 14
      case WUnlock => 14
      case WTop => 13
      case WSeeP => 12 case WSeeD => 11 case WSeeF => 10
      case WLock => 9
      case WLoopP => 8
      case WLoopD => if m.d && m.f then 16 else 7
      case WLoopF => if m.f then 15 else 6
      case WTryTake => 5
      case WWaitP => 4
      case WWaitD => if m.d && m.f then 16 else 3
      case WWaitF => if m.f then 15 else 2
      case WPark => 1
      case _ => 0
  }

  function RankIn(m: Mode): WorkerPc -> nat {
    pc => Rank(m, pc)
  }

  ghost function Idling(s: State): nat {
    Total(s.workers, RankIn(ModeOf(s)))
  }

  /** Work, counted double so that returning a task to the free pool pays for its later eviction there,
      and the one cancellation of the parent context. */
  ghost function Load(s: State): nat {
    2 * Work(s) + |s.free| + if s.cancelled then 0 else 1
  }

  /** An upper bound on the number of actions that can still happen without a new publish call. */
  ghost function Remaining(s: State): nat {
    Lex(RANKS * |s.workers|, Load(s), Idling(s))
  }

  function Lex(k: nat, work: nat, idling: nat): nat {
    work * (k + 1) + idling
  }

  /** Actions of the pool's own threads and its callers' select branches; no arrivals. */
  predicate ByThreads(a: Action) {
    !a.Begin? && !a.ParentCancel? && !a.PoolDrop?
  }

  lemma IdlingBound(s: State)
    ensures Idling(s) <= RANKS * |s.workers|
  {
    TotalBound(s.workers, (pc: WorkerPc) => 0, s.workers, RankIn(ModeOf(s)), RANKS);
    TotalPositive(s.workers, (pc: WorkerPc) => 0);
  }

  lemma IdleStepRank(pc: WorkerPc, s: State)
    requires WorkerWork(pc) == 0 && pc != WAsleep && pc != WExit
    ensures var (e, q) := WorkerCode(pc, s);
      && (e == Nothing || e == Acquire || e == Release)
      && WorkerWork(q) == 0
      && Rank(ModeOf(s), q) < Rank(ModeOf(s), pc)
  {}

  /** A waiting or checking step changes no counter and brings the worker closer to rest. */
  lemma IdleStep(s: State, w: WorkerId)
    requires WorkerReady(s, w) && WorkerWork(s.workers[w]) == 0
    ensures Work(DoWorker(s, w)) == Work(s) && Idling(DoWorker(s, w)) < Idling(s)
    ensures DoWorker(s, w).free == s.free && DoWorker(s, w).cancelled == s.cancelled
  {
    var pc, s' := s.workers[w], DoWorker(s, w);
    IdleStepRank(pc, s);
    TotalUpdate(s.workers, WorkerWork, w, s'.workers[w]);
    TotalUpdate(s.workers, RankIn(ModeOf(s)), w, s'.workers[w]);
  }

  lemma BusyStepWork(pc: WorkerPc, s: State)
    requires WorkerWork(pc) > 0
    ensures WorkerWork(WorkerCode(pc, s).1) < WorkerWork(pc)
  {}

  lemma WokenWork(m: map<WorkerId, WorkerPc>)
    ensures Total(Woken(m), WorkerWork) == Total(m, WorkerWork)
  {
    TotalSame(m, Woken(m), WorkerWork);
  }

  lemma BusyStep(s: State, w: WorkerId)
    requires WorkerReady(s, w) && WorkerWork(s.workers[w]) > 0
    ensures Work(DoWorker(s, w)) < Work(s)
  {
    var pc, s' := s.workers[w], DoWorker(s, w);
    BusyStepWork(pc, s);
    WorkerTaskFacts(pc, s);
    WokenWork(s.workers);
    TotalUpdate(s.workers, WorkerWork, w, s'.workers[w]);
    TotalUpdate(Woken(s.workers), WorkerWork, w, s'.workers[w]);
  }

  lemma PubStepWork(p: Pub, s: State)
    requires p.pc != PGet && !p.pc.PDone?
    ensures var (e, q) := PubCode(p.pc, s);
      PubWork(p.(pc := q)) + (if e.Enqueue? then TASK else 0) < PubWork(p)
  {}

  lemma PublisherStep(s: State, p: PubId)
    requires PubReady(s, p)
    ensures Work(DoPub(s, p)) < Work(s)
  {
    var s' := DoPub(s, p);
    PubStepWork(s.pubs[p], s);
    PubCodeFacts(s.pubs[p].pc, s);
    WokenWork(s.workers);
    TotalUpdate(s.pubs, PubWork, p, s'.pubs[p]);
  }

  lemma TakeStep(s: State, w: WorkerId)
    requires TakeReady(s, w)
    ensures Work(DoTake(s, w)) < Work(s)
  {
    TotalUpdate(s.workers, WorkerWork, w, DoTake(s, w).workers[w]);
  }

  lemma HandoffStep(s: State, p: PubId, w: WorkerId)
    requires HandoffReady(s, p, w)
    ensures Work(DoHandoff(s, p, w)) < Work(s)
  {
    var s' := DoHandoff(s, p, w);
    TotalUpdate(s.pubs, PubWork, p, s'.pubs[p]);
    TotalUpdate(s.workers, WorkerWork, w, s'.workers[w]);
  }

  lemma StopperStep(s: State)
    requires StopReady(s)
    ensures Work(DoStop(s)) < Work(s)
  {
    WokenWork(s.workers);
  }

  lemma CallerStep(s: State, p: PubId, v: Pub)
    requires p in s.pubs && PubWork(v) < PubWork(s.pubs[p])
    ensures Total(s.pubs[p := v], PubWork) < Total(s.pubs, PubWork)
  {
    TotalUpdate(s.pubs, PubWork, p, v);
  }

  ghost predicate Idles(s: State, s': State) {
    Work(s') == Work(s) && s'.free == s.free && s'.cancelled == s.cancelled && Idling(s') < Idling(s)
  }

  lemma WorkOrIdle(s: State, a: Action)
    requires ByThreads(a) && Enabled(s, a)
    ensures Work(Do(s, a)) < Work(s) || Idles(s, Do(s, a))
  {
    match a
    case PubGet(p, t) => CallerStep(s, p, s.pubs[p].(pc := PFill(t)));
    case PubStep(p) => PublisherStep(s, p);
    case PubGiveUp(p) => CallerStep(s, p, s.pubs[p].(pc := PUndoDepth(s.pubs[p].pc.t)));
    case WorkerTake(w) => TakeStep(s, w);
    case WorkerStep(w) => if WorkerWork(s.workers[w]) > 0 { BusyStep(s, w); } else { IdleStep(s, w); }
    case Handoff(p, w) => HandoffStep(s, p, w);
    case StopStep => StopperStep(s);
  }

  lemma SameWorkers(s: State, a: Action)
    requires Enabled(s, a)
    ensures |Do(s, a).workers| == |s.workers|
  {
    WokenAt(s.workers);
    assert Do(s, a).workers.Keys == s.workers.Keys;
    assert |Do(s, a).workers| == |Do(s, a).workers.Keys| && |s.workers| == |s.workers.Keys|;
  }

  lemma Lexicographic(k: nat, w: nat, w': nat, i: nat, i': nat)
    requires i' <= k && (w' < w || (w' == w && i' < i))
    ensures Lex(k, w', i') < Lex(k, w, i)
  {
    if w' < w {
      assert (w' + 1) * (k + 1) <= w * (k + 1);
      assert (w' + 1) * (k + 1) == w' * (k + 1) + k + 1;
    }
  }

  /** One action puts at most one task into the free pool and never takes a cancellation back. */
  lemma FreeGrowsSlowly(s: State, a: Action)
    requires Enabled(s, a)
    ensures |Do(s, a).free| <= |s.free| + 1 && (s.cancelled ==> Do(s, a).cancelled)
  {
    assert Do(s, a).free <= s.free || exists t :: Do(s, a).free == s.free + {t};
    SubsetSize(Do(s, a).free, s.free);
  }

  lemma {:induction false} SubsetSize(a: set<nat>, b: set<nat>)
    ensures a <= b ==> |a| <= |b|
    decreases a
  {
    if a <= b && a != {} {
      var k :| k in a;
      SubsetSize(a - {k}, b - {k});
    }
  }

  lemma OutsideLowers(s: State, a: Action)
    requires (a.ParentCancel? || a.PoolDrop?) && Enabled(s, a)
    ensures Load(Do(s, a)) < Load(s)
  {
    if a.PoolDrop? {
      assert s.free == Do(s, a).free + {a.t};
    }
  }

  lemma LoadOrIdle(s: State, a: Action)
    requires !a.Begin? && Enabled(s, a)
    ensures Load(Do(s, a)) < Load(s) || (Load(Do(s, a)) == Load(s) && Idling(Do(s, a)) < Idling(s))
  {
    if a.ParentCancel? || a.PoolDrop? {
      OutsideLowers(s, a);
    } else {
      WorkOrIdle(s, a);
      FreeGrowsSlowly(s, a);
    }
  }

  /** Every action but a new publish call lowers the bound: steps of the pool's own threads, select
      branches of its callers, the parent's cancellation, evictions from the free pool. */
  lemma Lowers(s: State, a: Action)
    requires !a.Begin? && Enabled(s, a)
    ensures Remaining(Do(s, a)) < Remaining(s)
  {
    var s' := Do(s, a);
    LoadOrIdle(s, a);
    SameWorkers(s, a);
    IdlingBound(s');
    Lexicographic(RANKS * |s.workers|, Load(s), Load(s'), Idling(s), Idling(s'));
  }

  /** A run in which no publish call arrives. */
  ghost predicate IsQuietRun(trace: seq<State>) {
    && |trace| > 0
    && forall i :: 0 < i < |trace| ==> QuietStep(trace[i - 1], trace[i])
  }

  ghost predicate QuietStep(s: State, s': State) {
    exists a: Action :: !a.Begin? && Enabled(s, a) && Do(s, a) == s'
  }

  lemma {:induction false} QuietRunsAreBounded(trace: seq<State>, i: nat)
    requires IsQuietRun(trace) && i < |trace|
    ensures i + Remaining(trace[i]) <= Remaining(trace[0])
  {
    if i > 0 {
      QuietRunsAreBounded(trace, i - 1);
      assert QuietStep(trace[i - 1], trace[i]);
      var a: Action :| !a.Begin? && Enabled(trace[i - 1], a) && Do(trace[i - 1], a) == trace[i];
      Lowers(trace[i - 1], a);
    }
  }

  lemma StaysStopped(s: State, a: Action)
    requires s.stop != SIdle && Enabled(s, a)
    ensures Do(s, a).stop != SIdle
  {}

  lemma QuietStepStaysReachable(s: State, s': State)
    requires Reachable(s) && QuietStep(s, s')
    ensures Reachable(s') && (s.stop != SIdle ==> s'.stop != SIdle)
  {
    var a: Action :| !a.Begin? && Enabled(s, a) && Do(s, a) == s';
    ExtendRun(s, a);
    if s.stop != SIdle {
      StaysStopped(s, a);
    }
  }

  lemma {:induction false} QuietRunStaysReachable(trace: seq<State>, i: nat)
    requires IsQuietRun(trace) && Reachable(trace[0]) && i < |trace|
    ensures Reachable(trace[i]) && (trace[0].stop != SIdle ==> trace[i].stop != SIdle)
  {
    if i > 0 {
      QuietRunStaysReachable(trace, i - 1);
      QuietStepStaysReachable(trace[i - 1], trace[i]);
    }
  }

  lemma ExtendRun(s: State, a: Action)
    requires Reachable(s) && Enabled(s, a)
    ensures Reachable(Do(s, a))
  {
    var trace: seq<State>, n: int, buf: int :| IsRun(trace) && trace[0] == New(n, buf) && trace[|trace| - 1] == s;
    var longer := trace + [Do(s, a)];
    assert Follows(s, Do(s, a));
    forall i | 0 < i < |longer| ensures Follows(longer[i - 1], longer[i]) {
      if i < |trace| {
        assert Follows(trace[i - 1], trace[i]);
      }
    }
    assert IsRun(longer) && longer[0] == New(n, buf) && longer[|longer| - 1] == Do(s, a);
  }

  /** Shutdown completes: once GracefulStop has begun, if handlers return and no further publish call
      arrives, every scheduling, whenever the parent context ends and the free pool is evicted, is at most
      Remaining(start) actions long, and one that cannot be continued has GracefulStop returned. */
  lemma ShutdownCompletes(trace: seq<State>)
    requires IsQuietRun(trace) && Reachable(trace[0]) && trace[0].stop != SIdle
    ensures |trace| - 1 <= Remaining(trace[0])
    ensures !CanMove(trace[|trace| - 1]) ==> trace[|trace| - 1].stop == SDone
  {
    QuietRunsAreBounded(trace, |trace| - 1);
    QuietRunStaysReachable(trace, |trace| - 1);
    if trace[|trace| - 1].stop != SDone {
      ShutdownNeverStuck(trace[|trace| - 1]);
    }
  }

  /** Every accepted message is run while the pool is up: without new publish calls every scheduling is at
      most Remaining(start) actions long, and one that cannot be continued, nobody having stopped or
      cancelled the pool, has called the handler exactly once for every accepted message. */
  lemma AcceptedIsRun(trace: seq<State>)
    requires IsQuietRun(trace) && Reachable(trace[0])
    ensures |trace| - 1 <= Remaining(trace[0])
    ensures var s := trace[|trace| - 1];
      !s.cancelled && !CanMove(s) ==>
        s.queue == [] && forall p :: p in s.pubs ==> s.pubs[p].pc.PDone? && Calls(s, p) == if Sent(s.pubs[p].pc) then 1 else 0
  {
    QuietRunsAreBounded(trace, |trace| - 1);
    QuietRunStaysReachable(trace, |trace| - 1);
    var s := trace[|trace| - 1];
    if !s.cancelled && !CanMove(s) {
      RunningPoolRunsAll(s);
    }
  }
}
