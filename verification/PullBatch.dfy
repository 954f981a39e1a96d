/** One fetched batch through processBatch without a worker pool: the concurrent path as a transition
    system over its goroutines, the sequential path as the loop it is.  Messages are numbered by their
    position in the batch. */
module PullBatch {
  import opened Basics
  import opened Totals

  type Index = nat
  type WorkerId = nat

  /** The goroutine that feeds the jobs channel, closes it and waits. */
  datatype Feeder =
    | Look(i: Index)                   // about to read firstErr
    | Check(i: Index, sawErr: bool)    // about to read ctx.Err()
    | Push(i: Index)
    | NakRest(i: Index)                // nakRemaining(messages[i:])
    | Close
    | Wait
    | Done(err: bool)                  // returned; err: ctx.Err() was not nil

  datatype Worker =
    | Recv
    | Got(m: Index)                    // received; about to read ctx.Err()
    | Nak(m: Index)
    | Hand(m: Index)                   // about to call processMessage
    | Busy(m: Index)                   // inside processMessage
    | Exit

  /** Where a message is; exactly one of these at any time. */
  datatype Place = Ahead | InJobs | With(w: WorkerId) | Handed | Naked

  datatype State = State(
    n: nat,
    feed: Feeder,
    jobs: seq<Index>,
    closed: bool,
    workers: map<WorkerId, Worker>,
    firstErr: bool,
    cancelled: bool,
    handed: seq<Index>,                // processMessage calls
    naked: seq<Index>,                 // Naks outside processMessage
    place: map<Index, Place>,          // bookkeeping; no action reads it
    past: set<Action>)                 // every action so far; no action reads it

  datatype Action =
    | Feed
    | WorkerStep(w: WorkerId)
    | Drop(w: WorkerId, m: Index)      // the worker saw a cancellation: recordErr and Nak
    | Finish(w: WorkerId, m: Index, ok: bool)  // processMessage returns
    | Cancel

  function Crew(k: nat): (r: map<WorkerId, Worker>)
    ensures forall w: nat :: w in r <==> w < k
    ensures forall w :: w in r ==> r[w] == Recv
  {
    if k == 0 then map[] else Crew(k - 1)[k - 1 := Recv]
  }

  function Unfed(n: nat): (r: map<Index, Place>)
    ensures forall m: nat :: m in r <==> m < n
    ensures forall m :: m in r ==> r[m] == Ahead
  {
    if n == 0 then map[] else Unfed(n - 1)[n - 1 := Ahead]
  }

  /** A batch of `n` messages with the requested concurrency, lowered to the batch size. */
  function Begin(n: nat, concurrency: nat): State {
    State(n, Look(0), [], false, Crew(if concurrency > n then n else concurrency), false, false, [], [], Unfed(n), {})
  }

  // ----- Steps

  predicate FeedReady(s: State) {
    !s.feed.Done? && (s.feed == Wait ==> forall w :: w in s.workers ==> s.workers[w] == Exit)
  }

  function NextFeed(s: State): Feeder {
    match s.feed
    case Look(i) => if i < s.n then Check(i, s.firstErr) else Close
    case Check(i, sawErr) => if sawErr || s.cancelled then NakRest(i) else Push(i)
    case Push(i) => Look(i + 1)
    case NakRest(i) => if i < s.n then NakRest(i + 1) else Close
    case Close => Wait
    case Wait => Done(s.cancelled)
    case Done(err) => Done(err)
  }

  /** The feeder Naks the message at its position. */
  predicate Naking(s: State) { s.feed.NakRest? && s.feed.i < s.n }

  function DoFeed(s: State): State
    requires FeedReady(s)
  {
    s.(feed := NextFeed(s),
       jobs := if s.feed.Push? then s.jobs + [s.feed.i] else s.jobs,
       naked := if Naking(s) then s.naked + [s.feed.i] else s.naked,
       closed := s.closed || s.feed == Close,
       place := if s.feed.Push? then s.place[s.feed.i := InJobs]
                else if Naking(s) then s.place[s.feed.i := Naked] else s.place)
  }

  predicate WorkerReady(s: State, w: WorkerId) {
    w in s.workers &&
    match s.workers[w]
    case Recv => s.jobs != [] || s.closed
    case Got(_) => true
    case Hand(_) => true
    case _ => false             // Drop and Finish are actions of their own
  }

  function DoWorker(s: State, w: WorkerId): State
    requires WorkerReady(s, w)
  {
    match s.workers[w]
    case Recv =>
      if s.jobs == [] then s.(workers := s.workers[w := Exit])
      else s.(workers := s.workers[w := Got(s.jobs[0])], jobs := s.jobs[1..], place := s.place[s.jobs[0] := With(w)])
    case Got(m) => s.(workers := s.workers[w := if s.cancelled then Nak(m) else Hand(m)])
    case Hand(m) => s.(workers := s.workers[w := Busy(m)], handed := s.handed + [m], place := s.place[m := Handed])
  }

  predicate Enabled(s: State, a: Action) {
    match a
    case Feed => FeedReady(s)
    case WorkerStep(w) => WorkerReady(s, w)
    case Drop(w, m) => w in s.workers && s.workers[w] == Nak(m)
    case Finish(w, m, _) => w in s.workers && s.workers[w] == Busy(m)
    case Cancel => !s.cancelled
  }

  function DoDrop(s: State, w: WorkerId, m: Index): State {
    s.(workers := s.workers[w := Recv], firstErr := true, naked := s.naked + [m], place := s.place[m := Naked])
  }

  function Effect(s: State, a: Action): State
    requires Enabled(s, a)
  {
    match a
    case Feed => DoFeed(s)
    case WorkerStep(w) => DoWorker(s, w)
    case Drop(w, m) => DoDrop(s, w, m)
    case Finish(w, m, ok) => s.(workers := s.workers[w := Recv], firstErr := s.firstErr || !ok)
    case Cancel => s.(cancelled := true)
  }

  function Do(s: State, a: Action): State
    requires Enabled(s, a)
  {
    Effect(s, a).(past := s.past + {a})
  }

  ghost predicate Follows(s: State, s': State) {
    exists a :: Enabled(s, a) && Do(s, a) == s'
  }

  ghost predicate IsRun(trace: seq<State>, n: nat, concurrency: nat) {
    && |trace| > 0 && trace[0] == Begin(n, concurrency)
    && forall i :: 0 < i < |trace| ==> StepAt(trace, i)
  }

  ghost predicate StepAt(trace: seq<State>, i: nat)
    requires 0 < i < |trace|
  {
    Follows(trace[i - 1], trace[i])
  }

  // ----- Every message is in exactly one place

  function Frontier(f: Feeder, n: nat): nat {
    match f
    case Look(i) => i
    case Check(i, _) => i
    case Push(i) => i
    case NakRest(i) => i
    case _ => n
  }

  ghost predicate At(s: State, m: Index, p: Place) {
    match p
    case Ahead => Frontier(s.feed, s.n) <= m < s.n
    case InJobs => m in s.jobs
    case With(w) => w in s.workers && (s.workers[w] == Got(m) || s.workers[w] == Nak(m) || s.workers[w] == Hand(m))
    case Handed => m in s.handed
    case Naked => m in s.naked
  }

  ghost predicate Inv(s: State) {
    && (forall m: nat :: m in s.place <==> m < s.n)
    && (forall m, p :: At(s, m, p) <==> m in s.place && s.place[m] == p)
    && Distinct(s.jobs) && Distinct(s.handed) && Distinct(s.naked)
    && (s.feed.Check? || s.feed.Push? ==> s.feed.i < s.n)
    && Frontier(s.feed, s.n) <= s.n
    && (s.closed <==> s.feed == Wait || s.feed.Done?)
    && (forall w :: w in s.workers && s.workers[w] == Exit ==> s.closed && s.jobs == [])
    && (s.feed.Done? ==> forall w :: w in s.workers ==> s.workers[w] == Exit)
    && (s.n > 0 ==> s.workers != map[])
  }

  /** Message `m0` went to `p0`; all others stayed where they were. */
  lemma Moved(s: State, s': State, m0: Index, p0: Place)
    requires Inv(s) && m0 in s.place && s'.place == s.place[m0 := p0] && s'.n == s.n
    requires forall m, p :: At(s', m, p) <==> if m == m0 then p == p0 else At(s, m, p)
    ensures forall m: nat :: m in s'.place <==> m < s'.n
    ensures forall m, p :: At(s', m, p) <==> m in s'.place && s'.place[m] == p
  {
    forall m, p ensures At(s', m, p) <==> m in s'.place && s'.place[m] == p {
      assert At(s, m, p) <==> m in s.place && s.place[m] == p;
    }
  }

  lemma FeedMoves(s: State)
    requires Inv(s) && (s.feed.Push? || Naking(s))
    ensures Inv(DoFeed(s))
  {
    var s', m0, p0 := DoFeed(s), s.feed.i, if s.feed.Push? then InJobs else Naked;
    assert At(s, m0, Ahead) && !At(s, m0, p0);
    forall m, p ensures At(s', m, p) <==> if m == m0 then p == p0 else At(s, m, p) {
      assert At(s, m, p) <==> m in s.place && s.place[m] == p;
    }
    Moved(s, s', m0, p0);
  }

  lemma FeedKeeps(s: State)
    requires Inv(s) && FeedReady(s)
    ensures Inv(DoFeed(s))
  {
    if s.feed.Push? || Naking(s) {
      FeedMoves(s);
    } else {
      FeedStays(s);
    }
  }

  /** A step of the feeder that moves no message. */
  lemma FeedStays(s: State)
    requires Inv(s) && FeedReady(s) && !s.feed.Push? && !Naking(s)
    ensures Inv(DoFeed(s))
  {
    var s' := DoFeed(s);
    forall m, p ensures At(s', m, p) <==> At(s, m, p) {}
  }

  lemma TakeKeeps(s: State, w: WorkerId)
    requires Inv(s) && w in s.workers && s.workers[w] == Recv && s.jobs != []
    ensures Inv(DoWorker(s, w))
  {
    var s', m0 := DoWorker(s, w), s.jobs[0];
    assert At(s, m0, InJobs);
    assert s.jobs == [m0] + s'.jobs;
    forall m, p ensures At(s', m, p) <==> if m == m0 then p == With(w) else At(s, m, p) {
      assert At(s, m, p) <==> m in s.place && s.place[m] == p;
    }
    Moved(s, s', m0, With(w));
  }

  lemma HandKeeps(s: State, w: WorkerId)
    requires Inv(s) && w in s.workers && s.workers[w].Hand?
    ensures Inv(DoWorker(s, w))
  {
    var s', m0 := DoWorker(s, w), s.workers[w].m;
    assert At(s, m0, With(w)) && !At(s, m0, Handed);
    forall m, p ensures At(s', m, p) <==> if m == m0 then p == Handed else At(s, m, p) {
      assert At(s, m, p) <==> m in s.place && s.place[m] == p;
    }
    Moved(s, s', m0, Handed);
  }

  lemma DropKeeps(s: State, w: WorkerId, m0: Index)
    requires Inv(s) && Enabled(s, Drop(w, m0))
    ensures Inv(DoDrop(s, w, m0))
  {
    var s' := DoDrop(s, w, m0);
    assert At(s, m0, With(w)) && !At(s, m0, Naked);
    forall m, p ensures At(s', m, p) <==> if m == m0 then p == Naked else At(s, m, p) {
      assert At(s, m, p) <==> m in s.place && s.place[m] == p;
    }
    Moved(s, s', m0, Naked);
  }

  lemma WorkerKeeps(s: State, w: WorkerId)
    requires Inv(s) && WorkerReady(s, w)
    ensures Inv(DoWorker(s, w))
  {
    if s.workers[w].Hand? {
      HandKeeps(s, w);
    } else if s.workers[w] == Recv && s.jobs != [] {
      TakeKeeps(s, w);
    } else {
      var s' := DoWorker(s, w);
      forall m, p ensures At(s', m, p) <==> At(s, m, p) {}
    }
  }

  lemma EffectKept(s: State, a: Action)
    requires Inv(s) && Enabled(s, a)
    ensures Inv(Effect(s, a))
  {
    match a
    case Feed => FeedKeeps(s);
    case WorkerStep(w) => WorkerKeeps(s, w);
    case Drop(w, m) => DropKeeps(s, w, m);
    case Finish(_, _, _) => forall m, p ensures At(Effect(s, a), m, p) <==> At(s, m, p) {}
    case Cancel => forall m, p ensures At(Effect(s, a), m, p) <==> At(s, m, p) {}
  }

  lemma Kept(s: State, a: Action)
    requires Inv(s) && Enabled(s, a)
    ensures Inv(Do(s, a))
  {
    EffectKept(s, a);
    forall m, p ensures At(Do(s, a), m, p) <==> At(Effect(s, a), m, p) {}
  }

  lemma BeginKeeps(n: nat, concurrency: nat)
    requires concurrency > 0
    ensures Inv(Begin(n, concurrency))
  {
    var s := Begin(n, concurrency);
    assert n > 0 ==> 0 in s.workers;
    forall m, p ensures At(s, m, p) <==> m in s.place && s.place[m] == p {}
  }

  lemma {:induction false} InvOnRuns(trace: seq<State>, n: nat, concurrency: nat, i: nat)
    requires IsRun(trace, n, concurrency) && concurrency > 0 && i < |trace|
    ensures Inv(trace[i]) && trace[i].n == n
  {
    if i == 0 {
      BeginKeeps(n, concurrency);
    } else {
      InvOnRuns(trace, n, concurrency, i - 1);
      assert StepAt(trace, i);
      var a :| Enabled(trace[i - 1], a) && Do(trace[i - 1], a) == trace[i];
      Kept(trace[i - 1], a);
    }
  }

  // ----- What the concurrent path promises

  /** However workers, errors and cancellation interleave: when processBatchConcurrent returns, each
      message was handed to processMessage or Nak'd, exactly once in all, and every processMessage
      call has returned. */
  lemma EachExactlyOnce(trace: seq<State>, n: nat, concurrency: nat, i: nat, m: Index)
    requires IsRun(trace, n, concurrency) && concurrency > 0 && i < |trace| && trace[i].feed.Done?
    ensures multiset(trace[i].handed)[m] + multiset(trace[i].naked)[m] == if m < n then 1 else 0
    ensures forall w :: w in trace[i].workers ==> trace[i].workers[w] == Exit
  {
    InvOnRuns(trace, n, concurrency, i);
    var s := trace[i];
    DistinctCount(s.handed, m);
    DistinctCount(s.naked, m);
    assert At(s, m, Handed) <==> m in s.place && s.place[m] == Handed;
    assert At(s, m, Naked) <==> m in s.place && s.place[m] == Naked;
    if m < n {
      assert At(s, m, s.place[m]);
    }
  }

  /** Some processMessage call of the batch returned an error. */
  ghost predicate Failed(s: State) {
    exists w, m :: Finish(w, m, false) in s.past
  }

  /** Some worker Nak'd the message it had received. */
  ghost predicate Dropped(s: State) {
    exists w, m :: Drop(w, m) in s.past
  }

  /** What the batch knows of errors and of the cancellation is what happened. */
  ghost predicate Told(s: State) {
    && (s.firstErr <==> Failed(s) || Dropped(s))
    && (Dropped(s) ==> s.cancelled) && (s.cancelled <==> Cancel in s.past)
    && (s.feed.Check? && s.feed.sawErr ==> s.firstErr)
    && (s.feed.NakRest? || s.naked != [] ==> s.firstErr || s.cancelled)
    && (forall w :: w in s.workers && s.workers[w].Nak? ==> s.cancelled)
    && (s.feed.Done? && s.feed.err ==> s.cancelled)
  }

  lemma HistoryKept(s: State, a: Action)
    requires Enabled(s, a)
    ensures Failed(Do(s, a)) <==> Failed(s) || (a.Finish? && !a.ok)
    ensures Dropped(Do(s, a)) <==> Dropped(s) || a.Drop?
  {
    var s' := Do(s, a);
    assert a in s'.past;
    if w, m :| Finish(w, m, false) in s.past {
      assert Finish(w, m, false) in s'.past;
    }
    if w, m :| Drop(w, m) in s.past {
      assert Drop(w, m) in s'.past;
    }
  }

  lemma ToldKept(s: State, a: Action)
    requires Told(s) && Enabled(s, a)
    ensures Told(Do(s, a))
  {
    HistoryKept(s, a);
  }

  lemma {:induction false} ToldOnRuns(trace: seq<State>, n: nat, concurrency: nat, i: nat)
    requires IsRun(trace, n, concurrency) && i < |trace|
    ensures Told(trace[i])
  {
    if i > 0 {
      ToldOnRuns(trace, n, concurrency, i - 1);
      assert StepAt(trace, i);
      var a :| Enabled(trace[i - 1], a) && Do(trace[i - 1], a) == trace[i];
      ToldKept(trace[i - 1], a);
    }
  }

  /** A message is Nak'd outside processMessage only after a processMessage call failed or the context was
      cancelled, and the batch returns an error only after a cancellation. */
  lemma NoNeedlessNak(trace: seq<State>, n: nat, concurrency: nat, i: nat)
    requires IsRun(trace, n, concurrency) && i < |trace|
    ensures trace[i].naked != [] ==> Failed(trace[i]) || trace[i].cancelled
    ensures trace[i].feed.Done? && trace[i].feed.err ==> trace[i].cancelled
  {
    ToldOnRuns(trace, n, concurrency, i);
  }

  lemma CancelStays(s: State, a: Action)
    requires Enabled(s, a) && s.cancelled
    ensures Do(s, a).cancelled && (Do(s, a).feed.Done? ==> Do(s, a).feed == if s.feed.Done? then s.feed else Done(true))
  {}

  /** Handler errors do not reach the caller of a batch; a cancellation before the wait is over does. */
  lemma {:induction false} CancelIsReported(trace: seq<State>, n: nat, concurrency: nat, i: nat, j: nat)
    requires IsRun(trace, n, concurrency) && i <= j < |trace| && trace[i].cancelled && !trace[i].feed.Done?
    ensures trace[j].cancelled && (trace[j].feed.Done? ==> trace[j].feed.err)
    decreases j
  {
    if i < j {
      CancelIsReported(trace, n, concurrency, i, j - 1);
      assert StepAt(trace, j);
      var a :| Enabled(trace[j - 1], a) && Do(trace[j - 1], a) == trace[j];
      CancelStays(trace[j - 1], a);
    }
  }

  /** The feeder will Nak the messages from `k` on, or has done so. */
  ghost predicate Stopping(s: State, k: Index) {
    match s.feed
    case Look(i) => i == k && (s.firstErr || s.cancelled)
    case Check(i, sawErr) => i == k && (sawErr || s.cancelled)
    case Push(_) => false
    case NakRest(i) => k <= i && forall m :: k <= m < i ==> m in s.naked
    case _ => forall m :: k <= m < s.n ==> m in s.naked
  }

  lemma StoppingKept(s: State, a: Action, k: Index)
    requires Stopping(s, k) && k < s.n && Enabled(s, a)
    ensures Stopping(Do(s, a), k) && Do(s, a).n == s.n
  {
    var s' := Do(s, a);
    assert forall m :: m in s.naked ==> m in s'.naked;
  }

  lemma {:induction false} StoppingOnRuns(trace: seq<State>, n: nat, concurrency: nat, i: nat, j: nat, k: Index)
    requires IsRun(trace, n, concurrency) && i <= j < |trace| && k < trace[i].n && Stopping(trace[i], k)
    ensures Stopping(trace[j], k) && trace[j].n == trace[i].n
    decreases j
  {
    if i < j {
      StoppingOnRuns(trace, n, concurrency, i, j - 1, k);
      assert StepAt(trace, j);
      var a :| Enabled(trace[j - 1], a) && Do(trace[j - 1], a) == trace[j];
      StoppingKept(trace[j - 1], a, k);
    }
  }

  /** Once a processMessage call has failed or the context is cancelled, the message the feeder looks at next
      and all after it are Nak'd and never handed over. */
  lemma FeederStops(trace: seq<State>, n: nat, concurrency: nat, i: nat, j: nat, k: Index, m: Index)
    requires IsRun(trace, n, concurrency) && concurrency > 0 && i <= j < |trace|
    requires (Failed(trace[i]) || trace[i].cancelled) && trace[i].feed == Look(k) && trace[j].feed.Done? && k <= m < n
    ensures m in trace[j].naked && m !in trace[j].handed
  {
    ToldOnRuns(trace, n, concurrency, i);
    InvOnRuns(trace, n, concurrency, i);
    StoppingOnRuns(trace, n, concurrency, i, j, k);
    EachExactlyOnce(trace, n, concurrency, j, m);
  }

  /** Cancelled, and no worker is past its look at the context. */
  predicate Quenched(s: State) {
    s.cancelled && forall w :: w in s.workers ==> !s.workers[w].Hand?
  }

  lemma QuenchedKept(s: State, a: Action)
    requires Quenched(s) && Enabled(s, a)
    ensures Quenched(Do(s, a)) && Do(s, a).handed == s.handed
  {}

  /** After a cancellation no message is handed over but by a worker that had already looked. */
  lemma {:induction false} CancelStopsWorkers(trace: seq<State>, n: nat, concurrency: nat, i: nat, j: nat)
    requires IsRun(trace, n, concurrency) && i <= j < |trace| && Quenched(trace[i])
    ensures Quenched(trace[j]) && trace[j].handed == trace[i].handed
    decreases j
  {
    if i < j {
      CancelStopsWorkers(trace, n, concurrency, i, j - 1);
      assert StepAt(trace, j);
      var a :| Enabled(trace[j - 1], a) && Do(trace[j - 1], a) == trace[j];
      QuenchedKept(trace[j - 1], a);
    }
  }

  lemma CrewStays(s: State, a: Action)
    requires Enabled(s, a)
    ensures Do(s, a).workers.Keys == s.workers.Keys
  {}

  /** There are as many workers as the requested concurrency, or as messages if those are fewer; so no more
      processMessage calls are ever in flight. */
  lemma {:induction false} CrewOnRuns(trace: seq<State>, n: nat, concurrency: nat, i: nat, w: WorkerId)
    requires IsRun(trace, n, concurrency) && i < |trace|
    ensures w in trace[i].workers <==> w < concurrency && w < n
  {
    if i > 0 {
      CrewOnRuns(trace, n, concurrency, i - 1, w);
      assert StepAt(trace, i);
      var a :| Enabled(trace[i - 1], a) && Do(trace[i - 1], a) == trace[i];
      CrewStays(trace[i - 1], a);
    }
  }

  /** No goroutine of the batch can act. */
  ghost predicate Stuck(s: State) {
    forall a :: Enabled(s, a) ==> a == Cancel
  }

  /** Until it returns, some goroutine of the batch can act; processMessage calls are assumed to return. */
  lemma NeverStuck(s: State)
    requires Inv(s) && s.n > 0 && !s.feed.Done?
    ensures !Stuck(s)
  {
    if s.feed != Wait {
      assert Enabled(s, Feed);
    } else if w :| w in s.workers && s.workers[w] != Exit {
      if s.workers[w].Busy? {
        assert Enabled(s, Finish(w, s.workers[w].m, true));
      } else if s.workers[w].Nak? {
        assert Enabled(s, Drop(w, s.workers[w].m));
      } else {
        assert Enabled(s, WorkerStep(w));
      }
    } else {
      assert Enabled(s, Feed);
    }
  }

  // ----- The concurrent path always returns

  function FeedLeft(f: Feeder, n: nat): nat {
    var ahead := if Frontier(f, n) < n then 10 * (n - Frontier(f, n)) else 0;
    match f
    case Look(_) => ahead + 5
    case Check(_, _) => ahead + 4
    case Push(_) => ahead + 3
    case NakRest(_) => ahead + 3
    case Close => 2
    case Wait => 1
    case Done(_) => 0
  }

  function WorkerLeft(w: Worker): nat {
    match w
    case Got(_) => 4 case Nak(_) => 3 case Hand(_) => 3 case Busy(_) => 2 case Recv => 1 case Exit => 0
  }

  /** An upper bound on the number of steps still to come. */
  ghost function Left(s: State): nat {
    FeedLeft(s.feed, s.n) + 5 * |s.jobs| + Total(s.workers, WorkerLeft) + if s.cancelled then 0 else 1
  }

  lemma WorkerLowers(s: State, w: WorkerId)
    requires WorkerReady(s, w)
    ensures Left(DoWorker(s, w)) < Left(s)
  {
    TotalUpdate(s.workers, WorkerLeft, w, DoWorker(s, w).workers[w]);
  }

  lemma FeedLowers(s: State)
    requires FeedReady(s) && (s.feed.Check? || s.feed.Push? ==> s.feed.i < s.n)
    ensures Left(DoFeed(s)) < Left(s)
  {}

  lemma ReturnLowers(s: State, a: Action)
    requires (a.Finish? || a.Drop?) && Enabled(s, a)
    ensures Left(Effect(s, a)) < Left(s)
  {
    TotalUpdate(s.workers, WorkerLeft, a.w, Recv);
  }

  lemma StepLowers(s: State, s': State)
    requires Inv(s) && Follows(s, s')
    ensures Left(s') < Left(s)
  {
    var a :| Enabled(s, a) && Do(s, a) == s';
    match a
    case Feed => FeedLowers(s);
    case WorkerStep(w) => WorkerLowers(s, w);
    case Drop(_, _) => ReturnLowers(s, a);
    case Finish(_, _, _) => ReturnLowers(s, a);
    case Cancel =>
  }

  lemma LowersAt(trace: seq<State>, n: nat, concurrency: nat, i: nat)
    requires IsRun(trace, n, concurrency) && concurrency > 0 && 0 < i < |trace|
    ensures Left(trace[i]) < Left(trace[i - 1])
  {
    InvOnRuns(trace, n, concurrency, i - 1);
    assert StepAt(trace, i);
    StepLowers(trace[i - 1], trace[i]);
  }

  lemma StuckReturned(trace: seq<State>, n: nat, concurrency: nat, i: nat)
    requires IsRun(trace, n, concurrency) && concurrency > 0 && n > 0 && i < |trace| && Stuck(trace[i])
    ensures trace[i].feed.Done?
  {
    InvOnRuns(trace, n, concurrency, i);
    if !trace[i].feed.Done? {
      NeverStuck(trace[i]);
    }
  }

  /** Every scheduling of the batch is finite, and one that cannot be continued has returned. */
  lemma {:induction false} BatchReturns(trace: seq<State>, n: nat, concurrency: nat, i: nat)
    requires IsRun(trace, n, concurrency) && concurrency > 0 && i < |trace|
    ensures i + Left(trace[i]) <= Left(trace[0])
    ensures n > 0 && Stuck(trace[i]) ==> trace[i].feed.Done?
  {
    if i > 0 {
      BatchReturns(trace, n, concurrency, i - 1);
      LowersAt(trace, n, concurrency, i);
    }
    if n > 0 && Stuck(trace[i]) {
      StuckReturned(trace, n, concurrency, i);
    }
  }

  // ----- The sequential path

  /** The context is looked at before every message and is first seen cancelled at look `cancelledAt`; a
      handler error does not stop the loop. */
  method ProcessSequential(n: nat, cancelledAt: nat) returns (handed: seq<Index>, naked: seq<Index>, err: bool)
    ensures handed + naked == seq(n, i => i)
    ensures |handed| == if cancelledAt < n then cancelledAt else n
    ensures err <==> cancelledAt < n
  {
    handed, naked, err := [], [], false;
    for i := 0 to n
      invariant handed == seq(i, j => j) && naked == [] && !err && i <= cancelledAt
    {
      if i >= cancelledAt {
        naked := NakRemaining(i, n);
        err := true;
        return;
      }
      handed := handed + [i];
    }
  }

  method NakRemaining(from: Index, n: nat) returns (naked: seq<Index>)
    requires from <= n
    ensures naked == seq(n - from, j requires j >= 0 => from + j)
  {
    naked := [];
    for i := from to n
      invariant naked == seq(i - from, j requires j >= 0 => from + j)
    {
      naked := naked + [i];
    }
  }
}
