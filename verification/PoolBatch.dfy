/** One fetched batch through processBatchWithPool: the enqueueing goroutine, the tasks it leaves with
    the worker pool, the WaitGroup between them, and what backpressure settles. */
module PoolBatch {
  import opened Basics
  import opened Totals

  type Index = nat

  // ----- handlePoolBackpressure

  datatype Mode = Unset | Block | Nak | Term | Drop | Unknown

  datatype Pressure = Clear | PoolFull | Handled | SettleFailed

  /** What happened to the message itself. */
  datatype Settlement = Untouched | Naked | Terminated

  /** `settles` says whether the Nak or Term request succeeds. */
  method HandlePoolBackpressure(mode0: Mode, capacity: int, depth: int, settles: bool) returns (r: Pressure, msg: Settlement)
    ensures r == Handled <==> msg != Untouched
    ensures r == Clear <==> capacity <= 0 || depth < capacity
    ensures msg == Naked ==> mode0 == Nak
    ensures msg == Terminated ==> mode0 == Term || mode0 == Drop
    ensures r == PoolFull <==> r != Clear && mode0 in {Unset, Block, Unknown}
    ensures r == SettleFailed <==> r != Clear && mode0 in {Nak, Term, Drop} && !settles
  {
    msg := Untouched;
    if capacity <= 0 || depth < capacity {
      return Clear, msg;
    }
    var mode := if mode0 == Unset then Block else mode0;
    match mode
    case Nak =>
      if !settles { return SettleFailed, msg; }
      return Handled, Naked;
    case Term =>
      if !settles { return SettleFailed, msg; }
      return Handled, Terminated;
    case Drop =>
      if !settles { return SettleFailed, msg; }
      return Handled, Terminated;
    case _ =>
      return PoolFull, msg;
  }

  // ----- The goroutines of one batch

  datatype Pc =
    | Top(i: Index)                  // loop head: ctx.Err()
    | Try(i: Index)                  // wg.Add(1) done; TryPublishNonBlocking
    | Press(i: Index)                // handlePoolBackpressure
    | Retry(i: Index)                // wg.Add(1) done; TryPublish
    | Join(i: Index)                 // loop left at i; wait for the WaitGroup or the context
    | NakAll(i: Index)               // nakRemaining(messages)
    | Returned(err: bool)

  datatype State = State(
    n: nat,
    pc: Pc,
    wg: int,
    firstErr: bool,
    cancelled: bool,
    dealt: map<Index, Stage>,        // messages accepted by the pool or settled by backpressure
    naked: set<Index>,               // Nak'd by nakRemaining
    past: set<Action>)               // every action so far; no action reads it

  datatype Stage =
    | Queued                         // accepted by the pool, closure not started
    | Running                        // inside processMessage
    | Finished                       // processMessage returned and wg.Done ran
    | Settled                        // by backpressure

  datatype Action =
    | Look(sawCancel: bool)          // the loop head; for a message left, ctx.Err()
    | TryResult(r: Publish)
    | PressResult(p: Pressure)
    | RetryResult(ok: bool)
    | JoinDone                       // the WaitGroup reached zero
    | JoinCancelled
    | NakStep
    | Start(m: Index)                // a pool worker calls the closure
    | Finish(m: Index, ok: bool)     // processMessage returns; deferred wg.Done
    | Cancel

  datatype Publish = Accepted | Full | Refused

  function Begin(n: nat): State {
    State(n, Top(0), 0, false, false, map[], {}, {})
  }

  predicate Enabled(s: State, a: Action) {
    match a
    case Look(sawCancel) => s.pc.Top? && sawCancel == (s.pc.i < s.n && s.cancelled)
    case TryResult(_) => s.pc.Try?
    case PressResult(_) => s.pc.Press?
    case RetryResult(_) => s.pc.Retry?
    case JoinDone => s.pc.Join? && s.wg == 0
    case JoinCancelled => s.pc.Join? && s.cancelled
    case NakStep => s.pc.NakAll?
    case Start(m) => m in s.dealt && s.dealt[m] == Queued
    case Finish(m, _) => m in s.dealt && s.dealt[m] == Running
    case Cancel => !s.cancelled
  }

  /** The message the enqueueing goroutine is at. */
  function At(pc: Pc): Index {
    match pc
    case Top(i) => i
    case Try(i) => i
    case Press(i) => i
    case Retry(i) => i
    case Join(i) => i
    case NakAll(i) => i
    case Returned(_) => 0
  }

  /** Where the enqueueing goroutine goes. */
  function NextPc(s: State, a: Action): Pc {
    match a
    case Look(sawCancel) => if At(s.pc) >= s.n || sawCancel then Join(At(s.pc)) else Try(At(s.pc))
    case TryResult(Accepted) => Top(At(s.pc) + 1)
    case TryResult(Full) => Press(At(s.pc))
    case TryResult(Refused) => Join(At(s.pc))
    case PressResult(Clear) => Retry(At(s.pc))
    case PressResult(PoolFull) => Retry(At(s.pc))
    case PressResult(Handled) => Top(At(s.pc) + 1)
    case PressResult(SettleFailed) => Join(At(s.pc))
    case RetryResult(ok) => if ok then Top(At(s.pc) + 1) else Join(At(s.pc))
    case JoinDone => if s.firstErr then NakAll(0) else Returned(false)
    case JoinCancelled => NakAll(0)
    case NakStep => if At(s.pc) < s.n then NakAll(At(s.pc) + 1) else Returned(true)
    case _ => s.pc
  }

  /** wg.Add and wg.Done. */
  function WaitDelta(s: State, a: Action): int {
    match a
    case Look(sawCancel) => if At(s.pc) >= s.n || sawCancel then 0 else 1
    case TryResult(r) => if r == Accepted then 0 else -1
    case PressResult(p) => if p == Clear || p == PoolFull then 1 else 0
    case RetryResult(ok) => if ok then 0 else -1
    case Finish(_, _) => -1
    case _ => 0
  }

  /** recordErr with a non-nil error. */
  predicate Records(a: Action) {
    match a
    case Look(sawCancel) => sawCancel
    case TryResult(r) => r == Refused
    case PressResult(p) => p == SettleFailed
    case RetryResult(ok) => !ok
    case JoinCancelled => true
    case Finish(_, ok) => !ok
    case _ => false
  }

  /** The message that changes stage. */
  function Deals(s: State, a: Action): Option<(Index, Stage)> {
    match a
    case TryResult(r) => if r == Accepted then Some((At(s.pc), Queued)) else None
    case PressResult(p) => if p == Handled then Some((At(s.pc), Settled)) else None
    case RetryResult(ok) => if ok then Some((At(s.pc), Queued)) else None
    case Start(m) => Some((m, Running))
    case Finish(m, _) => Some((m, Finished))
    case _ => None
  }

  function Do(s: State, a: Action): State {
    s.(pc := NextPc(s, a),
       wg := s.wg + WaitDelta(s, a),
       firstErr := s.firstErr || Records(a),
       cancelled := s.cancelled || a == Cancel,
       dealt := match Deals(s, a) case None => s.dealt case Some((m, g)) => s.dealt[m := g],
       naked := if a == NakStep && At(s.pc) < s.n then s.naked + {At(s.pc)} else s.naked,
       past := s.past + {a})
  }

  ghost predicate Follows(s: State, s': State) {
    exists a :: Enabled(s, a) && Do(s, a) == s'
  }

  ghost predicate IsRun(trace: seq<State>, n: nat) {
    && |trace| > 0 && trace[0] == Begin(n)
    && forall i :: 0 < i < |trace| ==> StepAt(trace, i)
  }

  ghost predicate StepAt(trace: seq<State>, i: nat)
    requires 0 < i < |trace|
  {
    Follows(trace[i - 1], trace[i])
  }

  // ----- What every step keeps

  /** Closures that have not finished. */
  function Open(g: Stage): nat { if g == Queued || g == Running then 1 else 0 }

  function Publishing(pc: Pc): nat { if pc.Try? || pc.Retry? then 1 else 0 }

  /** The WaitGroup counts the closures that have not finished, plus the publish call in progress. */
  ghost predicate Balanced(s: State) {
    s.wg == Total(s.dealt, Open) + Publishing(s.pc)
  }

  ghost predicate DealtBelow(s: State, i: nat) {
    forall m: nat :: m in s.dealt <==> m < i
  }

  /** Exactly the messages before the loop position are dealt with; the loop is left early only with an error. */
  ghost predicate InOrder(s: State) {
    match s.pc
    case Top(i) => i <= s.n && DealtBelow(s, i)
    case Try(i) => i < s.n && DealtBelow(s, i)
    case Press(i) => i < s.n && DealtBelow(s, i)
    case Retry(i) => i < s.n && DealtBelow(s, i)
    case Join(i) => i <= s.n && (i < s.n ==> s.firstErr) && DealtBelow(s, i)
    case NakAll(i) => s.firstErr && i <= s.n && forall m: nat :: m < i ==> m in s.naked
    case Returned(err) =>
      if err then s.firstErr && forall m: nat :: m < s.n ==> m in s.naked
      else !s.firstErr && DealtBelow(s, s.n) && forall m :: m in s.dealt ==> Open(s.dealt[m]) == 0
  }

  ghost predicate NoneOpen(s: State) {
    forall m :: m in s.dealt ==> Open(s.dealt[m]) == 0
  }

  /** After the loop a prefix of the batch is dealt with; and closures still run only after a cancellation. */
  ghost predicate LeftQuietly(s: State) {
    s.pc.NakAll? || s.pc.Returned? ==>
      && (exists k: nat :: k <= s.n && DealtBelow(s, k))
      && (NoneOpen(s) || s.cancelled)
  }

  /** An error is recorded exactly if a processMessage call failed, the pool refused a message, backpressure
      failed to settle one, or a cancellation was seen. */
  ghost predicate Told(s: State) {
    s.firstErr <==>
      || (exists m :: Finish(m, false) in s.past)
      || TryResult(Refused) in s.past || RetryResult(false) in s.past
      || PressResult(SettleFailed) in s.past
      || Look(true) in s.past || JoinCancelled in s.past
  }

  /** Every stage was reached by its action, and the loop goes no further once it saw a cancellation. */
  ghost predicate Traced(s: State) {
    && (forall m :: m in s.dealt && s.dealt[m] == Finished ==> Finish(m, true) in s.past || Finish(m, false) in s.past)
    && (forall m :: m in s.dealt && s.dealt[m] == Settled ==> PressResult(Handled) in s.past)
    && (Look(true) in s.past ==> s.pc.Join? || s.pc.NakAll? || s.pc.Returned?)
    && (forall m :: m in s.naked ==> m < s.n)
    && (s.cancelled <==> Cancel in s.past)
  }

  ghost predicate Inv(s: State) {
    Balanced(s) && InOrder(s) && LeftQuietly(s) && Told(s) && Traced(s)
  }

  /** The current message has not been dealt with. */
  predicate CurrentOpen(s: State) {
    s.pc.Try? || s.pc.Retry? || s.pc.Press? ==> s.pc.i !in s.dealt
  }

  /** How the number of unfinished closures changes. */
  function OpenDelta(s: State, a: Action): int {
    match Deals(s, a)
    case None => 0
    case Some((m, g)) => Open(g) - if m in s.dealt then Open(s.dealt[m]) else 0
  }

  lemma WaitMatches(s: State, a: Action)
    requires CurrentOpen(s) && Enabled(s, a)
    ensures WaitDelta(s, a) == OpenDelta(s, a) + Publishing(NextPc(s, a)) - Publishing(s.pc)
  {}

  lemma BalancedKept(s: State, a: Action)
    requires Balanced(s) && CurrentOpen(s) && Enabled(s, a)
    ensures Balanced(Do(s, a))
  {
    WaitMatches(s, a);
    match Deals(s, a)
    case None =>
    case Some((m, g)) => TotalUpdate(s.dealt, Open, m, g);
  }

  /** The loop moves on: from `i` to the next message, or out of the loop. */
  lemma LoopInOrder(s: State, a: Action)
    requires InOrder(s) && Enabled(s, a) && (a.Look? || a.TryResult? || a.PressResult? || a.RetryResult?)
    ensures InOrder(Do(s, a))
  {
    var s', i := Do(s, a), s.pc.i;
    assert DealtBelow(s', if s'.pc == Top(i + 1) then i + 1 else i);
  }

  lemma PoolInOrder(s: State, a: Action)
    requires InOrder(s) && Enabled(s, a) && (a.Start? || a.Finish? || a == Cancel)
    ensures InOrder(Do(s, a))
  {
    assert forall i :: DealtBelow(s, i) ==> DealtBelow(Do(s, a), i);
  }

  lemma JoinInOrder(s: State, a: Action)
    requires Inv(s) && Enabled(s, a) && (a == JoinDone || a == JoinCancelled)
    ensures InOrder(Do(s, a))
  {
    TotalPositive(s.dealt, Open);
    assert DealtBelow(Do(s, a), s.pc.i);
  }

  lemma InOrderKept(s: State, a: Action)
    requires Inv(s) && Enabled(s, a)
    ensures InOrder(Do(s, a))
  {
    if a.Look? || a.TryResult? || a.PressResult? || a.RetryResult? {
      LoopInOrder(s, a);
    } else if a == JoinDone || a == JoinCancelled {
      JoinInOrder(s, a);
    } else if a != NakStep {
      PoolInOrder(s, a);
    }
  }

  lemma LeftQuietlyKept(s: State, a: Action)
    requires Inv(s) && Enabled(s, a)
    ensures LeftQuietly(Do(s, a))
  {
    var s' := Do(s, a);
    if s.pc.Join? {
      TotalPositive(s.dealt, Open);
      assert DealtBelow(s, s.pc.i);
      assert s'.pc.NakAll? || s'.pc.Returned? ==> s'.dealt == s.dealt && DealtBelow(s', s.pc.i);
    } else if s.pc.NakAll? || s.pc.Returned? {
      var k: nat :| k <= s.n && DealtBelow(s, k);
      assert DealtBelow(s', k);
    }
  }

  lemma ToldKept(s: State, a: Action)
    requires Told(s) && Enabled(s, a)
    ensures Told(Do(s, a))
  {
    if m :| Finish(m, false) in s.past {
      assert Finish(m, false) in Do(s, a).past;
    }
    assert a in Do(s, a).past;
  }

  lemma TracedKept(s: State, a: Action)
    requires Traced(s) && Enabled(s, a)
    ensures Traced(Do(s, a))
  {}

  lemma Kept(s: State, a: Action)
    requires Inv(s) && Enabled(s, a)
    ensures Inv(Do(s, a)) && Do(s, a).n == s.n
  {
    ToldKept(s, a);
    TracedKept(s, a);
    BalancedKept(s, a);
    InOrderKept(s, a);
    LeftQuietlyKept(s, a);
  }

  lemma StepKept(s: State, s': State)
    requires Inv(s) && Follows(s, s')
    ensures Inv(s') && s'.n == s.n
  {
    var a :| Enabled(s, a) && Do(s, a) == s';
    Kept(s, a);
  }

  lemma BeginKept(n: nat)
    ensures Inv(Begin(n))
  {
    assert DealtBelow(Begin(n), 0);
  }

  lemma {:induction false} InvOnRuns(trace: seq<State>, n: nat, i: nat)
    requires IsRun(trace, n) && i < |trace|
    ensures Inv(trace[i]) && trace[i].n == n
  {
    if i == 0 {
      BeginKept(n);
    } else {
      InvOnRuns(trace, n, i - 1);
      assert StepAt(trace, i);
      StepKept(trace[i - 1], trace[i]);
    }
  }

  // ----- What the pool path promises

  /** The WaitGroup is balanced on every path: never negative, and zero exactly when no publish call is
      open and every accepted closure has run to its end. */
  lemma WaitGroupBalanced(trace: seq<State>, n: nat, i: nat)
    requires IsRun(trace, n) && i < |trace|
    ensures trace[i].wg >= 0
    ensures trace[i].wg == 0 <==>
      !trace[i].pc.Try? && !trace[i].pc.Retry? && forall m :: m in trace[i].dealt ==> trace[i].dealt[m] in {Finished, Settled}
  {
    InvOnRuns(trace, n, i);
    TotalPositive(trace[i].dealt, Open);
  }

  /** Whatever the pool, backpressure, handlers and cancellation do: when processBatch returns without
      an error every message was handed to processMessage, which has returned, or settled by
      backpressure, and never both; when it returns an error every message was Nak'd, after a prefix of
      the batch was handed over or settled.  A handler still runs then only if the context was cancelled. */
  lemma EveryMessageDisposed(trace: seq<State>, n: nat, i: nat, m: Index)
    requires IsRun(trace, n) && i < |trace| && trace[i].pc.Returned? && m < n
    ensures !trace[i].pc.err ==> m in trace[i].dealt && trace[i].dealt[m] in {Finished, Settled}
    ensures trace[i].pc.err ==> m in trace[i].naked && exists k: nat :: k <= n && DealtBelow(trace[i], k)
    ensures forall k :: k in trace[i].naked ==> k < n
    ensures m in trace[i].dealt && !trace[i].cancelled ==> trace[i].dealt[m] in {Finished, Settled}
  {
    InvOnRuns(trace, n, i);
  }

  /** processBatch returns an error exactly if a processMessage call of the batch failed, the pool refused a
      message, backpressure failed to settle one, or a cancellation was seen; so a nil return says that
      every message handed over was processed without an error. */
  lemma ErrorExactlyIf(trace: seq<State>, n: nat, i: nat)
    requires IsRun(trace, n) && i < |trace| && trace[i].pc.Returned?
    ensures var past := trace[i].past;
      trace[i].pc.err <==>
        || (exists m :: Finish(m, false) in past)
        || TryResult(Refused) in past || RetryResult(false) in past
        || PressResult(SettleFailed) in past
        || Look(true) in past || JoinCancelled in past
    ensures !trace[i].pc.err ==>
      forall m: Index :: m < n ==>
        if m in trace[i].dealt && trace[i].dealt[m] == Settled then PressResult(Handled) in trace[i].past
        else Finish(m, true) in trace[i].past && Finish(m, false) !in trace[i].past
  {
    InvOnRuns(trace, n, i);
  }

  /** No message is Nak'd by the batch while its handler may still run, unless the context was cancelled. */
  lemma NoNakWhileRunning(trace: seq<State>, n: nat, i: nat, m: Index)
    requires IsRun(trace, n) && i < |trace| && m in trace[i].naked && !trace[i].cancelled && m in trace[i].dealt
    ensures trace[i].dealt[m] in {Finished, Settled}
  {
    InvOnRuns(trace, n, i);
    NakedLate(trace, n, i);
  }

  lemma {:induction false} NakedLate(trace: seq<State>, n: nat, i: nat)
    requires IsRun(trace, n) && i < |trace|
    ensures trace[i].naked != {} ==> trace[i].pc.NakAll? || trace[i].pc.Returned?
  {
    if i > 0 {
      NakedLate(trace, n, i - 1);
      assert StepAt(trace, i);
    }
  }

  // ----- The pool path always returns

  function PcLeft(pc: Pc, n: nat): nat {
    match pc
    case Top(i) => (if i < n then 10 * (n - i) else 0) + n + 4
    case Try(i) => (if i < n then 10 * (n - i) else 0) + n + 3
    case Press(i) => (if i < n then 10 * (n - i) else 0) + n + 2
    case Retry(i) => (if i < n then 10 * (n - i) else 0) + n + 1
    case Join(_) => n + 3
    case NakAll(i) => (if i < n then n - i else 0) + 2
    case Returned(_) => 1
  }

  function StageLeft(g: Stage): nat {
    match g case Queued => 2 case Running => 1 case Finished => 0 case Settled => 0
  }

  /** An upper bound on the number of steps still to come. */
  ghost function Left(s: State): nat {
    PcLeft(s.pc, s.n) + Total(s.dealt, StageLeft) + if s.cancelled then 0 else 1
  }

  /** How the work left in the pool changes. */
  function DealtLeft(s: State, a: Action): int {
    match Deals(s, a)
    case None => 0
    case Some((m, g)) => StageLeft(g) - if m in s.dealt then StageLeft(s.dealt[m]) else 0
  }

  predicate PcInRange(s: State) {
    s.pc.Try? || s.pc.Press? || s.pc.Retry? ==> s.pc.i < s.n
  }

  lemma PcLowers(s: State, a: Action)
    requires PcInRange(s) && Enabled(s, a)
    ensures PcLeft(NextPc(s, a), s.n) + DealtLeft(s, a) < PcLeft(s.pc, s.n) + if a == Cancel then 1 else 0
  {}

  lemma StepLowers(s: State, s': State)
    requires Inv(s) && Follows(s, s')
    ensures Left(s') < Left(s)
  {
    var a :| Enabled(s, a) && Do(s, a) == s';
    assert PcInRange(s);
    PcLowers(s, a);
    match Deals(s, a)
    case None =>
    case Some((m, g)) => TotalUpdate(s.dealt, StageLeft, m, g);
  }

  /** Neither the goroutine of the batch nor a closure can act. */
  ghost predicate Stuck(s: State) {
    forall a :: Enabled(s, a) ==> a == Cancel
  }

  /** While processBatch has not returned, its goroutine or a closure in the pool can act. */
  lemma NeverStuck(s: State)
    requires Inv(s) && !s.pc.Returned?
    ensures !Stuck(s)
  {
    match s.pc
    case Top(i) => assert Enabled(s, Look(i < s.n && s.cancelled));
    case Try(_) => assert Enabled(s, TryResult(Accepted));
    case Press(_) => assert Enabled(s, PressResult(Clear));
    case Retry(_) => assert Enabled(s, RetryResult(true));
    case NakAll(_) => assert Enabled(s, NakStep);
    case Join(_) =>
      if s.wg == 0 {
        assert Enabled(s, JoinDone);
      } else {
        TotalPositive(s.dealt, Open);
        var m :| m in s.dealt && Open(s.dealt[m]) > 0;
        assert if s.dealt[m] == Queued then Enabled(s, Start(m)) else Enabled(s, Finish(m, true));
      }
  }

  lemma LowersAt(trace: seq<State>, n: nat, i: nat)
    requires IsRun(trace, n) && 0 < i < |trace|
    ensures Left(trace[i]) < Left(trace[i - 1])
  {
    InvOnRuns(trace, n, i - 1);
    assert StepAt(trace, i);
    StepLowers(trace[i - 1], trace[i]);
  }

  lemma StuckReturned(trace: seq<State>, n: nat, i: nat)
    requires IsRun(trace, n) && i < |trace| && Stuck(trace[i])
    ensures trace[i].pc.Returned?
  {
    InvOnRuns(trace, n, i);
    if !trace[i].pc.Returned? {
      NeverStuck(trace[i]);
    }
  }

  /** Every scheduling of the batch is finite, and one that cannot be continued has returned. */
  lemma {:induction false} BatchReturns(trace: seq<State>, n: nat, i: nat)
    requires IsRun(trace, n) && i < |trace|
    ensures i + Left(trace[i]) <= Left(trace[0])
    ensures Stuck(trace[i]) ==> trace[i].pc.Returned?
  {
    if i > 0 {
      BatchReturns(trace, n, i - 1);
      LowersAt(trace, n, i);
    }
    if Stuck(trace[i]) {
      StuckReturned(trace, n, i);
    }
  }
}
