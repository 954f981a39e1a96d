/** The push-subscription supervisor and the pull restart loop of supervisor.go.

    A run is driven by a sequence of inputs: what each pass of the select sees and what the subscribe
    calls it makes return.  Runs ended by Stop are not modelled. */
module Supervisor {
  import opened Basics

  type SubId = nat

  // ----- Configuration

  datatype Config = Config(
    maxRetries: int,          // negative: unlimited
    initialBackoff: int,
    maxBackoff: int,
    checkInterval: int,
    healthyInterval: int,     // 0 disables
    healthyChecks: int)

  function WithDefaults(c: Config): (r: Config)
    ensures r.maxRetries != 0 && r.initialBackoff > 0 && r.maxBackoff > 0 && r.checkInterval > 0
  {
    c.(maxRetries := if c.maxRetries == 0 then 10 else c.maxRetries,
       initialBackoff := if c.initialBackoff <= 0 then SECOND else c.initialBackoff,
       maxBackoff := if c.maxBackoff <= 0 then 30 * SECOND else c.maxBackoff,
       checkInterval := if c.checkInterval <= 0 then SECOND else c.checkInterval)
  }

  // ----- Backoff

  const TWO_62 := 0x4000_0000_0000_0000

  /** Doubling an int64 duration wraps around. */
  function Double(d: int): int {
    if 2 * d >= 2 * TWO_62 then 2 * d - 4 * TWO_62
    else if 2 * d < -2 * TWO_62 then 2 * d + 4 * TWO_62
    else 2 * d
  }

  function NextBackoff(current: int, max: int): int {
    if Double(current) > max then max else Double(current)
  }

  /** The delay before the next attempt after `k` failed ones, as the loop computes it. */
  function Delay(c: Config, k: nat): int {
    if k == 0 then c.initialBackoff else NextBackoff(Delay(c, k - 1), c.maxBackoff)
  }

  /** The first `n` delays. */
  function Delays(c: Config, n: nat): (r: seq<int>)
    ensures |r| == n && forall i :: 0 <= i < n ==> r[i] == Delay(c, i)
  {
    if n == 0 then [] else Delays(c, n - 1) + [Delay(c, n - 1)]
  }

  /** The delay as it is meant: the initial one at first, even above the maximum, and then doubled `k` times
      and no more than the maximum. */
  function Backoff(c: Config, k: nat): int {
    if k == 0 then c.initialBackoff
    else if c.initialBackoff * Pow2(k) > c.maxBackoff then c.maxBackoff else c.initialBackoff * Pow2(k)
  }

  /** Positive int64 durations, as WithDefaults leaves them. */
  predicate Positive(c: Config) {
    0 < c.initialBackoff < 2 * TWO_62 && 0 < c.maxBackoff < 2 * TWO_62
  }

  /** No delay up to the `n`-th is computed by doubling 2^62 ns (146 years) or more. */
  predicate NoOverflow(c: Config, n: nat) {
    n == 0 || (c.initialBackoff < TWO_62 && (c.maxBackoff < TWO_62 || c.initialBackoff * Pow2(n - 1) < TWO_62))
  }

  lemma Doubled(a: int, k: nat)
    requires a > 0
    ensures a * Pow2(k + 1) == 2 * (a * Pow2(k)) && a * Pow2(k) >= 1 && Pow2(k) > k
  {
    if k > 0 {
      Doubled(a, k - 1);
    }
  }

  /** One doubling follows the closed form, as long as the delay is below 2^62 ns. */
  lemma BackoffStep(c: Config, k: nat)
    requires Positive(c)
    ensures 0 < Backoff(c, k) < 2 * TWO_62
    ensures Backoff(c, k) < TWO_62 ==> NextBackoff(Backoff(c, k), c.maxBackoff) == Backoff(c, k + 1)
  {
    Doubled(c.initialBackoff, k);
  }

  lemma {:induction false} DelayIsBackoff(c: Config, n: nat)
    requires Positive(c) && NoOverflow(c, n)
    ensures Delay(c, n) == Backoff(c, n) && forall k: nat :: k <= n ==> NoOverflow(c, k)
  {
    if n > 0 {
      if n > 1 {
        Doubled(c.initialBackoff, n - 2);
      }
      DelayIsBackoff(c, n - 1);
      BackoffStep(c, n - 1);
    }
  }

  lemma {:induction false} Overflowed(c: Config, n: nat) returns (m: nat)
    requires Positive(c) && !NoOverflow(c, n)
    ensures m <= n && Delay(c, m) <= 0
  {
    if NoOverflow(c, n - 1) {
      m := n;
      DelayIsBackoff(c, n - 1);
      BackoffStep(c, n - 1);
      assert TWO_62 <= Backoff(c, n - 1) && NextBackoff(Backoff(c, n - 1), c.maxBackoff) <= 0;
    } else {
      m := Overflowed(c, n - 1);
    }
  }

  /** The first `n` delays are min(initial * 2^k, max) for k > 0, and are positive, exactly if no doubling overflows. */
  lemma ClosedFormUpTo(c: Config, n: nat)
    requires Positive(c)
    ensures NoOverflow(c, n) <==> forall k: nat :: k <= n ==> Delay(c, k) == Backoff(c, k)
    ensures NoOverflow(c, n) <==> forall k: nat :: k <= n ==> Delay(c, k) > 0
  {
    if NoOverflow(c, n) {
      forall k: nat | k <= n ensures Delay(c, k) == Backoff(c, k) > 0 {
        DelayIsBackoff(c, n);
        DelayIsBackoff(c, k);
        BackoffStep(c, k);
      }
    } else {
      var m := Overflowed(c, n);
      BackoffStep(c, m);
    }
  }

  /** Both durations below 2^62 ns. */
  predicate Sane(c: Config) {
    c.initialBackoff < TWO_62 && c.maxBackoff < TWO_62
  }

  lemma ProductGrows(a: int, p: int, b: int)
    requires a >= 1 && p >= b >= 0
    ensures a * p >= b
  {}

  lemma InsaneOverflows(c: Config) returns (n: nat)
    requires Positive(c) && !Sane(c)
    ensures !NoOverflow(c, n)
  {
    n :| n > TWO_62;
    Doubled(c.initialBackoff, n - 1);
    ProductGrows(c.initialBackoff, Pow2(n - 1), TWO_62);
  }

  /** All delays are min(initial * 2^k, max) for k > 0, and are positive, exactly if both durations are below 2^62 ns. */
  lemma ClosedForm(c: Config)
    requires Positive(c)
    ensures Sane(c) <==> forall k: nat :: Delay(c, k) == Backoff(c, k)
    ensures Sane(c) <==> forall k: nat :: Delay(c, k) > 0
  {
    if Sane(c) {
      forall k: nat ensures Delay(c, k) == Backoff(c, k) > 0 {
        ClosedFormUpTo(c, k);
      }
    } else {
      var n := InsaneOverflows(c);
      ClosedFormUpTo(c, n);
    }
  }

  // ----- The loop

  /** What happens after an invalid check: the backoff elapses and subscribe is called, or the context ends. */
  datatype Retry = Elapsed(subscribed: bool) | Interrupted

  datatype Input = CtxDone | Check(valid: bool, retry: Retry)

  datatype Entry =
    | Healthy                     // a check that found the subscription valid
    | Invalid(attempt: nat)       // event
    | GiveUp(attempt: nat)        // event
    | Resubscribed(attempt: nat)  // event
    | Waited(delay: int)
    | Subscribed(ok: bool)        // a subscribe call
    | Unsubscribed(sub: SubId)

  datatype Status = Live | Cancelled | GaveUp

  datatype State = State(
    status: Status,
    attempts: nat,
    backoff: int,
    streak: nat,
    interval: int,
    sub: Option<SubId>,
    created: nat,                 // subscriptions 0 .. created-1 exist
    log: seq<Entry>)

  /** After the initial subscribe succeeded. */
  function Start(c: Config): State {
    State(Live, 0, c.initialBackoff, 0, c.checkInterval, Some(0), 1, [])
  }

  function Cleanup(s: State): State {
    s.(sub := None, log := if s.sub.Some? then s.log + [Unsubscribed(s.sub.value)] else s.log)
  }

  function HealthyInterval(c: Config, s: State): int {
    if c.healthyInterval > 0 && c.healthyChecks > 0 && s.streak + 1 >= c.healthyChecks && s.interval < c.healthyInterval
    then NextBackoff(s.interval, c.healthyInterval)
    else s.interval
  }

  function OnValid(c: Config, s: State): State {
    s.(attempts := 0, backoff := c.initialBackoff,
       streak := if c.healthyInterval > 0 && c.healthyChecks > 0 then s.streak + 1 else s.streak,
       interval := HealthyInterval(c, s), log := s.log + [Healthy])
  }

  function OnSubscribed(c: Config, s: State): State {
    s.(sub := Some(s.created), created := s.created + 1, backoff := c.initialBackoff,
       log := s.log + [Subscribed(true)]
              + (if s.sub.Some? then [Unsubscribed(s.sub.value)] else []) + [Resubscribed(s.attempts)])
  }

  function OnInvalid(c: Config, s: State, retry: Retry): State {
    var s1 := s.(streak := 0, interval := c.checkInterval, log := s.log + [Invalid(s.attempts)]);
    if c.maxRetries >= 0 && s.attempts >= c.maxRetries then
      Cleanup(s1.(log := s1.log + [GiveUp(s.attempts)])).(status := GaveUp)
    else
      Retried(c, s1, retry)
  }

  function Retried(c: Config, s: State, retry: Retry): State {
    var s2 := s.(attempts := s.attempts + 1, log := s.log + [Waited(s.backoff)]);
    match retry
    case Interrupted => Cleanup(s2).(status := Cancelled)
    case Elapsed(true) => OnSubscribed(c, s2)
    case Elapsed(false) => s2.(backoff := NextBackoff(s.backoff, c.maxBackoff), log := s2.log + [Subscribed(false)])
  }

  function Step(c: Config, s: State, i: Input): State {
    if s.status != Live then s
    else match i
      case CtxDone => Cleanup(s).(status := Cancelled)
      case Check(valid, retry) => if valid && s.sub.Some? then OnValid(c, s) else OnInvalid(c, s, retry)
  }

  function Run(c: Config, inputs: seq<Input>): State {
    if inputs == [] then Start(c) else Step(c, Run(c, inputs[..|inputs| - 1]), inputs[|inputs| - 1])
  }

  // ----- The log read declaratively

  /** Subscribe calls since the last healthy check. */
  function Tries(log: seq<Entry>): nat {
    if log == [] then 0
    else match log[|log| - 1]
      case Healthy => 0
      case Subscribed(_) => Tries(log[..|log| - 1]) + 1
      case _ => Tries(log[..|log| - 1])
  }

  /** Failed subscribe calls since the last successful one or the last healthy check. */
  function Fails(log: seq<Entry>): nat {
    if log == [] then 0
    else match log[|log| - 1]
      case Healthy => 0
      case Subscribed(ok) => if ok then 0 else Fails(log[..|log| - 1]) + 1
      case _ => Fails(log[..|log| - 1])
  }

  /** A give-up has been recorded. */
  predicate GivenUp(log: seq<Entry>) {
    log != [] && (log[|log| - 1].GiveUp? || GivenUp(log[..|log| - 1]))
  }

  /** What every entry must satisfy given the log before it; after a give-up only the subscription's
      removal is recorded. */
  predicate EntryOk(c: Config, before: seq<Entry>, e: Entry) {
    && (GivenUp(before) ==> e.Unsubscribed?)
    && match e
    case Subscribed(_) => c.maxRetries >= 0 ==> Tries(before) < c.maxRetries
    case GiveUp(n) => n == Tries(before) == c.maxRetries
    case Waited(d) => d == Delay(c, Fails(before)) && (c.maxRetries >= 0 ==> Tries(before) < c.maxRetries)
    case Invalid(n) => n == Tries(before)
    case Resubscribed(n) => n == Tries(before)
    case _ => true
  }

  predicate LogOk(c: Config, log: seq<Entry>) {
    log == [] || (LogOk(c, log[..|log| - 1]) && EntryOk(c, log[..|log| - 1], log[|log| - 1]))
  }

  lemma {:induction false} LogOkAt(c: Config, log: seq<Entry>, i: nat)
    requires LogOk(c, log) && i < |log|
    ensures EntryOk(c, log[..i], log[i])
  {
    var k := |log| - 1;
    if i < k {
      LogOkAt(c, log[..k], i);
      assert log[..k][..i] == log[..i];
    }
  }

  lemma Extend(c: Config, log: seq<Entry>, e: Entry)
    requires LogOk(c, log) && EntryOk(c, log, e)
    ensures LogOk(c, log + [e])
    ensures Tries(log + [e]) == (match e case Healthy => 0 case Subscribed(_) => Tries(log) + 1 case _ => Tries(log))
    ensures Fails(log + [e]) == (match e case Healthy => 0 case Subscribed(ok) => (if ok then 0 else Fails(log) + 1) case _ => Fails(log))
    ensures GivenUp(log + [e]) <==> GivenUp(log) || e.GiveUp?
  {
    assert (log + [e])[..|log|] == log;
  }

  // ----- What every step keeps

  ghost predicate Inv(c: Config, s: State) {
    && LogOk(c, s.log)
    && (s.status == Live ==>
          && s.sub.Some? && !GivenUp(s.log)
          && s.attempts == Tries(s.log) && s.backoff == Delay(c, Fails(s.log))
          && (c.maxRetries >= 0 ==> s.attempts <= c.maxRetries))
    && (s.status != Live ==> s.sub == None)
  }

  lemma EndKeeps(c: Config, s: State, end: Status)
    requires LogOk(c, s.log) && end != Live
    ensures Inv(c, Cleanup(s).(status := end))
  {
    if s.sub.Some? {
      Extend(c, s.log, Unsubscribed(s.sub.value));
    }
  }

  lemma GiveUpKeeps(c: Config, s: State)
    requires LogOk(c, s.log) && !GivenUp(s.log) && s.attempts == Tries(s.log) == c.maxRetries
    ensures Inv(c, Cleanup(s.(log := s.log + [GiveUp(s.attempts)])).(status := GaveUp))
  {
    Extend(c, s.log, GiveUp(s.attempts));
    EndKeeps(c, s.(log := s.log + [GiveUp(s.attempts)]), GaveUp);
  }

  /** A live state in which another attempt is allowed. */
  ghost predicate MayRetry(c: Config, s: State) {
    Inv(c, s) && s.status == Live && (c.maxRetries >= 0 ==> s.attempts < c.maxRetries)
  }

  lemma InterruptedKeeps(c: Config, s: State)
    requires MayRetry(c, s)
    ensures Inv(c, Retried(c, s, Interrupted))
  {
    Extend(c, s.log, Waited(s.backoff));
    EndKeeps(c, s.(attempts := s.attempts + 1, log := s.log + [Waited(s.backoff)]), Cancelled);
  }

  lemma FailedKeeps(c: Config, s: State)
    requires MayRetry(c, s)
    ensures Inv(c, Retried(c, s, Elapsed(false)))
  {
    var l1 := s.log + [Waited(s.backoff)];
    Extend(c, s.log, Waited(s.backoff));
    Extend(c, l1, Subscribed(false));
  }

  lemma ResubscribedKeeps(c: Config, s: State)
    requires MayRetry(c, s)
    ensures Inv(c, Retried(c, s, Elapsed(true)))
  {
    var l1 := s.log + [Waited(s.backoff)];
    Extend(c, s.log, Waited(s.backoff));
    var l2 := l1 + [Subscribed(true)];
    Extend(c, l1, Subscribed(true));
    var l3 := l2 + [Unsubscribed(s.sub.value)];
    Extend(c, l2, Unsubscribed(s.sub.value));
    Extend(c, l3, Resubscribed(s.attempts + 1));
    assert Retried(c, s, Elapsed(true)).log == l3 + [Resubscribed(s.attempts + 1)];
  }

  lemma InvalidKeeps(c: Config, s: State, retry: Retry)
    requires Inv(c, s) && s.status == Live
    ensures Inv(c, OnInvalid(c, s, retry))
  {
    var s1 := s.(streak := 0, interval := c.checkInterval, log := s.log + [Invalid(s.attempts)]);
    Extend(c, s.log, Invalid(s.attempts));
    if c.maxRetries >= 0 && s.attempts >= c.maxRetries {
      GiveUpKeeps(c, s1);
    } else {
      assert OnInvalid(c, s, retry) == Retried(c, s1, retry);
      match retry
      case Interrupted => InterruptedKeeps(c, s1);
      case Elapsed(true) => ResubscribedKeeps(c, s1);
      case Elapsed(false) => FailedKeeps(c, s1);
    }
  }

  /** In every run: at most MaxRetries subscribe calls between healthy checks; a give-up happens only at
      exactly MaxRetries of them and nothing but the final unsubscribe follows it; every wait is the
      delay for the failures so far; events carry the number of calls made. */
  lemma {:induction false} RunsAreOrderly(c: Config, inputs: seq<Input>)
    ensures Inv(c, Run(c, inputs))
  {
    if inputs != [] {
      RunsAreOrderly(c, inputs[..|inputs| - 1]);
      var s, i := Run(c, inputs[..|inputs| - 1]), inputs[|inputs| - 1];
      if s.status != Live {
      } else if i.CtxDone? {
        EndKeeps(c, s, Cancelled);
      } else if i.valid {
        Extend(c, s.log, Healthy);
      } else {
        InvalidKeeps(c, s, i.retry);
      }
    }
  }

  // ----- The waits of a run

  lemma {:induction false} FailsAreTries(log: seq<Entry>)
    ensures Fails(log) <= Tries(log)
  {
    if log != [] {
      FailsAreTries(log[..|log| - 1]);
    }
  }

  /** No run of this configuration computes a delay by an overflowing doubling. */
  predicate Calm(c: Config) {
    c.maxRetries == 0 || if c.maxRetries < 0 then Sane(c) else NoOverflow(c, c.maxRetries - 1)
  }

  lemma CalmDelay(c: Config, k: nat)
    requires Positive(c) && Calm(c) && (c.maxRetries >= 0 ==> k < c.maxRetries)
    ensures Delay(c, k) == Backoff(c, k) > 0
  {
    BackoffStep(c, k);
    if c.maxRetries < 0 {
      ClosedForm(c);
    } else {
      ClosedFormUpTo(c, c.maxRetries - 1);
    }
  }

  /** Then every wait of every run is min(initial * 2^k, max) after k > 0 failures, and positive. */
  lemma CalmWaits(c: Config, inputs: seq<Input>, i: nat)
    requires Positive(c) && Calm(c) && i < |Run(c, inputs).log| && Run(c, inputs).log[i].Waited?
    ensures Run(c, inputs).log[i].delay == Backoff(c, Fails(Run(c, inputs).log[..i])) > 0
  {
    var log := Run(c, inputs).log;
    RunsAreOrderly(c, inputs);
    FailsAreTries(log[..i]);
    LogOkAt(c, log, i);
    CalmDelay(c, Fails(log[..i]));
  }

  /** `n` checks that find the subscription invalid, each followed by a failed subscribe call. */
  function Failing(n: nat): seq<Input> {
    if n == 0 then [] else Failing(n - 1) + [Check(false, Elapsed(false))]
  }

  lemma FailingStep(c: Config, s: State)
    requires s.status == Live && (c.maxRetries < 0 || s.attempts < c.maxRetries)
    ensures var r := Step(c, s, Check(false, Elapsed(false)));
      && r.status == Live && r.attempts == s.attempts + 1 && r.backoff == NextBackoff(s.backoff, c.maxBackoff)
      && r.log == s.log + [Invalid(s.attempts), Waited(s.backoff), Subscribed(false)]
  {}

  lemma FailingUnrolls(c: Config, n: nat)
    ensures Run(c, Failing(n + 1)) == Step(c, Run(c, Failing(n)), Check(false, Elapsed(false)))
  {
    assert Failing(n + 1)[..|Failing(n)|] == Failing(n);
  }

  lemma {:induction false} FailingRun(c: Config, n: nat)
    requires c.maxRetries < 0 || n <= c.maxRetries
    ensures var r := Run(c, Failing(n)); r.status == Live && r.attempts == n && r.backoff == Delay(c, n)
    ensures n > 0 ==> Waited(Delay(c, n - 1)) in Run(c, Failing(n)).log
  {
    if n > 0 {
      FailingRun(c, n - 1);
      FailingStep(c, Run(c, Failing(n - 1)));
      FailingUnrolls(c, n - 1);
    }
  }

  ghost predicate WaitsIn(c: Config, inputs: seq<Input>, d: int) {
    Waited(d) in Run(c, inputs).log
  }

  /** Every wait of every run is positive exactly for these configurations; with the others some run
      retries without waiting. */
  lemma WaitsPositive(c: Config)
    requires Positive(c)
    ensures Calm(c) <==> forall inputs, d :: WaitsIn(c, inputs, d) ==> d > 0
  {
    if Calm(c) {
      forall inputs, d | WaitsIn(c, inputs, d) ensures d > 0 {
        var i :| 0 <= i < |Run(c, inputs).log| && Run(c, inputs).log[i] == Waited(d);
        CalmWaits(c, inputs, i);
      }
    } else {
      var inputs, d := SpinningRun(c);
    }
  }

  lemma SpinningRun(c: Config) returns (inputs: seq<Input>, d: int)
    requires Positive(c) && !Calm(c)
    ensures WaitsIn(c, inputs, d) && d <= 0
  {
    var n: nat;
    if c.maxRetries < 0 {
      n := InsaneOverflows(c);
    } else {
      n := c.maxRetries - 1;
    }
    var m := Overflowed(c, n);
    FailingRun(c, m + 1);
    inputs, d := Failing(m + 1), Delay(c, m);
  }

  /** Unlimited retries with the largest duration as the cap, meaning no cap: some run spins. */
  lemma NoCapSpins(c: Config) returns (inputs: seq<Input>, d: int)
    requires c.maxRetries < 0 && c.initialBackoff == SECOND && c.maxBackoff == 2 * TWO_62 - 1
    ensures WaitsIn(c, inputs, d) && d <= 0
  {
    inputs, d := SpinningRun(c);
  }

  // ----- Ownership of subscriptions

  /** Every subscription ever created is the current one or was unsubscribed, and not both. */
  ghost predicate Owned(s: State) {
    && (s.sub.Some? ==> s.sub.value < s.created)
    && (forall id: nat :: id < s.created ==> (s.sub == Some(id) <==> Unsubscribed(id) !in s.log))
    && (forall id: nat :: Unsubscribed(id) in s.log ==> id < s.created)
  }

  lemma OwnedKept(c: Config, s: State, i: Input)
    requires Owned(s)
    ensures Owned(Step(c, s, i))
  {}

  /** No subscription is left behind by a run that was cancelled or gave up. */
  lemma {:induction false} NoSubscriptionLeaks(c: Config, inputs: seq<Input>)
    ensures Owned(Run(c, inputs))
    ensures Run(c, inputs).status != Live ==> forall id: nat :: id < Run(c, inputs).created ==> Unsubscribed(id) in Run(c, inputs).log
  {
    if inputs != [] {
      NoSubscriptionLeaks(c, inputs[..|inputs| - 1]);
      OwnedKept(c, Run(c, inputs[..|inputs| - 1]), inputs[|inputs| - 1]);
      EndedIsClean(c, inputs);
    }
  }

  lemma {:induction false} EndedIsClean(c: Config, inputs: seq<Input>)
    ensures Run(c, inputs).status != Live <==> Run(c, inputs).sub == None
  {
    if inputs != [] {
      EndedIsClean(c, inputs[..|inputs| - 1]);
    }
  }

  // ----- The loop itself

  class Supervised {
    const cfg: Config
    var status: Status
    var sub: Option<SubId>
    var created: nat
    var log: seq<Entry>

    constructor (c: Config)
      ensures cfg == c && status == Live && sub == Some(0) && created == 1 && log == []
    {
      cfg := c;
      status, sub, created, log := Live, Some(0), 1, [];
    }

    method CleanupSub()
      modifies this`sub, this`log
      ensures sub == None && log == if old(sub).Some? then old(log) + [Unsubscribed(old(sub).value)] else old(log)
    {
      var old_ := sub;
      sub := None;
      if old_.Some? {
        log := log + [Unsubscribed(old_.value)];
      }
    }

    /** The loop over a finite prefix of its inputs. */
    method Loop(inputs: seq<Input>)
      requires status == Live && sub == Some(0) && created == 1 && log == []
      modifies this
      ensures var r := Run(cfg, inputs); status == r.status && sub == r.sub && created == r.created && log == r.log
    {
      var currentInterval := cfg.checkInterval;
      var attempts, backoff, healthyStreak := 0, cfg.initialBackoff, 0;
      var i := 0;
      ghost var at := Start(cfg);
      while i < |inputs|
        invariant 0 <= i <= |inputs| && status == Live && at == Run(cfg, inputs[..i])
        invariant at == State(status, attempts, backoff, healthyStreak, currentInterval, sub, created, log)
      {
        var input := inputs[i];
        RunStep(cfg, inputs, i);
        i, at := i + 1, Step(cfg, at, input);
        if input.CtxDone? {
          CleanupSub();
          status := Cancelled;
          break;
        }
        var valid := sub.Some? && input.valid;
        if valid {
          attempts := 0;
          backoff := cfg.initialBackoff;
          if cfg.healthyInterval > 0 && cfg.healthyChecks > 0 {
            healthyStreak := healthyStreak + 1;
            if healthyStreak >= cfg.healthyChecks && currentInterval < cfg.healthyInterval {
              var next := Double(currentInterval);
              if next > cfg.healthyInterval {
                next := cfg.healthyInterval;
              }
              currentInterval := next;
            }
          }
          log := log + [Healthy];
          continue;
        }
        healthyStreak := 0;
        currentInterval := cfg.checkInterval;
        log := log + [Invalid(attempts)];
        if cfg.maxRetries >= 0 && attempts >= cfg.maxRetries {
          log := log + [GiveUp(attempts)];
          CleanupSub();
          status := GaveUp;
          break;
        }
        attempts := attempts + 1;
        log := log + [Waited(backoff)];
        if input.retry.Interrupted? {
          CleanupSub();
          status := Cancelled;
          break;
        }
        log := log + [Subscribed(input.retry.subscribed)];
        if !input.retry.subscribed {
          backoff := NextBackoff(backoff, cfg.maxBackoff);
          continue;
        }
        Replace(attempts);
        backoff := cfg.initialBackoff;
      }
      Settled(cfg, inputs, i);
    }

    /** A new subscription takes the place of the old one, which is unsubscribed. */
    method Replace(attempts: nat)
      modifies this`sub, this`created, this`log
      ensures sub == Some(old(created)) && created == old(created) + 1
      ensures log == old(log) + (if old(sub).Some? then [Unsubscribed(old(sub).value)] else []) + [Resubscribed(attempts)]
    {
      var previous := sub;
      sub, created := Some(created), created + 1;
      if previous.Some? {
        log := log + [Unsubscribed(previous.value)];
      }
      log := log + [Resubscribed(attempts)];
    }
  }

  lemma RunStep(c: Config, inputs: seq<Input>, i: nat)
    requires i < |inputs|
    ensures Run(c, inputs[..i + 1]) == Step(c, Run(c, inputs[..i]), inputs[i])
  {
    assert inputs[..i + 1][..i] == inputs[..i];
  }

  /** A run that has ended ignores the rest of its inputs. */
  lemma {:induction false} Settled(c: Config, inputs: seq<Input>, i: nat)
    requires i <= |inputs| && (Run(c, inputs[..i]).status != Live || i == |inputs|)
    ensures Run(c, inputs) == Run(c, inputs[..i])
    decreases |inputs|
  {
    if i < |inputs| {
      var k := |inputs| - 1;
      assert inputs[..k][..i] == inputs[..i];
      Settled(c, inputs[..k], i);
    } else {
      assert inputs[..i] == inputs;
    }
  }

  // ----- Restarting Pull.Process

  datatype RunEnd = Succeeded | Ended | Failed(interrupted: bool)   // Ended: the context's own error

  datatype PullResult = Returned(ok: bool) | AllRetriesFailed | WaitCancelled | StillRunning

  /** Runs until one ends the loop; the waits between failures are the backoff sequence. */
  method SupervisePullProcess(c: Config, ends: seq<RunEnd>) returns (r: PullResult, runs: nat, waits: seq<int>)
    ensures runs <= |ends| && (c.maxRetries >= 0 ==> runs <= c.maxRetries + 1)
    ensures forall i :: 0 <= i < runs - 1 ==> ends[i] == Failed(false)
    ensures waits == Delays(c, |waits|)
    ensures |waits| == if r.WaitCancelled? || r.StillRunning? then runs else runs - 1
    ensures r.Returned? ==> runs > 0 && ends[runs - 1] == if r.ok then Succeeded else Ended
    ensures r.AllRetriesFailed? ==> runs == c.maxRetries + 1 && ends[runs - 1].Failed?
    ensures r.WaitCancelled? ==> runs > 0 && ends[runs - 1] == Failed(true)
    ensures (r.WaitCancelled? || r.StillRunning?) && c.maxRetries >= 0 ==> runs <= c.maxRetries
    ensures r.StillRunning? ==> runs == |ends| && forall i :: 0 <= i < runs ==> ends[i] == Failed(false)
  {
    var attempts, backoff := 0, c.initialBackoff;
    runs, waits := 0, [];
    while runs < |ends|
      invariant runs <= |ends| && attempts == runs == |waits| && (c.maxRetries >= 0 ==> runs <= c.maxRetries)
      invariant backoff == Delay(c, runs)
      invariant forall i :: 0 <= i < runs ==> ends[i] == Failed(false)
      invariant waits == Delays(c, runs)
    {
      var e := ends[runs];
      runs := runs + 1;
      if !e.Failed? {
        return Returned(e.Succeeded?), runs, waits;
      }
      if c.maxRetries >= 0 && attempts >= c.maxRetries {
        return AllRetriesFailed, runs, waits;
      }
      attempts := attempts + 1;
      waits := waits + [backoff];
      if e.interrupted {
        return WaitCancelled, runs, waits;
      }
      backoff := NextBackoff(backoff, c.maxBackoff);
    }
    return StillRunning, runs, waits;
  }
}
