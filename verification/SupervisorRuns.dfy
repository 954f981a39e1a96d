/** What a supervised subscription does, told from its inputs alone: when the loop ends and how, which events
    and calls the log holds, and how often the subscription is looked at. */
module SupervisorRuns {
  import opened Basics
  import opened Supervisor

  // ----- When the loop ends

  /** The last checks in a row that found the subscription invalid. */
  function InvalidRun(inputs: seq<Input>): nat {
    if inputs == [] then 0
    else
      var k := |inputs| - 1;
      if inputs[k].Check? && !inputs[k].valid then InvalidRun(inputs[..k]) + 1 else 0
  }

  /** The last checks in a row that found it valid. */
  function ValidRun(inputs: seq<Input>): nat {
    if inputs == [] then 0
    else
      var k := |inputs| - 1;
      if inputs[k].Check? && inputs[k].valid then ValidRun(inputs[..k]) + 1 else 0
  }

  /** After MaxRetries invalid checks in a row, another one. */
  predicate Exhausted(c: Config, before: seq<Input>, i: Input) {
    i.Check? && !i.valid && c.maxRetries >= 0 && InvalidRun(before) >= c.maxRetries
  }

  /** The context ends, at the check or during the wait of an allowed attempt. */
  predicate Ends(c: Config, before: seq<Input>, i: Input) {
    i.CtxDone? || (!i.valid && i.retry.Interrupted? && !Exhausted(c, before, i))
  }

  ghost predicate StopAt(c: Config, inputs: seq<Input>, k: int) {
    0 <= k < |inputs| && (Exhausted(c, inputs[..k], inputs[k]) || Ends(c, inputs[..k], inputs[k]))
  }

  /** The input at which the loop ends. */
  ghost predicate FirstStop(c: Config, inputs: seq<Input>, k: int) {
    StopAt(c, inputs, k) && forall j :: 0 <= j < k ==> !StopAt(c, inputs, j)
  }

  ghost predicate Told(c: Config, inputs: seq<Input>, s: State) {
    match s.status
    case Live => s.attempts == InvalidRun(inputs) && forall k :: !StopAt(c, inputs, k)
    case GaveUp => exists k :: FirstStop(c, inputs, k) && Exhausted(c, inputs[..k], inputs[k])
    case Cancelled => exists k :: FirstStop(c, inputs, k) && Ends(c, inputs[..k], inputs[k])
  }

  lemma StopStays(c: Config, before: seq<Input>, i: Input, k: int)
    requires k < |before|
    ensures StopAt(c, before + [i], k) <==> StopAt(c, before, k)
  {
    if 0 <= k {
      assert (before + [i])[..k] == before[..k];
    }
  }

  lemma FirstStopStays(c: Config, before: seq<Input>, i: Input, k: int)
    requires FirstStop(c, before, k)
    ensures FirstStop(c, before + [i], k) && (before + [i])[..k] == before[..k]
  {
    forall j | 0 <= j <= k ensures StopAt(c, before + [i], j) <==> StopAt(c, before, j) {
      StopStays(c, before, i, j);
    }
  }

  lemma ToldStep(c: Config, before: seq<Input>, i: Input, s: State)
    requires Told(c, before, s) && (s.status == Live ==> s.sub.Some?)
    ensures Told(c, before + [i], Step(c, s, i))
  {
    var all := before + [i];
    assert all[..|before|] == before && all[|before|] == i;
    if s.status == Live {
      forall k | k < |before| ensures !StopAt(c, all, k) {
        StopStays(c, before, i, k);
      }
      if StopAt(c, all, |before|) {
        assert FirstStop(c, all, |before|);
      }
    } else {
      var k :| FirstStop(c, before, k)
        && if s.status == GaveUp then Exhausted(c, before[..k], before[k]) else Ends(c, before[..k], before[k]);
      FirstStopStays(c, before, i, k);
    }
  }

  /** The loop is live exactly until the first check that finds MaxRetries invalid ones in a row before it,
      where it gives up, or the end of the context, where it is cancelled; and attempts counts those checks. */
  lemma {:induction false} EndsExactly(c: Config, inputs: seq<Input>)
    ensures Told(c, inputs, Run(c, inputs))
  {
    if inputs != [] {
      var k := |inputs| - 1;
      EndsExactly(c, inputs[..k]);
      RunsAreOrderly(c, inputs[..k]);
      assert inputs == inputs[..k] + [inputs[k]];
      ToldStep(c, inputs[..k], inputs[k], Run(c, inputs[..k]));
    }
  }

  // ----- What is in the log

  /** How many entries of each kind. */
  datatype Tally = Tally(healthy: nat, invalid: nat, giveUps: nat, resubscribed: nat, waits: nat, calls: nat, successes: nat)

  function Add(t: Tally, e: Entry): Tally {
    match e
    case Healthy => t.(healthy := t.healthy + 1)
    case Invalid(_) => t.(invalid := t.invalid + 1)
    case GiveUp(_) => t.(giveUps := t.giveUps + 1)
    case Resubscribed(_) => t.(resubscribed := t.resubscribed + 1)
    case Waited(_) => t.(waits := t.waits + 1)
    case Subscribed(ok) => t.(calls := t.calls + 1, successes := t.successes + if ok then 1 else 0)
    case Unsubscribed(_) => t
  }

  function Count(log: seq<Entry>): Tally {
    if log == [] then Tally(0, 0, 0, 0, 0, 0, 0) else Add(Count(log[..|log| - 1]), log[|log| - 1])
  }

  lemma CountLast(log: seq<Entry>, e: Entry)
    ensures Count(log + [e]) == Add(Count(log), e)
  {
    assert (log + [e])[..|log|] == log;
  }

  /** Checks of the inputs that found the subscription valid or invalid. */
  function Checks(inputs: seq<Input>, valid: bool): nat {
    if inputs == [] then 0
    else
      var k := |inputs| - 1;
      Checks(inputs[..k], valid) + if inputs[k].Check? && inputs[k].valid == valid then 1 else 0
  }

  /** Subscribe calls of the inputs that succeeded. */
  function Successes(inputs: seq<Input>): nat {
    if inputs == [] then 0
    else
      var k := |inputs| - 1;
      Successes(inputs[..k]) + if inputs[k].Check? && !inputs[k].valid && inputs[k].retry == Elapsed(true) then 1 else 0
  }

  /** What one step adds to the log, entry by entry. */
  lemma StepLog(c: Config, s: State, i: Input)
    requires s.status == Live && s.sub.Some?
    ensures var t, t', s' := Count(s.log), Count(Step(c, s, i).log), Step(c, s, i);
      && t'.healthy == t.healthy + (if i.Check? && i.valid then 1 else 0)
      && t'.invalid == t.invalid + (if i.Check? && !i.valid then 1 else 0)
      && t'.giveUps == t.giveUps + (if s'.status == GaveUp then 1 else 0)
      && t'.waits == t.waits + (if i.Check? && !i.valid && s'.status != GaveUp then 1 else 0)
      && t'.calls == t.calls + (if i.Check? && !i.valid && s'.status == Live then 1 else 0)
      && t'.successes == t.successes + (if i.Check? && !i.valid && s'.status == Live && i.retry == Elapsed(true) then 1 else 0)
      && t'.resubscribed - t.resubscribed == t'.successes - t.successes == s'.created - s.created
  {
    var log := s.log;
    if i.CtxDone? {
      CountLast(log, Unsubscribed(s.sub.value));
    } else if i.valid {
      CountLast(log, Healthy);
    } else {
      InvalidLog(c, s, i.retry);
    }
  }

  /** What an attempt adds. */
  function AddAttempt(t: Tally, retry: Retry): Tally {
    var t' := t.(waits := t.waits + 1);
    if retry.Interrupted? then t'
    else if !retry.subscribed then t'.(calls := t.calls + 1)
    else t'.(calls := t.calls + 1, successes := t.successes + 1, resubscribed := t.resubscribed + 1)
  }

  lemma InvalidLog(c: Config, s: State, retry: Retry)
    requires s.status == Live && s.sub.Some?
    ensures var t, s' := Count(s.log).(invalid := Count(s.log).invalid + 1), OnInvalid(c, s, retry);
      && Count(s'.log) == (if s'.status == GaveUp then t.(giveUps := t.giveUps + 1) else AddAttempt(t, retry))
      && s'.created == s.created + (if s'.status == Live && retry == Elapsed(true) then 1 else 0)
      && (s'.status == Cancelled ==> retry.Interrupted?) && (s'.status == Live ==> retry.Elapsed?)
  {
    var s1 := s.(streak := 0, interval := c.checkInterval, log := s.log + [Invalid(s.attempts)]);
    if OnInvalid(c, s, retry).status == GaveUp {
      CountThree(s.log, s1.log, s1.log + [GiveUp(s.attempts)], OnInvalid(c, s, retry).log,
                 Invalid(s.attempts), GiveUp(s.attempts), Unsubscribed(s.sub.value));
    } else {
      CountLast(s.log, Invalid(s.attempts));
      RetriedLog(c, s1, retry);
    }
  }

  lemma RetriedLog(c: Config, s: State, retry: Retry)
    requires s.status == Live && s.sub.Some?
    ensures var s' := Retried(c, s, retry);
      && Count(s'.log) == AddAttempt(Count(s.log), retry)
      && s'.created == s.created + (if retry == Elapsed(true) then 1 else 0)
      && s'.status == if retry.Interrupted? then Cancelled else Live
  {
    var l, s' := s.log + [Waited(s.backoff)], Retried(c, s, retry);
    match retry
    case Interrupted => CountTwo(s.log, l, s'.log, Waited(s.backoff), Unsubscribed(s.sub.value));
    case Elapsed(false) => CountTwo(s.log, l, s'.log, Waited(s.backoff), Subscribed(false));
    case Elapsed(true) =>
      CountLast(s.log, Waited(s.backoff));
      CountReplaced(l, s'.log, s.sub.value, s.attempts + 1);
  }

  lemma CountTwo(l: seq<Entry>, l1: seq<Entry>, l2: seq<Entry>, a: Entry, b: Entry)
    requires l1 == l + [a] && l2 == l1 + [b]
    ensures Count(l2) == Add(Add(Count(l), a), b)
  {
    CountLast(l, a);
    CountLast(l1, b);
  }

  lemma CountReplaced(l: seq<Entry>, l': seq<Entry>, previous: SubId, attempts: nat)
    requires l' == l + [Subscribed(true)] + [Unsubscribed(previous)] + [Resubscribed(attempts)]
    ensures Count(l') == Count(l).(calls := Count(l).calls + 1, successes := Count(l).successes + 1, resubscribed := Count(l).resubscribed + 1)
  {
    var l1 := l + [Subscribed(true)];
    var l2 := l1 + [Unsubscribed(previous)];
    CountThree(l, l1, l2, l', Subscribed(true), Unsubscribed(previous), Resubscribed(attempts));
  }

  lemma CountThree(l: seq<Entry>, l1: seq<Entry>, l2: seq<Entry>, l3: seq<Entry>, a: Entry, b: Entry, e: Entry)
    requires l1 == l + [a] && l2 == l1 + [b] && l3 == l2 + [e]
    ensures Count(l3) == Add(Add(Add(Count(l), a), b), e)
  {
    CountLast(l, a);
    CountLast(l1, b);
    CountLast(l2, e);
  }

  ghost predicate Accounted(inputs: seq<Input>, s: State) {
    var t := Count(s.log);
    && t.giveUps == (if s.status == GaveUp then 1 else 0)
    && t.resubscribed == t.successes == s.created - 1
    && t.invalid == t.waits + t.giveUps
    && (s.status != Cancelled ==> t.waits == t.calls) && t.calls <= t.waits <= t.calls + 1
    && (s.status == Live ==>
          t.healthy == Checks(inputs, true) && t.invalid == Checks(inputs, false) && t.successes == Successes(inputs))
  }

  /** In every run: one give-up event exactly if it gave up; one event for every subscribe call that
      succeeded, of which the inputs decide; every invalid check reported, and followed by one wait and one
      call unless it was the last. */
  lemma {:induction false} LogIsComplete(c: Config, inputs: seq<Input>)
    ensures Accounted(inputs, Run(c, inputs))
  {
    if inputs != [] {
      var k := |inputs| - 1;
      LogIsComplete(c, inputs[..k]);
      RunsAreOrderly(c, inputs[..k]);
      var s := Run(c, inputs[..k]);
      if s.status == Live {
        StepLog(c, s, inputs[k]);
      }
    }
  }

  // ----- How often the subscription is looked at

  /** A larger interval is configured for a healthy subscription. */
  predicate Adapts(c: Config) {
    c.healthyInterval > 0 && c.healthyChecks > 0 && c.checkInterval < c.healthyInterval
  }

  /** Intervals are int64, and the base one is positive after WithDefaults. */
  predicate Ticks(c: Config) {
    0 < c.checkInterval < 2 * TWO_62 && c.healthyInterval < 2 * TWO_62
  }

  /** The two intervals, as a backoff from the one to the other. */
  function Polling(c: Config): Config {
    c.(initialBackoff := c.checkInterval, maxBackoff := c.healthyInterval)
  }

  /** No interval below the healthy one is 2^62 ns or more when it is doubled. */
  ghost predicate Fits(c: Config) {
    Adapts(c) ==> forall k: nat :: c.checkInterval * Pow2(k) < TWO_62 || c.checkInterval * Pow2(k) >= c.healthyInterval
  }

  /** How often the interval has been doubled. */
  function Doublings(c: Config, streak: nat): nat {
    if streak < c.healthyChecks then 0 else streak - c.healthyChecks + 1
  }

  ghost predicate IntervalIs(c: Config, streak: nat, s: State) {
    if Adapts(c) then s.streak == streak && s.interval == Backoff(Polling(c), Doublings(c, streak))
    else s.interval == c.checkInterval
  }

  lemma IntervalStep(c: Config, s: State, streak: nat)
    requires Ticks(c) && IntervalIs(c, streak, s)
    requires Adapts(c) && streak + 1 >= c.healthyChecks ==>
      var l := Backoff(Polling(c), Doublings(c, streak)); l < TWO_62 || l == c.healthyInterval
    ensures IntervalIs(c, streak + 1, OnValid(c, s))
  {
    if Adapts(c) {
      BackoffStep(Polling(c), Doublings(c, streak));
      Doubled(c.checkInterval, Doublings(c, streak));
    }
  }

  lemma FitsBelow(c: Config, k: nat)
    requires Ticks(c) && Adapts(c) && Fits(c)
    ensures Backoff(Polling(c), k) < TWO_62 || Backoff(Polling(c), k) == c.healthyInterval
  {
    assert Pow2(0) == 1;
    assert c.checkInterval * Pow2(k) < TWO_62 || c.checkInterval * Pow2(k) >= c.healthyInterval;
    assert c.checkInterval * Pow2(0) == c.checkInterval;
  }

  /** A live run looks at the subscription every checkInterval, and once the last HealthyChecks checks in a row
      were healthy, at an interval doubled with each further one up to the healthy interval. */
  lemma {:induction false} IntervalExact(c: Config, inputs: seq<Input>)
    requires Ticks(c) && Fits(c) && Run(c, inputs).status == Live
    ensures IntervalIs(c, ValidRun(inputs), Run(c, inputs))
  {
    if inputs != [] {
      var k := |inputs| - 1;
      IntervalExact(c, inputs[..k]);
      RunsAreOrderly(c, inputs[..k]);
      var s, streak := Run(c, inputs[..k]), ValidRun(inputs[..k]);
      if inputs[k].valid {
        if Adapts(c) {
          FitsBelow(c, Doublings(c, streak));
        }
        IntervalStep(c, s, streak);
      }
    }
  }

  /** `n` healthy checks. */
  function AllValid(n: nat): seq<Input> {
    if n == 0 then [] else AllValid(n - 1) + [Check(true, Interrupted)]
  }

  lemma AllValidUnrolls(c: Config, n: nat)
    ensures Run(c, AllValid(n + 1)) == Step(c, Run(c, AllValid(n)), Check(true, Interrupted))
  {
    assert AllValid(n + 1)[..|AllValid(n)|] == AllValid(n);
  }

  ghost predicate BelowWrap(c: Config, k: nat) {
    forall j: nat :: j < k ==> c.checkInterval * Pow2(j) < TWO_62
  }

  lemma AllValidStep(c: Config, s: State, streak: nat, k: nat)
    requires Ticks(c) && Adapts(c) && IntervalIs(c, streak, s) && Doublings(c, streak + 1) <= k && BelowWrap(c, k)
    ensures IntervalIs(c, streak + 1, OnValid(c, s))
  {
    var d := Doublings(c, streak);
    if streak + 1 >= c.healthyChecks {
      assert c.checkInterval * Pow2(d) < TWO_62;
      assert d == 0 ==> Pow2(d) == 1;
    }
    IntervalStep(c, s, streak);
  }

  lemma {:induction false} AllValidRun(c: Config, n: nat, k: nat)
    requires Ticks(c) && Adapts(c) && Doublings(c, n) <= k && BelowWrap(c, k)
    ensures Run(c, AllValid(n)).status == Live && Run(c, AllValid(n)).sub.Some? && IntervalIs(c, n, Run(c, AllValid(n)))
  {
    if n > 0 {
      AllValidRun(c, n - 1, k);
      AllValidUnrolls(c, n - 1);
      AllValidStep(c, Run(c, AllValid(n - 1)), n - 1, k);
    }
  }

  lemma {:induction false} LeastOverflow(c: Config, k: nat) returns (m: nat)
    requires c.checkInterval > 0 && TWO_62 <= c.checkInterval * Pow2(k) < c.healthyInterval
    ensures TWO_62 <= c.checkInterval * Pow2(m) < c.healthyInterval
    ensures forall j: nat :: j < m ==> c.checkInterval * Pow2(j) < TWO_62
  {
    m := k;
    if j: nat :| j < k && c.checkInterval * Pow2(j) >= TWO_62 {
      PowersGrow(c.checkInterval, j, k);
      m := LeastOverflow(c, j);
    }
  }

  lemma {:induction false} PowersGrow(a: int, j: nat, k: nat)
    requires a > 0 && j <= k
    ensures a * Pow2(j) <= a * Pow2(k)
  {
    if j < k {
      PowersGrow(a, j, k - 1);
      Doubled(a, k - 1);
    }
  }

  /** Otherwise some run of healthy checks arrives at an interval that is not positive. */
  lemma IntervalWraps(c: Config) returns (inputs: seq<Input>)
    requires Ticks(c) && !Fits(c)
    ensures Run(c, inputs).status == Live && Run(c, inputs).interval <= 0
  {
    var k: nat :| TWO_62 <= c.checkInterval * Pow2(k) < c.healthyInterval;
    var m := LeastOverflow(c, k);
    var n := c.healthyChecks + m - 1;
    AllValidRun(c, n, m);
    AllValidUnrolls(c, n);
    inputs := AllValid(n + 1);
    assert Doublings(c, n) == m;
    assert Pow2(0) == 1;
    assert Backoff(Polling(c), m) == c.checkInterval * Pow2(m);
  }

  /** The interval of every live run stays between the base and the healthy one exactly if no doubling wraps. */
  lemma IntervalBounded(c: Config)
    requires Ticks(c)
    ensures Fits(c) <==> forall inputs :: Run(c, inputs).status == Live ==> WithinBounds(c, Run(c, inputs))
  {
    if Fits(c) {
      forall inputs | Run(c, inputs).status == Live ensures WithinBounds(c, Run(c, inputs)) {
        IntervalExact(c, inputs);
        if Adapts(c) {
          PowersGrow(c.checkInterval, 0, Doublings(c, ValidRun(inputs)));
        }
      }
    } else {
      var inputs := IntervalWraps(c);
    }
  }

  predicate WithinBounds(c: Config, s: State) {
    c.checkInterval <= s.interval && (s.interval == c.checkInterval || s.interval <= c.healthyInterval)
  }

  // ----- The defaults

  /** With the zero configuration: ten attempts after 1, 2, 4, 8, 16 and then 30 seconds, and then the end. */
  lemma DefaultRun()
    ensures var c := WithDefaults(Config(0, 0, 0, 0, 0, 0));
      && Delays(c, 10) == [1_000_000_000, 2_000_000_000, 4_000_000_000, 8_000_000_000, 16_000_000_000,
                           30_000_000_000, 30_000_000_000, 30_000_000_000, 30_000_000_000, 30_000_000_000]
      && Run(c, Failing(10)).status == Live && Run(c, Failing(11)).status == GaveUp
  {
    var c := WithDefaults(Config(0, 0, 0, 0, 0, 0));
    assert Delay(c, 0) == 1_000_000_000 && Delay(c, 1) == 2_000_000_000 && Delay(c, 2) == 4_000_000_000;
    assert Delay(c, 3) == 8_000_000_000 && Delay(c, 4) == 16_000_000_000 && Delay(c, 5) == 30_000_000_000;
    assert Delay(c, 6) == 30_000_000_000 && Delay(c, 7) == 30_000_000_000 && Delay(c, 8) == 30_000_000_000;
    FailingRun(c, 10);
    FailingUnrolls(c, 10);
  }
}
