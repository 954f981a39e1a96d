/** The polling detectors: sustained slow consumers (slow_consumer.go) and backlog that grows without
    progress (soft_liveness.go).  A loop consumes a finite prefix of its polls. */
module Watchers {
  import opened Basics

  // ----- Slow consumer: one poll

  datatype SlowConfig = SlowConfig(
    sustainFor: int, pendingThreshold: nat, lagThreshold: nat, ackPendingRatio: real, circuitStop: bool)

  function SlowDefaults(c: SlowConfig): SlowConfig
  {
    c.(sustainFor := if c.sustainFor <= 0 then 30 * SECOND else c.sustainFor,
       pendingThreshold := if c.pendingThreshold == 0 then 1000 else c.pendingThreshold,
       lagThreshold := if c.lagThreshold == 0 then 1000 else c.lagThreshold,
       ackPendingRatio := if c.ackPendingRatio <= 0.0 then 0.9 else c.ackPendingRatio)
  }

  datatype Reason = Pending | Lag | AckPending

  function ConsumerLagMessages(streamLast: nat, delivered: nat): (r: nat)
    ensures r > 0 <==> streamLast > delivered
    ensures streamLast >= delivered ==> delivered + r == streamLast
  {
    if streamLast <= delivered then 0 else streamLast - delivered
  }

  /** At least the whole part of the given share of MaxAckPending, and at least one. */
  predicate AckPendingHigh(ackPending: int, maxAckPending: int, ratio: real) {
    maxAckPending > 0 && ackPending >= 1 && ackPending as real > maxAckPending as real * ratio - 1.0
  }

  method EvaluateSlowConsumer(pending: nat, lag: nat, ackPending: int, maxAckPending: int, c0: SlowConfig)
    returns (slow: bool, reasons: seq<Reason>)
    ensures Pending in reasons <==> pending >= if c0.pendingThreshold == 0 then 1000 else c0.pendingThreshold
    ensures Lag in reasons <==> lag >= if c0.lagThreshold == 0 then 1000 else c0.lagThreshold
    ensures AckPending in reasons <==>
      AckPendingHigh(ackPending, maxAckPending, if c0.ackPendingRatio <= 0.0 then 0.9 else c0.ackPendingRatio)
    ensures slow <==> reasons != []
    ensures Distinct(reasons)
  {
    var c := SlowDefaults(c0);
    reasons := [];
    if pending >= c.pendingThreshold {
      reasons := reasons + [Pending];
    }
    if lag >= c.lagThreshold {
      reasons := reasons + [Lag];
    }
    if maxAckPending > 0 {
      var limit := (maxAckPending as real * c.ackPendingRatio).Floor;
      if limit < 1 {
        limit := 1;
      }
      if ackPending >= limit {
        reasons := reasons + [AckPending];
      }
    }
    slow := |reasons| > 0;
  }

  // ----- Slow consumer: the loop

  /** One poll after evaluation: whether the thresholds are exceeded (a failed request counts as not),
      and the clock reading. */
  datatype Poll = Poll(slow: bool, now: int)

  ghost predicate Unbroken(ps: seq<Poll>, j: int, i: int) {
    0 <= j <= i < |ps| && forall k :: j <= k <= i ==> ps[k].slow
  }

  /** Poll `i` ends an unbroken run of slow polls that spans at least `sustain`. */
  ghost predicate Sustained(ps: seq<Poll>, sustain: int, i: int) {
    exists j :: Unbroken(ps, j, i) && ps[i].now - ps[j].now >= sustain
  }

  ghost predicate ClockRuns(ps: seq<Poll>) {
    forall i, j :: 0 <= i <= j < |ps| ==> ps[i].now <= ps[j].now
  }

  datatype SlowEvent = SlowEvent(at: nat, sustained: int)

  /** Poll `j` is the first of the unbroken run that contains poll `i`. */
  ghost predicate Begins(ps: seq<Poll>, j: int, i: int) {
    Unbroken(ps, j, i) && (j == 0 || !ps[j - 1].slow)
  }

  /** The one event a run must report: at the first poll that ends a sustained run, with the length of
      that run measured from its first poll. */
  ghost predicate FirstEvent(ps: seq<Poll>, sustain: int, e: SlowEvent) {
    && e.at < |ps| && Sustained(ps, sustain, e.at)
    && (forall i :: 0 <= i < e.at ==> !Sustained(ps, sustain, i))
    && exists j :: Begins(ps, j, e.at) && e.sustained == ps[e.at].now - ps[j].now
  }

  /** With a running clock, looking at the first poll of the run is enough. */
  lemma SustainedFromStart(ps: seq<Poll>, sustain: int, start: int, i: int)
    requires ClockRuns(ps) && Begins(ps, start, i)
    ensures Sustained(ps, sustain, i) <==> ps[i].now - ps[start].now >= sustain
  {
    if j :| Unbroken(ps, j, i) && ps[i].now - ps[j].now >= sustain {
      assert j >= start;
    }
  }

  /** At most one event ever, and none only if no run of slow polls was ever sustained. */
  method WatchSlowConsumer(ps: seq<Poll>, sustainFor: int, circuitStop: bool)
    returns (events: seq<SlowEvent>, slow: bool, seen: nat)
    requires ClockRuns(ps) && sustainFor > 0
    ensures seen <= |ps| && (seen < |ps| ==> circuitStop && events != [])
    ensures |events| <= 1 && (slow <==> events != [])
    ensures events == [] ==> forall i :: 0 <= i < |ps| ==> !Sustained(ps, sustainFor, i)
    ensures events != [] ==> FirstEvent(ps, sustainFor, events[0])
  {
    events, slow, seen := [], false, 0;
    var breachStart, haveBreach := 0, false;
    ghost var start := 0;
    while seen < |ps|
      invariant seen <= |ps| && |events| <= 1 && (slow <==> events != []) && (circuitStop ==> !slow)
      invariant !slow && haveBreach ==> 0 < seen && Begins(ps, start, seen - 1) && breachStart == ps[start].now
      invariant !slow && !haveBreach ==> seen == 0 || !ps[seen - 1].slow
      invariant !slow ==> forall i :: 0 <= i < seen ==> !Sustained(ps, sustainFor, i)
      invariant slow ==> FirstEvent(ps, sustainFor, events[0])
      decreases |ps| - seen
    {
      var p := ps[seen];
      seen := seen + 1;
      if !p.slow {
        haveBreach := false;
        continue;
      }
      if !haveBreach {
        breachStart, haveBreach, start := p.now, true, seen - 1;
      }
      var sustained := p.now - breachStart;
      if !slow {
        assert Begins(ps, start, seen - 1);
        SustainedFromStart(ps, sustainFor, start, seen - 1);
      }
      if sustained < sustainFor {
        continue;
      }
      if slow && !circuitStop {
        continue;
      }
      slow, events := true, events + [SlowEvent(seen - 1, sustained)];
      if circuitStop {
        return;
      }
      haveBreach := false;
    }
  }

  // ----- Soft liveness

  /** A successful poll: the backlog, and the time since the last processed message. */
  datatype Info = Info(pending: nat, idle: int)

  datatype Probe = Failed | Ok(info: Info)

  function Successes(ps: seq<Probe>): (r: seq<Info>) {
    if ps == [] then []
    else Successes(ps[..|ps| - 1]) + if ps[|ps| - 1].Ok? then [ps[|ps| - 1].info] else []
  }

  /** The backlog rose strictly at every successful poll after `a` up to `i`. */
  ghost predicate Rose(xs: seq<Info>, a: int, i: int) {
    0 <= a <= i < |xs| && forall k :: a < k <= i ==> xs[k].pending > xs[k - 1].pending
  }

  /** The latest event before poll `i`, or the first poll. */
  function LastBefore(stalls: seq<nat>, i: nat): nat {
    if stalls == [] then 0
    else if stalls[|stalls| - 1] < i then stalls[|stalls| - 1]
    else LastBefore(stalls[..|stalls| - 1], i)
  }

  /** A stall is due at poll `i`: the last `windows` polls all rose, all of them after the previous
      event, and nothing was processed for long enough. */
  ghost predicate Due(xs: seq<Info>, windows: nat, stallAfter: int, previous: nat, i: nat) {
    i < |xs| && previous + windows <= i && Rose(xs, i - windows, i) && xs[i].idle >= stallAfter
  }

  /** The events are exactly the due ones, in order. */
  ghost predicate Exactly(xs: seq<Info>, windows: nat, stallAfter: int, stalls: seq<nat>) {
    && (forall i, j :: 0 <= i < j < |stalls| ==> stalls[i] < stalls[j])
    && (forall i :: 0 <= i < |stalls| ==> stalls[i] < |xs|)
    && (forall i: nat :: i < |xs| ==> (i in stalls <==> Due(xs, windows, stallAfter, LastBefore(stalls, i), i)))
  }

  function Base(stalls: seq<nat>): nat { if stalls == [] then 0 else stalls[|stalls| - 1] }

  lemma DueStays(xs: seq<Info>, x: Info, windows: nat, stallAfter: int, b: nat, i: nat)
    requires i < |xs|
    ensures Due(xs + [x], windows, stallAfter, b, i) <==> Due(xs, windows, stallAfter, b, i)
  {
    var ys := xs + [x];
    assert forall k :: 0 <= k <= i ==> ys[k] == xs[k];
  }

  lemma ExactlyGrows(xs: seq<Info>, x: Info, windows: nat, stallAfter: int, stalls: seq<nat>, fires: bool)
    requires Exactly(xs, windows, stallAfter, stalls)
    requires fires <==> Due(xs + [x], windows, stallAfter, Base(stalls), |xs|)
    ensures Exactly(xs + [x], windows, stallAfter, if fires then stalls + [|xs|] else stalls)
  {
    var ys, n := xs + [x], |xs|;
    var later := if fires then stalls + [n] else stalls;
    forall i: nat | i < |ys| ensures i in later <==> Due(ys, windows, stallAfter, LastBefore(later, i), i) {
      assert (stalls + [n])[..|stalls|] == stalls;
      if i < n {
        DueStays(xs, x, windows, stallAfter, LastBefore(stalls, i), i);
      }
    }
  }

  /** The number of rises in a row up to the latest poll, not reaching back beyond the previous event. */
  ghost predicate Counts(xs: seq<Info>, base: nat, rising: nat) {
    && xs != [] && base + rising < |xs|
    && Rose(xs, |xs| - 1 - rising, |xs| - 1)
    && (base + rising == |xs| - 1 || !Rose(xs, |xs| - 2 - rising, |xs| - 1))
  }

  lemma RosePrefix(xs: seq<Info>, x: Info, a: int)
    requires 0 <= a < |xs|
    ensures Rose(xs + [x], a, |xs|) <==> Rose(xs, a, |xs| - 1) && x.pending > xs[|xs| - 1].pending
  {
    var ys := xs + [x];
    assert ys[|xs|] == x && forall k :: 0 <= k < |xs| ==> ys[k] == xs[k];
  }

  lemma CountsGrows(xs: seq<Info>, x: Info, base: nat, rising: nat)
    requires Counts(xs, base, rising)
    ensures Counts(xs + [x], base, if x.pending > xs[|xs| - 1].pending then rising + 1 else 0)
  {
    RosePrefix(xs, x, |xs| - 1 - rising);
    RosePrefix(xs, x, |xs| - 1);
    if base + rising < |xs| - 1 {
      RosePrefix(xs, x, |xs| - 2 - rising);
    }
  }

  // The loop variables, and one pass of the loop.
  datatype Soft = Soft(prev: Option<nat>, rising: nat, polls: nat, stalls: seq<nat>)

  function SoftStep(s: Soft, p: Probe, windows: nat, stallAfter: int): Soft {
    if p.Failed? then s
    else
      var pending := p.info.pending;
      var rising := if s.prev.Some? && pending > s.prev.value then s.rising + 1 else 0;
      if rising < windows || p.info.idle < stallAfter || pending == 0 then
        Soft(Some(pending), rising, s.polls + 1, s.stalls)
      else
        Soft(Some(pending), 0, s.polls + 1, s.stalls + [s.polls])
  }

  function SoftRun(ps: seq<Probe>, windows: nat, stallAfter: int): Soft {
    if ps == [] then Soft(None, 0, 0, [])
    else SoftStep(SoftRun(ps[..|ps| - 1], windows, stallAfter), ps[|ps| - 1], windows, stallAfter)
  }

  ghost predicate SoftOk(xs: seq<Info>, s: Soft, windows: nat, stallAfter: int) {
    && s.polls == |xs| && (s.prev.Some? <==> xs != []) && (xs == [] ==> s.stalls == [])
    && (xs != [] ==> s.prev == Some(xs[|xs| - 1].pending) && Counts(xs, Base(s.stalls), s.rising))
    && Exactly(xs, windows, stallAfter, s.stalls)
  }

  lemma SoftStepOk(xs: seq<Info>, s: Soft, x: Info, windows: nat, stallAfter: int)
    requires SoftOk(xs, s, windows, stallAfter) && windows >= 1
    ensures SoftOk(xs + [x], SoftStep(s, Ok(x), windows, stallAfter), windows, stallAfter)
  {
    var ys, s' := xs + [x], SoftStep(s, Ok(x), windows, stallAfter);
    var rising := if xs != [] && x.pending > xs[|xs| - 1].pending then s.rising + 1 else 0;
    if xs != [] {
      CountsGrows(xs, x, Base(s.stalls), s.rising);
    }
    assert Counts(ys, Base(s.stalls), rising);
    assert rising >= windows <==> Base(s.stalls) + windows <= |ys| - 1 && Rose(ys, |ys| - 1 - windows, |ys| - 1);
    ExactlyGrows(xs, x, windows, stallAfter, s.stalls, rising >= windows && x.idle >= stallAfter);
  }

  /** Stall events happen exactly when due: never with fewer than `windows` strictly rising successful
      polls since the previous event, and never missed.  Positions count successful polls. */
  lemma {:induction false} StallsExactlyWhenDue(ps: seq<Probe>, windows: nat, stallAfter: int)
    requires windows >= 1
    ensures SoftOk(Successes(ps), SoftRun(ps, windows, stallAfter), windows, stallAfter)
  {
    if ps != [] {
      var k := |ps| - 1;
      StallsExactlyWhenDue(ps[..k], windows, stallAfter);
      var xs := Successes(ps[..k]);
      assert Successes(ps) == if ps[k].Ok? then xs + [ps[k].info] else xs;
      if ps[k].Ok? {
        SoftStepOk(xs, SoftRun(ps[..k], windows, stallAfter), ps[k].info, windows, stallAfter);
      }
    }
  }

  method WatchSoftLiveness(ps: seq<Probe>, windows: nat, stallAfter: int, circuitStop: bool)
    returns (stalls: seq<nat>, stalled: bool, seen: nat)
    requires windows >= 1
    ensures seen <= |ps| && (seen < |ps| ==> circuitStop && stalled)
    ensures stalled <==> stalls != []
    ensures stalls == SoftRun(ps[..seen], windows, stallAfter).stalls
    ensures Exactly(Successes(ps[..seen]), windows, stallAfter, stalls)
  {
    stalls, stalled, seen := [], false, 0;
    var prevPending, havePrev, rising := 0, false, 0;
    var polls := 0;   // successful polls so far
    while seen < |ps|
      invariant seen <= |ps| && (stalled <==> stalls != []) && (circuitStop ==> !stalled)
      invariant SoftRun(ps[..seen], windows, stallAfter) ==
                Soft(if havePrev then Some(prevPending) else None, rising, polls, stalls)
      decreases |ps| - seen
    {
      var p := ps[seen];
      assert ps[..seen + 1][..seen] == ps[..seen];
      seen := seen + 1;
      if p.Failed? {
        continue;
      }
      var pending := p.info.pending;
      if havePrev && pending > prevPending {
        rising := rising + 1;
      } else {
        rising := 0;
      }
      prevPending, havePrev, polls := pending, true, polls + 1;
      if rising < windows || p.info.idle < stallAfter || pending == 0 {
        continue;
      }
      stalled, stalls := true, stalls + [polls - 1];
      rising := 0;
      if circuitStop {
        break;
      }
    }
    StallsExactlyWhenDue(ps[..seen], windows, stallAfter);
  }

  /** Two stall events are always at least `windows` successful polls apart, all of them rising. */
  lemma StallsAreSeparated(xs: seq<Info>, windows: nat, stallAfter: int, stalls: seq<nat>, n: nat)
    requires Exactly(xs, windows, stallAfter, stalls) && n + 1 < |stalls|
    ensures stalls[n] + windows <= stalls[n + 1] && Rose(xs, stalls[n + 1] - windows, stalls[n + 1])
  {
    var i := stalls[n + 1];
    assert i in stalls;
    LastBeforeIndex(stalls, n);
  }

  lemma {:induction false} LastBeforeIndex(stalls: seq<nat>, n: nat)
    requires n + 1 < |stalls| && forall i, j :: 0 <= i < j < |stalls| ==> stalls[i] < stalls[j]
    ensures LastBefore(stalls, stalls[n + 1]) == stalls[n]
    decreases |stalls|
  {
    if n + 2 < |stalls| {
      LastBeforeIndex(stalls[..|stalls| - 1], n);
    } else {
      assert LastBefore(stalls, stalls[n + 1]) == LastBefore(stalls[..n + 1], stalls[n + 1]);
    }
  }
}
