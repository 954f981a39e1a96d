/** The behaviour fingerprint (behavior_fingerprint.go): a learned baseline of rate and latency, and the
    detection of latency regressions at unchanged throughput.  Floats are reals; durations are whole
    nanoseconds and conversions to them truncate, as in the source. */
module Fingerprint {
  import opened Basics
  import Watchers

  datatype Snapshot = Snapshot(rate: real, latency: int)

  datatype Sample = Sample(at: int, d: nat)

  datatype Settings = Settings(
    window: int, warmup: int, minSamples: int, latencyFactor: real, rateTolerance: real, sustainFor: int, circuitStop: bool)

  /** Settings after withDefaults. */
  type Config = c: Settings |
      && c.window > 0 && c.warmup > 0 && c.minSamples > 0 && c.sustainFor > 0
      && c.latencyFactor > 0.0 && c.rateTolerance > 0.0
    witness Settings(1, 1, 1, 1.0, 1.0, 1, false)

  const LEARN_ALPHA := 0.05
  const HEALTHY_ALPHA := 0.02
  const MINUTE := 60_000_000_000.0

  // ----- Pure parts

  predicate Positive(s: Snapshot) { s.rate > 0.0 && s.latency > 0 }

  /** Within the tolerated band around the baseline rate. */
  predicate SameRate(current: Snapshot, baseline: Snapshot, c: Config) {
    baseline.rate * (1.0 - c.rateTolerance) <= current.rate <= baseline.rate * (1.0 + c.rateTolerance)
  }

  predicate Anomalous(current: Snapshot, baseline: Snapshot, c: Config) {
    && Positive(baseline) && Positive(current) && SameRate(current, baseline, c)
    && current.latency >= (baseline.latency as real * c.latencyFactor).Floor
  }

  predicate NearBaseline(current: Snapshot, baseline: Snapshot, c: Config) {
    && Positive(baseline) && Positive(current)
    && current.latency <= (baseline.latency as real * 1.25).Floor
    && SameRate(current, baseline, c)
  }

  function Ewma(prev: real, sample: real, alpha: real): real {
    if prev == 0.0 then sample else alpha * sample + (1.0 - alpha) * prev
  }

  /** The new baseline after training with `current`. */
  function Train(have: bool, baseline: Snapshot, current: Snapshot, alpha: real): Snapshot {
    if !have then current
    else Snapshot(Ewma(baseline.rate, current.rate, alpha),
                  Ewma(baseline.latency as real, current.latency as real, alpha).Floor)
  }

  /** The length of the leading stretch of samples older than `cut`. */
  function Stale(samples: seq<Sample>, cut: int): (n: nat)
    ensures n <= |samples|
  {
    if samples == [] || samples[0].at >= cut then 0 else 1 + Stale(samples[1..], cut)
  }

  function Cut(samples: seq<Sample>, cut: int): seq<Sample> {
    samples[Stale(samples, cut)..]
  }

  function Sum(samples: seq<Sample>): nat {
    if samples == [] then 0 else Sum(samples[..|samples| - 1]) + samples[|samples| - 1].d
  }

  function WindowStats(samples: seq<Sample>, c: Config): Snapshot {
    if samples == [] then Snapshot(0.0, 0)
    else Snapshot(|samples| as real / (c.window as real / MINUTE), Sum(samples) / |samples|)
  }

  // ----- One poll, one observation

  datatype State = State(
    startedAt: int,
    samples: seq<Sample>,
    total: nat,
    have: bool,
    baseline: Snapshot,
    breach: Option<int>,          // breachStart while haveBreach
    anomalous: bool,
    lastCurrent: Snapshot,        // the window of the latest poll
    breachNormal: Snapshot)       // baseline when the breach began; no step reads it

  datatype Event = Event(normal: Snapshot, current: Snapshot, sustained: int)

  function Start(now: int): State {
    State(now, [], 0, false, Snapshot(0.0, 0), None, false, Snapshot(0.0, 0), Snapshot(0.0, 0))
  }

  predicate Learning(c: Config, s: State, now: int) {
    now - s.startedAt < c.warmup || s.total < c.minSamples || now - s.startedAt < c.window
  }

  function Observed(c: Config, s: State, now: int, elapsed: int): State {
    if elapsed < 0 then s
    else s.(samples := Cut(s.samples + [Sample(now, elapsed)], now - c.window), total := s.total + 1)
  }

  /** What a poll makes of the window: still learning (with or without traffic), healthy, neither healthy
      nor anomalous, anomalous. */
  datatype Verdict = Learn | Idle | Healthy | Adrift | Breach

  function Judged(c: Config, s: State, now: int, current: Snapshot): Verdict {
    if Learning(c, s, now) || !s.have then (if Positive(current) then Learn else Idle)
    else if Anomalous(current, s.baseline, c) then Breach
    else if NearBaseline(current, s.baseline, c) then Healthy
    else Adrift
  }

  function Settled(c: Config, s: State, now: int, current: Snapshot, v: Verdict): (State, Option<Event>) {
    match v
    case Learn => (s.(have := true, baseline := Train(s.have, s.baseline, current, LEARN_ALPHA), breach := None), None)
    case Healthy => (s.(have := true, baseline := Train(s.have, s.baseline, current, HEALTHY_ALPHA), breach := None), None)
    case Idle => (s.(breach := None), None)
    case Adrift => (s.(breach := None), None)
    case Breach =>
      var start := if s.breach.Some? then s.breach.value else now;
      var s' := s.(breach := Some(start), breachNormal := if s.breach.Some? then s.breachNormal else s.baseline);
      if now - start < c.sustainFor || (s.anomalous && !c.circuitStop) then (s', None)
      else (s'.(anomalous := true, breach := None), Some(Event(s.baseline, current, now - start)))
  }

  /** Stale samples are dropped. */
  function Trimmed(c: Config, s: State, now: int): State {
    s.(samples := Cut(s.samples, now - c.window))
  }

  /** The window is measured. */
  function Measured(c: Config, s: State): State {
    s.(lastCurrent := WindowStats(s.samples, c))
  }

  /** The verdict of a poll. */
  function VerdictAt(c: Config, s0: State, now: int): Verdict {
    var s := Measured(c, Trimmed(c, s0, now));
    Judged(c, s, now, s.lastCurrent)
  }

  function Ticked(c: Config, s0: State, now: int): (r: (State, Option<Event>)) {
    var s := Measured(c, Trimmed(c, s0, now));
    Settled(c, s, now, s.lastCurrent, Judged(c, s, now, s.lastCurrent))
  }

  // ----- Runs

  datatype Input = Observe(now: int, elapsed: int) | Poll(now: int)

  function Next(c: Config, s: State, i: Input): State {
    match i
    case Observe(now, elapsed) => Observed(c, s, now, elapsed)
    case Poll(now) => Ticked(c, s, now).0
  }

  function Run(c: Config, s: State, inputs: seq<Input>): State {
    if inputs == [] then s else Next(c, Run(c, s, inputs[..|inputs| - 1]), inputs[|inputs| - 1])
  }

  /** The clock does not run backwards. */
  ghost predicate ClockRuns(from: int, inputs: seq<Input>) {
    && (forall i :: 0 <= i < |inputs| ==> from <= inputs[i].now)
    && (forall i, j :: 0 <= i <= j < |inputs| ==> inputs[i].now <= inputs[j].now)
  }

  // ----- What every step keeps

  /** A baseline is positive, and during a breach it is the one the breach began with. */
  predicate Inv(s: State) {
    && (s.have ==> Positive(s.baseline))
    && (s.breach.Some? ==> s.have && s.baseline == s.breachNormal)
  }

  lemma TrainPositive(have: bool, b: Snapshot, current: Snapshot, alpha: real)
    requires Positive(current) && (have ==> Positive(b)) && 0.0 < alpha < 1.0
    ensures Positive(Train(have, b, current, alpha))
  {
    if have {
      Mix(b.rate, current.rate, alpha);
      Mix(b.latency as real - 1.0, current.latency as real - 1.0, alpha);
      var e := Ewma(b.latency as real, current.latency as real, alpha);
      assert e >= 1.0;
    }
  }

  lemma Mix(p: real, q: real, alpha: real)
    requires p >= 0.0 && q >= 0.0 && 0.0 < alpha < 1.0
    ensures alpha * q + (1.0 - alpha) * p >= 0.0
    ensures p > 0.0 ==> alpha * q + (1.0 - alpha) * p > 0.0
  {}

  lemma TickKeeps(c: Config, s: State, now: int)
    requires Inv(s)
    ensures Inv(Ticked(c, s, now).0)
  {
    var current := WindowStats(Cut(s.samples, now - c.window), c);
    if Positive(current) {
      TrainPositive(s.have, s.baseline, current, LEARN_ALPHA);
      if s.have {
        TrainPositive(true, s.baseline, current, HEALTHY_ALPHA);
      }
    }
  }

  lemma {:induction false} RunKeeps(c: Config, now: int, inputs: seq<Input>)
    ensures Inv(Run(c, Start(now), inputs))
  {
    if inputs != [] {
      var k := |inputs| - 1;
      RunKeeps(c, now, inputs[..k]);
      if inputs[k].Poll? {
        TickKeeps(c, Run(c, Start(now), inputs[..k]), inputs[k].now);
      }
    }
  }

  ghost predicate ReportsBreachBaseline(c: Config, s: State, now: int)
  {
    var (s', e) := Ticked(c, s, now);
    && (s'.breach.Some? || e.Some? ==> s'.baseline == s.baseline == s'.breachNormal)
    && (e.Some? ==> e.value.normal == s'.breachNormal && e.value.sustained >= c.sustainFor)
    && (e.Some? && s.breach.Some? ==> e.value.normal == s.breachNormal && e.value.sustained == now - s.breach.value)
  }

  lemma TickReports(c: Config, s: State, now: int)
    requires Inv(s)
    ensures ReportsBreachBaseline(c, s, now)
  {}

  /** No poll that finds an anomaly changes the baseline, and an event carries the baseline the breach
      began with: slow detection never trains on the regression it reports. */
  lemma EventReportsBreachBaseline(c: Config, start: int, inputs: seq<Input>, now: int)
    ensures ReportsBreachBaseline(c, Run(c, Start(start), inputs), now)
  {
    RunKeeps(c, start, inputs);
    TickReports(c, Run(c, Start(start), inputs), now);
  }

  /** Warm-up ends for good. */
  predicate Warm(c: Config, s: State, now: int) { s.have && !Learning(c, s, now) }

  lemma StepStays(c: Config, s: State, i: Input)
    ensures var r := Next(c, s, i); r.startedAt == s.startedAt && r.total >= s.total && (s.have ==> r.have)
  {}

  lemma {:induction false} StaysWarm(c: Config, s: State, now: int, inputs: seq<Input>)
    requires Inv(s) && Warm(c, s, now) && ClockRuns(now, inputs)
    ensures var r := Run(c, s, inputs); Inv(r) && r.have && forall t :: t >= now ==> !Learning(c, r, t)
  {
    if inputs != [] {
      var k := |inputs| - 1;
      StaysWarm(c, s, now, inputs[..k]);
      var m := Run(c, s, inputs[..k]);
      assert !Learning(c, m, now);
      StepStays(c, m, inputs[k]);
      if inputs[k].Poll? {
        TickKeeps(c, m, inputs[k].now);
      }
    }
  }

  // ----- The baseline drifts slowly

  function Polls(inputs: seq<Input>): nat {
    if inputs == [] then 0 else Polls(inputs[..|inputs| - 1]) + if inputs[|inputs| - 1].Poll? then 1 else 0
  }

  /** 1.005^n. */
  function Growth(n: nat): real { if n == 0 then 1.0 else 1.005 * Growth(n - 1) }

  /** A latency after n raises of half a percent. */
  function Raised(l: real, n: nat): real { if n == 0 then l else 1.005 * Raised(l, n - 1) }

  lemma {:induction false} RaisedIsPower(l: real, n: nat)
    ensures Raised(l, n) == Growth(n) * l
  {
    if n > 0 {
      RaisedIsPower(l, n - 1);
    }
  }

  /** A healthy poll raises the latency baseline by at most half a percent. */
  lemma TickGrowth(c: Config, s: State, now: int)
    requires Inv(s) && Warm(c, s, now)
    ensures Ticked(c, s, now).0.baseline.latency as real <= 1.005 * s.baseline.latency as real
  {
    var current := WindowStats(Cut(s.samples, now - c.window), c);
    var l := s.baseline.latency as real;
    if NearBaseline(current, s.baseline, c) {
      assert current.latency as real <= l * 1.25;
      assert Ewma(l, current.latency as real, HEALTHY_ALPHA) <= 1.005 * l;
    }
  }

  /** However long it runs after warm-up, n polls raise the latency baseline to at most 1.005^n times
      its value at the end of learning. */
  lemma {:induction false} BaselineGrowth(c: Config, s: State, now: int, inputs: seq<Input>)
    requires Inv(s) && Warm(c, s, now) && ClockRuns(now, inputs)
    ensures Run(c, s, inputs).baseline.latency as real <= Raised(s.baseline.latency as real, Polls(inputs))
  {
    if inputs != [] {
      var k := |inputs| - 1;
      BaselineGrowth(c, s, now, inputs[..k]);
      StaysWarm(c, s, now, inputs[..k]);
      if inputs[k].Poll? {
        TickGrowth(c, Run(c, s, inputs[..k]), inputs[k].now);
      }
    }
  }

  // ----- Samples

  ghost predicate Sorted(samples: seq<Sample>) {
    forall i, j :: 0 <= i <= j < |samples| ==> samples[i].at <= samples[j].at
  }

  /** With a running clock, trimming keeps exactly the samples inside the window, in order. */
  lemma {:induction false} CutIsWindow(samples: seq<Sample>, cut: int)
    requires Sorted(samples)
    ensures forall k :: 0 <= k < |samples| ==> (samples[k].at >= cut <==> k >= Stale(samples, cut))
  {
    if samples != [] && samples[0].at < cut {
      CutIsWindow(samples[1..], cut);
      forall k | 0 < k < |samples| ensures samples[k].at >= cut <==> k >= Stale(samples, cut) {
        assert samples[1..][k - 1] == samples[k];
      }
    }
  }

  lemma {:induction false} StaleIs(samples: seq<Sample>, cut: int, i: nat)
    requires i <= |samples| && (forall k :: 0 <= k < i ==> samples[k].at < cut) && (i < |samples| ==> samples[i].at >= cut)
    ensures Stale(samples, cut) == i
  {
    if i > 0 {
      StaleIs(samples[1..], cut, i - 1);
    }
  }

  // ----- When the report comes

  function Emitted(c: Config, s: State, now: int): seq<Event> {
    var e := Ticked(c, s, now).1;
    if e.Some? then [e.value] else []
  }

  function Events(c: Config, s: State, inputs: seq<Input>): seq<Event> {
    if inputs == [] then []
    else
      var k := |inputs| - 1;
      Events(c, s, inputs[..k]) + if inputs[k].Poll? then Emitted(c, Run(c, s, inputs[..k]), inputs[k].now) else []
  }

  /** A poll as the sustain rule sees it: whether it found a breach, and when. */
  function Mark(c: Config, s: State, now: int): Watchers.Poll {
    Watchers.Poll(VerdictAt(c, s, now) == Breach, now)
  }

  /** The polls of a run. */
  function Marks(c: Config, s: State, inputs: seq<Input>): seq<Watchers.Poll> {
    if inputs == [] then []
    else
      var k := |inputs| - 1;
      Marks(c, s, inputs[..k]) + if inputs[k].Poll? then [Mark(c, Run(c, s, inputs[..k]), inputs[k].now)] else []
  }

  lemma {:induction false} MarksInOrder(c: Config, s: State, from: int, inputs: seq<Input>)
    requires ClockRuns(from, inputs)
    ensures Watchers.ClockRuns(Marks(c, s, inputs))
    ensures inputs != [] ==> forall p :: p in Marks(c, s, inputs) ==> p.now <= inputs[|inputs| - 1].now
  {
    if inputs != [] {
      MarksInOrder(c, s, from, inputs[..|inputs| - 1]);
    }
  }

  /** The open breach is the unbroken run of breaches the latest poll belongs to, if it belongs to one. */
  ghost predicate BreachIs(ps: seq<Watchers.Poll>, breach: Option<int>) {
    match breach
    case None => ps == [] || !ps[|ps| - 1].slow
    case Some(t) => exists j :: Watchers.Begins(ps, j, |ps| - 1) && ps[j].now == t
  }

  ghost predicate NoneSustained(c: Config, ps: seq<Watchers.Poll>) {
    forall i :: 0 <= i < |ps| ==> !Watchers.Sustained(ps, c.sustainFor, i)
  }

  ghost predicate FirstAt(c: Config, ps: seq<Watchers.Poll>, at: nat, sustained: int) {
    Watchers.FirstEvent(ps, c.sustainFor, Watchers.SlowEvent(at, sustained))
  }

  /** At most one event, at the first poll that ends an unbroken run of breaches spanning sustainFor. */
  ghost predicate Reported(c: Config, ps: seq<Watchers.Poll>, events: seq<Event>) {
    && |events| <= 1
    && (events == [] ==> NoneSustained(c, ps))
    && (events != [] ==> exists at: nat :: FirstAt(c, ps, at, events[0].sustained))
  }

  ghost predicate Tracks(c: Config, s: State, ps: seq<Watchers.Poll>, events: seq<Event>) {
    Reported(c, ps, events) && (s.anomalous <==> events != []) && (events == [] ==> BreachIs(ps, s.breach))
  }

  lemma UnbrokenStays(ps: seq<Watchers.Poll>, p: Watchers.Poll, j: int, i: int)
    requires i < |ps|
    ensures Watchers.Unbroken(ps + [p], j, i) <==> Watchers.Unbroken(ps, j, i)
    ensures Watchers.Begins(ps + [p], j, i) <==> Watchers.Begins(ps, j, i)
  {
    assert forall k :: 0 <= k < |ps| ==> (ps + [p])[k] == ps[k];
  }

  lemma SustainedStays(c: Config, ps: seq<Watchers.Poll>, p: Watchers.Poll, i: int)
    requires 0 <= i < |ps|
    ensures Watchers.Sustained(ps + [p], c.sustainFor, i) <==> Watchers.Sustained(ps, c.sustainFor, i)
  {
    var after := ps + [p];
    assert forall k :: 0 <= k < |ps| ==> after[k] == ps[k];
    if j :| Watchers.Unbroken(ps, j, i) && ps[i].now - ps[j].now >= c.sustainFor {
      UnbrokenStays(ps, p, j, i);
    }
    if j :| Watchers.Unbroken(after, j, i) && after[i].now - after[j].now >= c.sustainFor {
      UnbrokenStays(ps, p, j, i);
    }
  }

  lemma FirstStays(c: Config, ps: seq<Watchers.Poll>, p: Watchers.Poll, at: nat, sustained: int)
    requires FirstAt(c, ps, at, sustained)
    ensures FirstAt(c, ps + [p], at, sustained)
  {
    forall i | 0 <= i <= at ensures Watchers.Sustained(ps + [p], c.sustainFor, i) <==> Watchers.Sustained(ps, c.sustainFor, i) {
      SustainedStays(c, ps, p, i);
    }
    var j :| Watchers.Begins(ps, j, at) && sustained == ps[at].now - ps[j].now;
    UnbrokenStays(ps, p, j, at);
  }

  /** Where the run that a new breach belongs to began. */
  lemma RunStart(ps: seq<Watchers.Poll>, p: Watchers.Poll, breach: Option<int>) returns (j: nat)
    requires BreachIs(ps, breach) && p.slow
    ensures Watchers.Begins(ps + [p], j, |ps|)
    ensures (ps + [p])[j].now == if breach.Some? then breach.value else p.now
  {
    var after := ps + [p];
    assert after[|ps|] == p && forall k :: 0 <= k < |ps| ==> after[k] == ps[k];
    if breach.Some? {
      var b :| Watchers.Begins(ps, b, |ps| - 1) && ps[b].now == breach.value;
      j := b;
    } else {
      j := |ps|;
    }
  }

  /** What a poll does to the open breach and the sticky flag. */
  lemma TickDetects(c: Config, s: State, now: int)
    ensures var (s', e) := Ticked(c, s, now);
      var start := if s.breach.Some? then s.breach.value else now;
      var fires := VerdictAt(c, s, now) == Breach && now - start >= c.sustainFor && !(s.anomalous && !c.circuitStop);
      && (e.Some? <==> fires) && (e.Some? ==> e.value.sustained == now - start)
      && s'.anomalous == (s.anomalous || fires)
      && s'.breach == if VerdictAt(c, s, now) == Breach && !fires then Some(start) else None
  {}

  lemma QuietPoll(c: Config, ps: seq<Watchers.Poll>, p: Watchers.Poll)
    requires NoneSustained(c, ps) && !p.slow
    ensures NoneSustained(c, ps + [p]) && BreachIs(ps + [p], None)
  {
    assert (ps + [p])[|ps|] == p;
    forall i | 0 <= i < |ps| ensures !Watchers.Sustained(ps + [p], c.sustainFor, i) {
      SustainedStays(c, ps, p, i);
    }
  }

  lemma BreachPoll(c: Config, ps: seq<Watchers.Poll>, p: Watchers.Poll, breach: Option<int>)
    requires NoneSustained(c, ps) && BreachIs(ps, breach) && p.slow && Watchers.ClockRuns(ps + [p])
    ensures var start := if breach.Some? then breach.value else p.now;
      if p.now - start < c.sustainFor then NoneSustained(c, ps + [p]) && BreachIs(ps + [p], Some(start))
      else FirstAt(c, ps + [p], |ps|, p.now - start)
  {
    var after := ps + [p];
    assert after[|ps|] == p;
    forall i | 0 <= i < |ps| ensures !Watchers.Sustained(after, c.sustainFor, i) {
      SustainedStays(c, ps, p, i);
    }
    var j := RunStart(ps, p, breach);
    Watchers.SustainedFromStart(after, c.sustainFor, j, |ps|);
  }

  lemma TrackPoll(c: Config, s: State, ps: seq<Watchers.Poll>, p: Watchers.Poll)
    requires Tracks(c, s, ps, []) && p.slow == (VerdictAt(c, s, p.now) == Breach) && Watchers.ClockRuns(ps + [p])
    ensures var (s', e) := Ticked(c, s, p.now); Tracks(c, s', ps + [p], Emitted(c, s, p.now))
  {
    TickDetects(c, s, p.now);
    if p.slow {
      BreachPoll(c, ps, p, s.breach);
      if Emitted(c, s, p.now) != [] {
        assert FirstAt(c, ps + [p], |ps|, Emitted(c, s, p.now)[0].sustained);
      }
    } else {
      QuietPoll(c, ps, p);
    }
  }

  lemma TrackLater(c: Config, s: State, ps: seq<Watchers.Poll>, p: Watchers.Poll, now: int, events: seq<Event>)
    requires Tracks(c, s, ps, events) && events != [] && !c.circuitStop
    ensures Ticked(c, s, now).1.None? && Tracks(c, Ticked(c, s, now).0, ps + [p], events)
  {
    TickDetects(c, s, now);
    var at: nat :| FirstAt(c, ps, at, events[0].sustained);
    FirstStays(c, ps, p, at, events[0].sustained);
  }

  /** The watcher is still there: unless it stops at its first event, or has not had one. */
  predicate Watching(c: Config, s: State, inputs: seq<Input>) {
    !c.circuitStop || inputs == [] || Events(c, s, inputs[..|inputs| - 1]) == []
  }

  /** What the last input adds. */
  lemma LastInput(c: Config, s0: State, inputs: seq<Input>) returns (s: State, ps: seq<Watchers.Poll>, events: seq<Event>)
    requires inputs != []
    ensures var k := |inputs| - 1;
      && s == Run(c, s0, inputs[..k]) && ps == Marks(c, s0, inputs[..k]) && events == Events(c, s0, inputs[..k])
      && Run(c, s0, inputs) == Next(c, s, inputs[k])
      && Marks(c, s0, inputs) == (if inputs[k].Poll? then ps + [Mark(c, s, inputs[k].now)] else ps)
      && Events(c, s0, inputs) == events + if inputs[k].Poll? then Emitted(c, s, inputs[k].now) else []
  {
    var k := |inputs| - 1;
    s, ps, events := Run(c, s0, inputs[..k]), Marks(c, s0, inputs[..k]), Events(c, s0, inputs[..k]);
  }

  lemma {:induction false} RunTracks(c: Config, now: int, inputs: seq<Input>)
    requires ClockRuns(now, inputs) && Watching(c, Start(now), inputs)
    ensures Tracks(c, Run(c, Start(now), inputs), Marks(c, Start(now), inputs), Events(c, Start(now), inputs))
  {
    if inputs != [] {
      var k := |inputs| - 1;
      RunTracks(c, now, inputs[..k]);
      MarksInOrder(c, Start(now), now, inputs);
      var s, ps, events := LastInput(c, Start(now), inputs);
      if inputs[k].Poll? && events == [] {
        TrackPoll(c, s, ps, Mark(c, s, inputs[k].now));
        assert events + Emitted(c, s, inputs[k].now) == Emitted(c, s, inputs[k].now);
      } else if inputs[k].Poll? {
        TrackLater(c, s, ps, Mark(c, s, inputs[k].now), inputs[k].now, events);
        assert events + Emitted(c, s, inputs[k].now) == events;
      } else {
        assert events + [] == events;
      }
    }
  }

  /** In the whole life of the watcher at most one event is reported, at the first poll that ends an unbroken
      run of breaches spanning sustainFor, with the length of that run; and none only if there is no such poll. */
  lemma OneEvent(c: Config, now: int, inputs: seq<Input>)
    requires ClockRuns(now, inputs) && Watching(c, Start(now), inputs)
    ensures Reported(c, Marks(c, Start(now), inputs), Events(c, Start(now), inputs))
    ensures Run(c, Start(now), inputs).anomalous <==> Events(c, Start(now), inputs) != []
  {
    RunTracks(c, now, inputs);
  }

  // ----- The watcher object

  class BehaviorFingerprint {
    const cfg: Config
    const startedAt: int
    var samples: seq<Sample>
    var totalObserved: nat
    var haveBaseline: bool
    var baselineRate: real
    var baselineLatency: int
    var haveBreach: bool
    var breachStart: int
    var anomalous: bool
    var lastCurrent: Snapshot
    ghost var breachNormal: Snapshot

    ghost function View(): State
      reads this
    {
      State(startedAt, samples, totalObserved, haveBaseline, Snapshot(baselineRate, baselineLatency),
            if haveBreach then Some(breachStart) else None, anomalous, lastCurrent, breachNormal)
    }

    constructor (c: Config, now: int)
      ensures cfg == c && View() == Start(now)
    {
      cfg, startedAt := c, now;
      samples, totalObserved, haveBaseline, baselineRate, baselineLatency := [], 0, false, 0.0, 0;
      haveBreach, breachStart, anomalous, lastCurrent := false, 0, false, Snapshot(0.0, 0);
      breachNormal := Snapshot(0.0, 0);
    }

    method TrimLocked(now: int)
      modifies this`samples
      ensures samples == Cut(old(samples), now - cfg.window)
    {
      var cut, i := now - cfg.window, 0;
      while i < |samples| && samples[i].at < cut
        invariant i <= |samples| && samples == old(samples)
        invariant forall k :: 0 <= k < i ==> samples[k].at < cut
      {
        i := i + 1;
      }
      StaleIs(samples, cut, i);
      if i > 0 {
        samples := samples[i..];
      }
    }

    method WindowStatsLocked() returns (r: Snapshot)
      ensures r == WindowStats(samples, cfg)
    {
      var n := |samples|;
      if n == 0 {
        return Snapshot(0.0, 0);
      }
      var sum: nat := 0;
      for i := 0 to n
        invariant sum == Sum(samples[..i])
      {
        assert samples[..i + 1][..i] == samples[..i];
        sum := sum + samples[i].d;
      }
      assert samples[..n] == samples;
      return Snapshot(n as real / (cfg.window as real / MINUTE), sum / n);
    }

    method UpdateBaselineLocked(current: Snapshot, alpha: real)
      modifies this`haveBaseline, this`baselineRate, this`baselineLatency
      ensures haveBaseline
      ensures Snapshot(baselineRate, baselineLatency) ==
              Train(old(haveBaseline), old(Snapshot(baselineRate, baselineLatency)), current, alpha)
    {
      if !haveBaseline {
        baselineRate, baselineLatency, haveBaseline := current.rate, current.latency, true;
        return;
      }
      baselineRate := Ewma(baselineRate, current.rate, alpha);
      baselineLatency := Ewma(baselineLatency as real, current.latency as real, alpha).Floor;
    }

    method Observe(now: int, elapsed: int)
      modifies this
      ensures View() == Observed(cfg, old(View()), now, elapsed)
    {
      if elapsed < 0 {
        return;
      }
      samples := samples + [Sample(now, elapsed)];
      totalObserved := totalObserved + 1;
      TrimLocked(now);
    }

    method Judge(now: int, current: Snapshot) returns (v: Verdict)
      ensures v == Judged(cfg, View(), now, current)
    {
      var learning := now - startedAt < cfg.warmup || totalObserved < cfg.minSamples || now - startedAt < cfg.window;
      var normal := Snapshot(baselineRate, baselineLatency);
      var busy := current.rate > 0.0 && current.latency > 0;
      if learning || !haveBaseline {
        return if busy then Learn else Idle;
      }
      if busy && Anomalous(current, normal, cfg) {
        return Breach;
      }
      return if NearBaseline(current, normal, cfg) then Healthy else Adrift;
    }

    method Settle(now: int, current: Snapshot, v: Verdict) returns (event: Option<Event>)
      modifies this
      ensures (View(), event) == Settled(cfg, old(View()), now, current, v)
      ensures samples == old(samples)
    {
      if v != Breach {
        if v == Learn || v == Healthy {
          UpdateBaselineLocked(current, if v == Learn then LEARN_ALPHA else HEALTHY_ALPHA);
        }
        haveBreach := false;
        return None;
      }
      var normal := Snapshot(baselineRate, baselineLatency);
      if !haveBreach {
        breachStart, haveBreach, breachNormal := now, true, normal;
      }
      var sustained := now - breachStart;
      if sustained < cfg.sustainFor {
        return None;
      }
      if anomalous && !cfg.circuitStop {
        return None;
      }
      anomalous, haveBreach := true, false;
      return Some(Event(normal, current, sustained));
    }

    method MeasureLocked() returns (current: Snapshot)
      modifies this`lastCurrent
      ensures View() == Measured(cfg, old(View())) && current == lastCurrent
    {
      current := WindowStatsLocked();
      lastCurrent := current;
    }

    method Tick(now: int) returns (event: Option<Event>)
      modifies this
      ensures (View(), event) == Ticked(cfg, old(View()), now)
    {
      TrimLocked(now);
      assert View() == Trimmed(cfg, old(View()), now);
      var current := MeasureLocked();
      var v := Judge(now, current);
      event := Settle(now, current, v);
    }
  }
}
