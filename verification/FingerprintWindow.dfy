/** What the fingerprint measures and what it finds, told from the observations alone: the window of a poll,
    the exact condition of a breach, what an event says, and how the baseline learns. */
module FingerprintWindow {
  import opened Basics
  import opened Fingerprint

  // ----- The window of a poll

  /** A poll at `now` after these inputs. */
  predicate PollAt(start: int, inputs: seq<Input>, now: int) {
    start <= now && (inputs != [] ==> inputs[|inputs| - 1].now <= now)
  }

  /** The observations at or after `cut`, in order. */
  function Window(inputs: seq<Input>, cut: int): seq<Sample> {
    if inputs == [] then []
    else
      var k := |inputs| - 1;
      var last := inputs[k];
      Window(inputs[..k], cut)
      + if last.Observe? && last.elapsed >= 0 && last.now >= cut then [Sample(last.now, last.elapsed)] else []
  }

  /** How many observations there were. */
  function Observations(inputs: seq<Input>): nat {
    if inputs == [] then 0
    else
      var k := |inputs| - 1;
      Observations(inputs[..k]) + if inputs[k].Observe? && inputs[k].elapsed >= 0 then 1 else 0
  }

  ghost predicate NoneAfter(samples: seq<Sample>, now: int) {
    forall i :: 0 <= i < |samples| ==> samples[i].at <= now
  }

  lemma {:induction false} CutTwice(samples: seq<Sample>, a: int, b: int)
    requires a <= b
    ensures Cut(Cut(samples, a), b) == Cut(samples, b)
  {
    if samples != [] && samples[0].at < a {
      CutTwice(samples[1..], a, b);
      assert Cut(samples, a) == Cut(samples[1..], a) && Cut(samples, b) == Cut(samples[1..], b);
    }
  }

  /** A sample not before the others is kept exactly if it is in the window itself. */
  lemma {:induction false} CutLast(samples: seq<Sample>, x: Sample, cut: int)
    requires NoneAfter(samples, x.at)
    ensures Cut(samples + [x], cut) == Cut(samples, cut) + if x.at >= cut then [x] else []
  {
    var all := samples + [x];
    if samples == [] {
      assert all[1..] == [];
    } else if samples[0].at < cut {
      CutLast(samples[1..], x, cut);
      assert all[1..] == samples[1..] + [x];
      assert Cut(all, cut) == Cut(all[1..], cut) && Cut(samples, cut) == Cut(samples[1..], cut);
    }
  }

  lemma CutNoneAfter(samples: seq<Sample>, cut: int, now: int)
    requires NoneAfter(samples, now)
    ensures NoneAfter(Cut(samples, cut), now)
  {}

  /** What one input does to the samples. */
  function SamplesAfter(c: Config, samples: seq<Sample>, i: Input): seq<Sample> {
    match i
    case Poll(now) => Cut(samples, now - c.window)
    case Observe(now, elapsed) => if elapsed >= 0 then Cut(samples + [Sample(now, elapsed)], now - c.window) else samples
  }

  lemma NextSamples(c: Config, s: State, i: Input)
    ensures Next(c, s, i).samples == SamplesAfter(c, s.samples, i)
    ensures Next(c, s, i).startedAt == s.startedAt
    ensures Next(c, s, i).total == s.total + if i.Observe? && i.elapsed >= 0 then 1 else 0
  {}

  lemma WindowStep(c: Config, samples: seq<Sample>, i: Input, cut: int)
    requires NoneAfter(samples, i.now) && i.now - c.window <= cut
    ensures Cut(SamplesAfter(c, samples, i), cut) == Cut(samples, cut)
      + if i.Observe? && i.elapsed >= 0 && i.now >= cut then [Sample(i.now, i.elapsed)] else []
    ensures NoneAfter(SamplesAfter(c, samples, i), i.now)
  {
    if i.Poll? {
      CutTwice(samples, i.now - c.window, cut);
    } else if i.elapsed >= 0 {
      WindowGrows(c, samples, Sample(i.now, i.elapsed), cut);
    }
  }

  lemma WindowGrows(c: Config, samples: seq<Sample>, x: Sample, cut: int)
    requires NoneAfter(samples, x.at) && x.at - c.window <= cut
    ensures Cut(Cut(samples + [x], x.at - c.window), cut) == Cut(samples, cut) + if x.at >= cut then [x] else []
    ensures NoneAfter(Cut(samples + [x], x.at - c.window), x.at)
  {
    CutTwice(samples + [x], x.at - c.window, cut);
    CutLast(samples, x, cut);
    CutNoneAfter(samples + [x], x.at - c.window, x.at);
  }

  /** The samples of a run, cut at any later point, are the observations from that point on. */
  lemma {:induction false} SamplesAreWindow(c: Config, start: int, inputs: seq<Input>, now: int, cut: int)
    requires ClockRuns(start, inputs) && PollAt(start, inputs, now) && now - c.window <= cut
    ensures Cut(Run(c, Start(start), inputs).samples, cut) == Window(inputs, cut)
    ensures NoneAfter(Run(c, Start(start), inputs).samples, now)
  {
    if inputs != [] {
      var k := |inputs| - 1;
      var s := Run(c, Start(start), inputs[..k]);
      SamplesAreWindow(c, start, inputs[..k], inputs[k].now, cut);
      NextSamples(c, s, inputs[k]);
      WindowStep(c, s.samples, inputs[k], cut);
    }
  }

  lemma {:induction false} Totals(c: Config, start: int, inputs: seq<Input>)
    ensures Run(c, Start(start), inputs).startedAt == start
    ensures Run(c, Start(start), inputs).total == Observations(inputs)
  {
    if inputs != [] {
      var k := |inputs| - 1;
      Totals(c, start, inputs[..k]);
      NextSamples(c, Run(c, Start(start), inputs[..k]), inputs[k]);
    }
  }

  // ----- What a poll finds

  /** Messages per minute, from their number in a window of so many nanoseconds. */
  function PerMinute(w: seq<Sample>, window: int): real
    requires window > 0
  {
    |w| as real * 60_000_000_000.0 / window as real
  }

  /** The mean handling time, in whole nanoseconds. */
  function Mean(w: seq<Sample>): int
    requires w != []
  {
    Sum(w) / |w|
  }

  predicate Busy(w: seq<Sample>) { w != [] && Mean(w) > 0 }

  predicate InBand(w: seq<Sample>, b: Snapshot, c: Config) {
    b.rate * (1.0 - c.rateTolerance) <= PerMinute(w, c.window) <= b.rate * (1.0 + c.rateTolerance)
  }

  /** Long enough ago, and with enough observations. */
  predicate Learned(c: Config, start: int, inputs: seq<Input>, now: int) {
    now >= start + c.warmup && now >= start + c.window && Observations(inputs) >= c.minSamples
  }

  lemma Quotient(n: real, w: real, m: real)
    requires w > 0.0 && m > 0.0
    ensures n / (w / m) == n * m / w
  {
    var q := n / (w / m);
    assert q * (w / m) == n;
    assert q * w == n * m by {
      assert w == (w / m) * m;
      assert q * ((w / m) * m) == (q * (w / m)) * m;
    }
  }

  lemma Stats(w: seq<Sample>, c: Config)
    ensures WindowStats(w, c) == if w == [] then Snapshot(0.0, 0) else Snapshot(PerMinute(w, c.window), Mean(w))
    ensures Positive(WindowStats(w, c)) <==> Busy(w)
  {
    Quotient(|w| as real, c.window as real, 60_000_000_000.0);
  }

  /** Below a floor, in terms of the number itself. */
  lemma FloorBelow(n: int, x: real)
    ensures n >= x.Floor <==> n as real > x - 1.0
    ensures n <= x.Floor <==> n as real <= x
  {}

  /** The samples a poll measures are the observations of the window. */
  lemma SeesWindow(c: Config, start: int, inputs: seq<Input>, now: int)
    requires ClockRuns(start, inputs) && PollAt(start, inputs, now)
    ensures Trimmed(c, Run(c, Start(start), inputs), now).samples == Window(inputs, now - c.window)
  {
    SamplesAreWindow(c, start, inputs, now, now - c.window);
  }

  lemma LearningEnds(c: Config, start: int, inputs: seq<Input>, now: int)
    ensures Learning(c, Trimmed(c, Run(c, Start(start), inputs), now), now) <==> !Learned(c, start, inputs, now)
  {
    Totals(c, start, inputs);
  }

  /** The same rate, within the tolerance, and a mean at or above the factor times the baseline latency, that
      product being rounded down. */
  predicate Regressed(w: seq<Sample>, b: Snapshot, c: Config) {
    Busy(w) && InBand(w, b, c) && Mean(w) as real > b.latency as real * c.latencyFactor - 1.0
  }

  lemma JudgedBreach(c: Config, s: State, now: int, w: seq<Sample>)
    requires s.have ==> Positive(s.baseline)
    ensures Judged(c, s, now, WindowStats(w, c)) == Breach <==>
      !Learning(c, s, now) && s.have && Regressed(w, s.baseline, c)
  {
    Stats(w, c);
    FloorBelow(WindowStats(w, c).latency, s.baseline.latency as real * c.latencyFactor);
  }

  /** A poll finds a breach exactly if learning is over, there is a baseline, and the observations of the last
      window are a regression from it. */
  lemma BreachExactly(c: Config, start: int, inputs: seq<Input>, now: int)
    requires ClockRuns(start, inputs) && PollAt(start, inputs, now)
    ensures var w, s := Window(inputs, now - c.window), Run(c, Start(start), inputs);
      VerdictAt(c, s, now) == Breach <==>
        Learned(c, start, inputs, now) && s.have && Regressed(w, s.baseline, c)
  {
    var w, s := Window(inputs, now - c.window), Trimmed(c, Run(c, Start(start), inputs), now);
    SeesWindow(c, start, inputs, now);
    LearningEnds(c, start, inputs, now);
    RunKeeps(c, start, inputs);
    JudgedBreach(c, Measured(c, s), now, w);
  }

  /** An event carries the rate and the mean of the window it was found in, and that window is a regression
      from the baseline it reports. */
  lemma EventIsRegression(c: Config, start: int, inputs: seq<Input>, now: int)
    requires ClockRuns(start, inputs) && PollAt(start, inputs, now)
    ensures var w, e := Window(inputs, now - c.window), Ticked(c, Run(c, Start(start), inputs), now).1;
      e.Some? ==>
        && w != [] && e.value.current == Snapshot(PerMinute(w, c.window), Mean(w))
        && Positive(e.value.normal) && Regressed(w, e.value.normal, c)
  {
    var w, s := Window(inputs, now - c.window), Trimmed(c, Run(c, Start(start), inputs), now);
    SeesWindow(c, start, inputs, now);
    LearningEnds(c, start, inputs, now);
    BreachExactly(c, start, inputs, now);
    RunKeeps(c, start, inputs);
    Stats(w, c);
    EventIsBreach(c, Run(c, Start(start), inputs), now);
  }

  lemma EventIsBreach(c: Config, s: State, now: int)
    ensures var e := Ticked(c, s, now).1;
      e.Some? ==> VerdictAt(c, s, now) == Breach && e.value.normal == s.baseline
                  && e.value.current == Measured(c, Trimmed(c, s, now)).lastCurrent
  {}

  // ----- How the baseline learns

  /** What training with rate `rate` and mean `mean` makes of a baseline, for a step of `alpha`. */
  predicate Moved(b: Snapshot, b': Snapshot, rate: real, mean: int, alpha: real) {
    && b'.rate == b.rate + alpha * (rate - b.rate)
    && b'.latency == (b.latency as real + alpha * (mean as real - b.latency as real)).Floor
  }

  lemma TrainMoves(b: Snapshot, current: Snapshot, alpha: real)
    requires Positive(b)
    ensures Moved(b, Train(true, b, current, alpha), current.rate, current.latency, alpha)
  {
    assert alpha * current.rate + (1.0 - alpha) * b.rate == b.rate + alpha * (current.rate - b.rate);
    var l, m := b.latency as real, current.latency as real;
    assert alpha * m + (1.0 - alpha) * l == l + alpha * (m - l);
  }

  /** A poll without traffic leaves the baseline; the first one with traffic sets it; while learning, later ones
      move it by a twentieth of the difference; afterwards it moves, by a fiftieth, exactly on polls at the
      baseline rate with a mean of at most five quarters of the baseline latency and below the factor. */
  lemma PollTrains(c: Config, start: int, inputs: seq<Input>, now: int)
    requires ClockRuns(start, inputs) && PollAt(start, inputs, now)
    ensures var w, s := Window(inputs, now - c.window), Run(c, Start(start), inputs);
      var s', learning := Ticked(c, s, now).0, !s.have || !Learned(c, start, inputs, now);
      && s'.have == (s.have || Busy(w))
      && if !Busy(w) then s'.baseline == s.baseline
         else if !s.have then s'.baseline == Snapshot(PerMinute(w, c.window), Mean(w))
         else if learning then Moved(s.baseline, s'.baseline, PerMinute(w, c.window), Mean(w), 0.05)
         else if InBand(w, s.baseline, c) && Mean(w) as real <= s.baseline.latency as real * 1.25 && !Regressed(w, s.baseline, c)
         then Moved(s.baseline, s'.baseline, PerMinute(w, c.window), Mean(w), 0.02)
         else s'.baseline == s.baseline
  {
    var w, s := Window(inputs, now - c.window), Trimmed(c, Run(c, Start(start), inputs), now);
    SeesWindow(c, start, inputs, now);
    LearningEnds(c, start, inputs, now);
    BreachExactly(c, start, inputs, now);
    RunKeeps(c, start, inputs);
    Stats(w, c);
    if Busy(w) && s.have {
      TrainMoves(s.baseline, WindowStats(w, c), 0.05);
      TrainMoves(s.baseline, WindowStats(w, c), 0.02);
      FloorBelow(Mean(w), s.baseline.latency as real * 1.25);
    }
  }
}
