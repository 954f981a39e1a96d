/** Binary search by timestamp over a stream with gaps: FindFirstSeqAtOrAfter and FindLastSeqAtOrBefore. */
module Search {
  import opened Basics
  import opened Log

  // ----- The probe: getExistingAtOrNear

  const MAX_PREV_WALK := 128

  /** The nearest stored sequence at or below `seqno`, looking at no more than `steps` numbers. */
  function PrevStored(s: Stream, seqno: nat, steps: nat): (r: Option<nat>)
    ensures r.Some? ==> r.value in s.msgs
    decreases steps
  {
    if steps == 0 || seqno < s.first then None
    else if seqno in s.msgs then Some(seqno)
    else if seqno == 0 then None
    else PrevStored(s, seqno - 1, steps - 1)
  }

  lemma {:induction false} PrevStoredExact(s: Stream, seqno: nat, steps: nat)
    ensures match PrevStored(s, seqno, steps)
            case Some(m) => m in s.msgs && seqno - steps < m <= seqno && forall k :: m < k <= seqno ==> k !in s.msgs
            case None => forall k :: s.first <= k <= seqno && seqno - steps < k ==> k !in s.msgs
    decreases steps
  {
    if steps != 0 && seqno != 0 {
      PrevStoredExact(s, seqno - 1, steps - 1);
    }
  }

  /** What a probe at `seqno` lands on: the entry itself, else the next one, else a nearby previous one. */
  function Probe(s: Stream, seqno: nat): (r: Option<nat>) {
    if seqno in s.msgs then Some(seqno)
    else if NextStored(s, seqno, s.last).Some? then NextStored(s, seqno, s.last)
    else PrevStored(s, seqno, MAX_PREV_WALK)
  }

  method GetExistingAtOrNear(s: Stream, at: u64, up: bool) returns (r: Fetch)
    requires 1 <= s.first <= s.last
    ensures var at' := if at < s.first then s.first else if at > s.last then s.last else at;
      && (r.Found? ==> Probe(s, at') == Some(r.msg.sequence) && r.msg == s.msgs[r.msg.sequence])
      && (r.Missing? ==> Probe(s, at') == None)
    ensures r.Failed? ==> !up
  {
    var seqno := at;
    if seqno < s.first { seqno := s.first; }
    if seqno > s.last { seqno := s.last; }
    r := GetMsg(s, seqno, up);
    if !r.Missing? {
      return;
    }
    r := WalkForward(s, seqno, s.last, up);
    if !r.Missing? {
      return;
    }
    var prev, steps := seqno, 0;
    ghost var expected := Probe(s, seqno);
    while prev >= s.first
      invariant s.first - 1 <= prev <= s.last && 0 <= steps < MAX_PREV_WALK
      invariant PrevStored(s, prev, MAX_PREV_WALK - steps) == expected
      decreases prev
    {
      r := GetMsg(s, prev, up);
      if !r.Missing? {
        return;
      }
      steps := steps + 1;
      if steps >= MAX_PREV_WALK || prev == 0 {
        break;
      }
      prev := prev - 1;
    }
    return Missing;
  }

  // ----- One search for the boundary between early and late entries

  datatype Goal = AtOrAfter(t: int) | AtOrBefore(t: int)

  /** Which side of the boundary a timestamp is on. */
  predicate Late(g: Goal, time: int) {
    match g
    case AtOrAfter(t) => time >= t
    case AtOrBefore(t) => time > t
  }

  /** The loop variables: the open interval, and the latest early and late entries seen (0 if none). */
  datatype Window = Window(lo: nat, hi: nat, below: nat, above: nat)

  datatype Round = Next(w: Window) | Miss

  function Mid(w: Window): (r: nat)
    requires w.lo <= w.hi
    ensures w.lo <= r <= w.hi
  {
    w.lo + (w.hi - w.lo) / 2
  }

  function Start(s: Stream): Window {
    Window(s.first, s.last, 0, 0)
  }

  /** The loop runs on while the interval is not empty; `hi < first` breaks out of it as well. */
  predicate Open(w: Window) { w.lo <= w.hi }

  /** One iteration of either search. */
  function Step(s: Stream, g: Goal, w: Window): (r: Round)
    requires Open(w)
  {
    match Probe(s, Mid(w))
    case None => Miss
    case Some(k) =>
      if Late(g, s.msgs[k].time) then Next(w.(hi := k - 1, above := k)) else Next(w.(lo := k + 1, below := k))
  }

  /** What the loop variables mean in every iteration. */
  ghost predicate Sound(s: Stream, g: Goal, w: Window) {
    && 1 <= s.first <= w.lo <= s.last + 1 && w.hi <= s.last
    && (if w.below == 0 then w.lo == s.first
        else w.below in s.msgs && !Late(g, s.msgs[w.below].time) && w.lo == w.below + 1)
    && (if w.above == 0 then w.hi == s.last
        else w.above in s.msgs && Late(g, s.msgs[w.above].time) && w.hi == w.above - 1)
    && (w.below != 0 && w.above != 0 ==> w.below < w.above)
  }

  lemma StartSound(s: Stream, g: Goal)
    requires 1 <= s.first
    ensures Sound(s, g, Start(s))
  {}

  /** A probe from an open window lands inside it, or on the entry just outside that closed it. */
  lemma ProbeLands(s: Stream, g: Goal, w: Window, k: nat)
    requires Sound(s, g, w) && Open(w) && Probe(s, Mid(w)) == Some(k)
    ensures k in s.msgs
    ensures k > w.hi ==> k == w.above
    ensures k < w.lo ==> k == w.below
  {
    NextStoredExact(s, Mid(w), s.last);
    PrevStoredExact(s, Mid(w), MAX_PREV_WALK);
  }

  /** Exact progress law: a probe inside the interval strictly shrinks it, a probe outside changes
      nothing at all, and the meaning of the variables is kept. */
  lemma Progress(s: Stream, g: Goal, w: Window)
    requires Sound(s, g, w) && Open(w) && Step(s, g, w).Next?
    ensures var w' := Step(s, g, w).w;
      var k := Probe(s, Mid(w)).value;
      && Sound(s, g, w')
      && w.lo <= w'.lo && w'.hi <= w.hi
      && (w.lo <= k <= w.hi ==> w'.hi - w'.lo < w.hi - w.lo)
      && (!(w.lo <= k <= w.hi) ==> w' == w)
  {
    ProbeLands(s, g, w, Probe(s, Mid(w)).value);
  }

  // ----- Whole searches

  datatype Outcome =
    | Finished(below: nat, above: nat)   // the loop ended
    | Missed                             // a probe found nothing nearby
    | Stuck                              // an iteration changes nothing: the loop never ends

  function Run(s: Stream, g: Goal, w: Window): (r: Outcome)
    requires Sound(s, g, w)
    decreases w.hi + 1 - w.lo
  {
    if !Open(w) then Finished(w.below, w.above)
    else match Step(s, g, w)
      case Miss => Missed
      case Next(w') =>
        Progress(s, g, w);
        if w' == w then Stuck else Run(s, g, w')
  }

  /** The same loop cut off after `n` iterations. */
  datatype Partial = Ended(outcome: Outcome) | Running(w: Window)

  function Rounds(s: Stream, g: Goal, w: Window, n: nat): (r: Partial)
    requires Sound(s, g, w)
    decreases n
  {
    if !Open(w) then Ended(Finished(w.below, w.above))
    else if n == 0 then Running(w)
    else match Step(s, g, w)
      case Miss => Ended(Missed)
      case Next(w') =>
        Progress(s, g, w);
        Rounds(s, g, w', n - 1)
  }

  /** A search ends after at most as many iterations as there are sequence numbers, or never. */
  lemma {:induction false} EndsOrNever(s: Stream, g: Goal, w: Window, n: nat)
    requires Sound(s, g, w)
    ensures Run(s, g, w) == Stuck ==> Rounds(s, g, w, n).Running?
    ensures Run(s, g, w) != Stuck && n >= w.hi + 1 - w.lo ==> Rounds(s, g, w, n) == Ended(Run(s, g, w))
    ensures Rounds(s, g, w, n).Ended? ==> Rounds(s, g, w, n).outcome == Run(s, g, w)
    decreases n
  {
    if Open(w) && n > 0 {
      match Step(s, g, w)
      case Miss =>
      case Next(w') =>
        Progress(s, g, w);
        if w' == w {
          StuckForever(s, g, w, n);
        } else {
          EndsOrNever(s, g, w', n - 1);
        }
    }
  }

  lemma {:induction false} StuckForever(s: Stream, g: Goal, w: Window, n: nat)
    requires Sound(s, g, w) && Open(w) && Step(s, g, w) == Next(w)
    ensures Rounds(s, g, w, n) == Running(w)
  {
    if n > 0 {
      StuckForever(s, g, w, n - 1);
    }
  }

  /** Where a finished search stands: the interval is exactly used up. */
  lemma {:induction false} FinishedWindow(s: Stream, g: Goal, w: Window) returns (v: Window)
    requires Sound(s, g, w) && Run(s, g, w).Finished?
    ensures Sound(s, g, v) && v.lo > v.hi && Run(s, g, w) == Finished(v.below, v.above)
    decreases w.hi + 1 - w.lo
  {
    if !Open(w) {
      v := w;
    } else {
      Progress(s, g, w);
      v := FinishedWindow(s, g, Step(s, g, w).w);
    }
  }

  /** Partial correctness for every gap pattern: `above` is the first late entry and `below` the last
      early one, or 0 exactly when there is none. */
  lemma FinishedIsExact(s: Stream, g: Goal, below: nat, above: nat)
    requires InTimeOrder(s) && Sound(s, g, Start(s)) && Run(s, g, Start(s)) == Finished(below, above)
    ensures above == 0 <==> forall k :: k in s.msgs ==> !Late(g, s.msgs[k].time)
    ensures above != 0 ==> above in s.msgs && forall k :: k in s.msgs ==> (Late(g, s.msgs[k].time) <==> above <= k)
    ensures below == 0 <==> forall k :: k in s.msgs ==> Late(g, s.msgs[k].time)
    ensures below != 0 ==> below in s.msgs && forall k :: k in s.msgs ==> (!Late(g, s.msgs[k].time) <==> k <= below)
  {
    var v := FinishedWindow(s, g, Start(s));
  }

  /** A search that finishes has no gap at its boundary: the last early and the first late entry are
      neighbours, where a missing one is represented by the end of the stream. */
  lemma BoundaryNotInGap(s: Stream, g: Goal, below: nat, above: nat)
    requires Sound(s, g, Start(s)) && Run(s, g, Start(s)) == Finished(below, above)
    ensures (if below == 0 then s.first else below + 1) == (if above == 0 then s.last + 1 else above)
    ensures (below == 0 || below in s.msgs) && (above == 0 || above in s.msgs)
  {
    var v := FinishedWindow(s, g, Start(s));
  }

  /** The window after a probe found `k`. */
  function After(s: Stream, g: Goal, w: Window, k: nat): Window
    requires k in s.msgs && k > 0
  {
    if Late(g, s.msgs[k].time) then w.(hi := k - 1, above := k) else w.(lo := k + 1, below := k)
  }

  /** One iteration unrolled, as the loops below take it. */
  lemma RoundsStep(s: Stream, g: Goal, w: Window, n: nat, k: nat)
    requires Sound(s, g, w) && Open(w) && n > 0
    requires Probe(s, Mid(w)) == Some(k)
    ensures k in s.msgs && k > 0 && Sound(s, g, After(s, g, w, k))
    ensures Rounds(s, g, w, n) == Rounds(s, g, After(s, g, w, k), n - 1)
  {
    ProbeLands(s, g, w, k);
    assert Step(s, g, w) == Next(After(s, g, w, k));
    Progress(s, g, w);
  }

  // ----- The two exported searches

  /** `OutOfRounds` stands for a loop that has not ended after the given number of iterations. */
  datatype Answer = Seq(k: nat) | NotFound | RequestFailed | OutOfRounds

  function Reported(g: Goal, o: Outcome): Answer {
    match o
    case Finished(below, above) =>
      var found := if g.AtOrAfter? then above else below;
      if found == 0 then NotFound else Seq(found)
    case Missed => NotFound
    case Stuck => OutOfRounds
  }

  /** The answer of a search whose requests all succeed. */
  function Find(s: Stream, g: Goal, rounds: nat): (r: Answer)
  {
    if s.last == 0 || s.first == 0 then NotFound
    else
      StartSound(s, g);
      Told(g, Rounds(s, g, Start(s), rounds))
  }

  function Told(g: Goal, p: Partial): Answer {
    match p
    case Running(_) => OutOfRounds
    case Ended(o) => Reported(g, o)
  }

  /** The entry a goal asks for. */
  ghost predicate Answers(s: Stream, g: Goal, k: nat) {
    && k in s.msgs
    && match g
       case AtOrAfter(t) => s.msgs[k].time >= t && forall j :: j in s.msgs && j < k ==> s.msgs[j].time < t
       case AtOrBefore(t) => s.msgs[k].time <= t && forall j :: j in s.msgs && j > k ==> s.msgs[j].time > t
  }

  ghost predicate Qualifies(s: Stream, g: Goal, k: nat) {
    k in s.msgs && (if g.AtOrAfter? then Late(g, s.msgs[k].time) else !Late(g, s.msgs[k].time))
  }

  lemma FoundByRun(s: Stream, g: Goal, rounds: nat, k: nat) returns (below: nat, above: nat)
    requires Find(s, g, rounds) == Seq(k)
    ensures Sound(s, g, Start(s)) && Run(s, g, Start(s)) == Finished(below, above)
    ensures k == (if g.AtOrAfter? then above else below) && k != 0
  {
    EndsOrNever(s, g, Start(s), rounds);
    below, above := Run(s, g, Start(s)).below, Run(s, g, Start(s)).above;
  }

  /** A sequence number returned is always the right one, whatever the gaps. */
  lemma FoundIsRight(s: Stream, g: Goal, rounds: nat, k: nat)
    requires InTimeOrder(s) && Find(s, g, rounds) == Seq(k)
    ensures Answers(s, g, k)
  {
    var below, above := FoundByRun(s, g, rounds, k);
    FinishedIsExact(s, g, below, above);
  }

  /** The window `w` with `n` iterations to go leads where the whole search does. */
  ghost predicate OnTheWay(s: Stream, g: Goal, w: Window, n: nat, whole: Partial)
  {
    Sound(s, g, w) && Rounds(s, g, w, n) == whole
  }

  /** The probe in the middle of the window, seen as one iteration. */
  method ProbeMiddle(s: Stream, ghost g: Goal, ghost w: Window, ghost n: nat, ghost whole: Partial, lo: u64, hi: u64, up: bool)
    returns (m: Fetch, ghost w': Window)
    requires OnTheWay(s, g, w, n, whole) && Open(w) && n > 0 && lo == w.lo && hi == w.hi
    ensures m.Missing? ==> whole == Ended(Missed)
    ensures m.Failed? ==> !up
    ensures m.Found? ==>
      var k := m.msg.sequence;
      && 0 < k < U64_MAX && OnTheWay(s, g, w', n - 1, whole) && s.first <= w'.lo
      && w' == if Late(g, m.msg.time) then Window(w.lo, k - 1, w.below, k) else Window(k + 1, w.hi, k, w.above)
  {
    m := GetExistingAtOrNear(s, lo + (hi - lo) / 2, up);
    w' := w;
    if m.Found? {
      RoundsStep(s, g, w, n, m.msg.sequence);
      w' := After(s, g, w, m.msg.sequence);
    }
  }

  lemma SearchEnds(s: Stream, g: Goal, w: Window, n: nat, whole: Partial)
    requires OnTheWay(s, g, w, n, whole) && (!Open(w) || n == 0)
    ensures whole == if Open(w) then Running(w) else Ended(Finished(w.below, w.above))
  {}

  method FindFirstSeqAtOrAfter(s: Stream, t: int, rounds: nat, up: bool) returns (r: Answer)
    ensures (r == RequestFailed && !up) || r == Find(s, AtOrAfter(t), rounds)
  {
    var first, last := s.first, s.last;
    if last == 0 || first == 0 {
      return NotFound;
    }
    ghost var g, w := AtOrAfter(t), Start(s);
    ghost var whole := Rounds(s, g, w, rounds);
    var lo: u64, hi: u64 := first, last;
    var found: u64 := 0;
    var n := 0;
    while lo <= hi && n < rounds
      invariant first <= lo == w.lo && w.hi == hi && w.above == found
      invariant n <= rounds && OnTheWay(s, g, w, rounds - n, whole)
      decreases rounds - n
    {
      var m;
      m, w := ProbeMiddle(s, g, w, rounds - n, whole, lo, hi, up);
      if !m.Found? {
        return if m.Failed? then RequestFailed else NotFound;
      }
      n := n + 1;
      if m.msg.time >= t {
        found := m.msg.sequence;
        hi := m.msg.sequence - 1;
        if hi < first {
          break;
        }
      } else {
        lo := m.msg.sequence + 1;
      }
    }
    SearchEnds(s, g, w, rounds - n, whole);
    if lo <= hi {
      return OutOfRounds;
    }
    return if found == 0 then NotFound else Seq(found);
  }

  method FindLastSeqAtOrBefore(s: Stream, t: int, rounds: nat, up: bool) returns (r: Answer)
    ensures (r == RequestFailed && !up) || r == Find(s, AtOrBefore(t), rounds)
  {
    var first, last := s.first, s.last;
    if last == 0 || first == 0 {
      return NotFound;
    }
    ghost var g, w := AtOrBefore(t), Start(s);
    ghost var whole := Rounds(s, g, w, rounds);
    var lo: u64, hi: u64 := first, last;
    var found: u64 := 0;
    var n := 0;
    while lo <= hi && n < rounds
      invariant first <= lo == w.lo && w.hi == hi && w.below == found
      invariant n <= rounds && OnTheWay(s, g, w, rounds - n, whole)
      decreases rounds - n
    {
      var m;
      m, w := ProbeMiddle(s, g, w, rounds - n, whole, lo, hi, up);
      if !m.Found? {
        return if m.Failed? then RequestFailed else NotFound;
      }
      n := n + 1;
      if m.msg.time <= t {
        found := m.msg.sequence;
        lo := m.msg.sequence + 1;
      } else {
        hi := m.msg.sequence - 1;
        if hi < first {
          break;
        }
      }
    }
    SearchEnds(s, g, w, rounds - n, whole);
    if lo <= hi {
      return OutOfRounds;
    }
    return if found == 0 then NotFound else Seq(found);
  }
}
