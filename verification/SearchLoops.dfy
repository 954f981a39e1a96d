/** When the searches over a stream with gaps end, when they loop, and when not-found is right. */
module SearchLoops {
  import opened Basics
  import opened Log
  import opened Search

  // ----- When does a search finish?

  predicate GapFree(s: Stream) {
    forall k :: s.first <= k <= s.last ==> k in s.msgs
  }

  /** A search over an interval without deleted entries finishes. */
  lemma {:induction false} StoredFinishes(s: Stream, g: Goal, w: Window)
    requires Sound(s, g, w) && forall k :: w.lo <= k <= w.hi ==> k in s.msgs
    ensures Run(s, g, w).Finished?
    decreases w.hi + 1 - w.lo
  {
    if Open(w) {
      Progress(s, g, w);
      StoredFinishes(s, g, Step(s, g, w).w);
    }
  }

  /** Entries on different sides of `hole` have different times. */
  ghost predicate Separated(s: Stream, hole: nat) {
    forall j, k :: j in s.msgs && k in s.msgs && j < hole < k ==> s.msgs[j].time < s.msgs[k].time
  }

  ghost predicate DistinctTimes(s: Stream) {
    forall j, k :: j in s.msgs && k in s.msgs && j < k ==> s.msgs[j].time < s.msgs[k].time
  }

  /** The boundary of the goal falls on `hole`. */
  ghost predicate Cuts(s: Stream, g: Goal, hole: nat) {
    forall k :: k in s.msgs ==> (Late(g, s.msgs[k].time) <==> hole < k)
  }

  /** A goal whose boundary falls on a deleted number. */
  lemma GoalAt(s: Stream, hole: nat) returns (g: Goal)
    requires InTimeOrder(s) && 1 <= s.first <= hole <= s.last && hole !in s.msgs && Separated(s, hole)
    ensures Cuts(s, g, hole)
  {
    PrevStoredExact(s, hole, hole);
    NextStoredExact(s, hole, s.last);
    var below, above := PrevStored(s, hole, hole), NextStored(s, hole, s.last);
    if below.Some? {
      g := AtOrBefore(s.msgs[below.value].time);
    } else if above.Some? {
      g := AtOrBefore(s.msgs[above.value].time - 1);
    } else {
      g := AtOrBefore(0);
    }
  }

  lemma HoleNotFinished(s: Stream, g: Goal, hole: nat)
    requires Sound(s, g, Start(s)) && s.first <= hole <= s.last && hole !in s.msgs && Cuts(s, g, hole)
    ensures !Run(s, g, Start(s)).Finished?
  {
    if Run(s, g, Start(s)).Finished? {
      var v := FinishedWindow(s, g, Start(s));
    }
  }

  /** With distinct timestamps every search finishes exactly on the streams without deleted entries. */
  lemma FinishesIffGapFree(s: Stream)
    requires 1 <= s.first && DistinctTimes(s)
    ensures GapFree(s) <==> forall g :: Sound(s, g, Start(s)) && Run(s, g, Start(s)).Finished?
  {
    if GapFree(s) {
      forall g ensures Sound(s, g, Start(s)) && Run(s, g, Start(s)).Finished? {
        StoredFinishes(s, g, Start(s));
      }
    } else {
      var hole :| s.first <= hole <= s.last && hole !in s.msgs;
      var g := GoalAt(s, hole);
      HoleNotFinished(s, g, hole);
    }
  }

  predicate Inside(w: Window, k: nat) { w.lo <= k <= w.hi }

  lemma StuckIsOutside(s: Stream, g: Goal, w: Window)
    requires Sound(s, g, w) && Open(w)
    ensures Step(s, g, w) == Next(w) <==> Probe(s, Mid(w)).Some? && !Inside(w, Probe(s, Mid(w)).value)
  {
    if Step(s, g, w).Next? {
      Progress(s, g, w);
    }
  }

  /** Nothing is stored from the middle to the upper end, and either that end was cut off by a late entry,
      or the backward walk comes back to the last early one. */
  ghost predicate Blocked(s: Stream, w: Window)
    requires Open(w)
  {
    && (forall k :: Mid(w) <= k <= w.hi ==> k !in s.msgs)
    && (w.above != 0 ||
        (w.below != 0 && Mid(w) - w.below < 128 && forall k :: w.lo <= k <= Mid(w) ==> k !in s.msgs))
  }

  lemma OutsideIsBlocked(s: Stream, g: Goal, w: Window)
    requires Sound(s, g, w) && Open(w)
    ensures Probe(s, Mid(w)).Some? && !Inside(w, Probe(s, Mid(w)).value) <==> Blocked(s, w)
  {
    NextStoredExact(s, Mid(w), s.last);
    PrevStoredExact(s, Mid(w), MAX_PREV_WALK);
  }

  /** Exactly when an iteration changes nothing, so that the loop never ends. */
  lemma StuckExactly(s: Stream, g: Goal, w: Window)
    requires Sound(s, g, w) && Open(w)
    ensures Step(s, g, w) == Next(w) <==> Blocked(s, w)
  {
    StuckIsOutside(s, g, w);
    OutsideIsBlocked(s, g, w);
  }

  /** A deleted tail this long can hide everything before it from a probe. */
  const BLIND := 255

  /** A probe misses only behind such a tail. */
  lemma MissIsFar(s: Stream, g: Goal, w: Window, tail: nat)
    requires Sound(s, g, w) && Open(w) && Step(s, g, w) == Miss && tail in s.msgs
    ensures s.last - tail >= BLIND
  {
    NextStoredExact(s, Mid(w), s.last);
    PrevStoredExact(s, Mid(w), MAX_PREV_WALK);
  }

  /** A probe finds something whenever one of the last 255 sequence numbers is still stored. */
  lemma {:induction false} NeverMisses(s: Stream, g: Goal, w: Window, tail: nat)
    requires Sound(s, g, w) && tail in s.msgs && s.last - tail < BLIND
    ensures Run(s, g, w) != Missed
    decreases w.hi + 1 - w.lo
  {
    if Open(w) {
      match Step(s, g, w)
      case Miss => MissIsFar(s, g, w, tail);
      case Next(w') =>
        Progress(s, g, w);
        if w' != w {
          NeverMisses(s, g, w', tail);
        }
    }
  }

  // ----- Behind the last stored entry

  ghost predicate IsTail(s: Stream, tail: nat) {
    tail in s.msgs && forall k :: k in s.msgs ==> k <= tail
  }

  ghost predicate AllEarly(s: Stream, g: Goal) {
    forall k :: k in s.msgs ==> !Late(g, s.msgs[k].time)
  }

  function TailOutcome(last: nat, tail: nat): Outcome {
    if tail == last then Finished(tail, 0) else if last - tail < BLIND then Stuck else Missed
  }

  lemma StuckIsNear(s: Stream, g: Goal, w: Window, tail: nat)
    requires Sound(s, g, w) && Open(w) && w.above == 0 && Step(s, g, w) == Next(w) && IsTail(s, tail)
    ensures tail < s.last && s.last - tail < BLIND
  {
    StuckExactly(s, g, w);
  }

  /** When every stored entry is on the early side, the deleted tail alone decides how the search ends,
      whatever the gaps before it. */
  lemma {:induction false} AllEarlyOutcome(s: Stream, g: Goal, w: Window, tail: nat)
    requires Sound(s, g, w) && AllEarly(s, g) && IsTail(s, tail)
    ensures Run(s, g, w) == TailOutcome(s.last, tail)
    decreases w.hi + 1 - w.lo
  {
    if Open(w) {
      match Step(s, g, w)
      case Miss => MissIsFar(s, g, w, tail);
      case Next(w') =>
        Progress(s, g, w);
        if w' == w {
          StuckIsNear(s, g, w, tail);
        } else {
          AllEarlyOutcome(s, g, w', tail);
        }
    }
  }

  // ----- When does no search loop?

  /** The last entry a search probes as long as every probe is on the early side. */
  function ReachFrom(s: Stream, lo: nat, below: nat): (r: nat)
    requires below < lo
    ensures below <= r
    decreases s.last + 1 - lo
  {
    if lo > s.last then below
    else
      var probe := Probe(s, Mid(Window(lo, s.last, below, 0)));
      if probe.None? || probe.value < lo || probe.value > s.last then below else ReachFrom(s, probe.value + 1, probe.value)
  }

  function Reach(s: Stream): nat
    requires 1 <= s.first
  {
    ReachFrom(s, s.first, 0)
  }

  /** Once a late entry was probed, every probe finds something. */
  lemma {:induction false} LateNeverMisses(s: Stream, g: Goal, w: Window)
    requires Sound(s, g, w) && w.above != 0
    ensures Run(s, g, w) != Missed
    decreases w.hi + 1 - w.lo
  {
    if Open(w) {
      NextStoredExact(s, Mid(w), s.last);
      Progress(s, g, w);
      if Step(s, g, w).w != w {
        LateNeverMisses(s, g, Step(s, g, w).w);
      }
    }
  }

  /** A search that has met early entries only goes on to the reach, unless it meets a late one before. */
  lemma {:induction false} LateReachNeverMisses(s: Stream, g: Goal, w: Window)
    requires Sound(s, g, w) && w.above == 0
    requires var r := ReachFrom(s, w.lo, w.below); r in s.msgs && Late(g, s.msgs[r].time)
    ensures Run(s, g, w) != Missed
    decreases w.hi + 1 - w.lo
  {
    if Open(w) && Step(s, g, w).Next? {
      Progress(s, g, w);
      var w' := Step(s, g, w).w;
      if w'.above != 0 {
        LateNeverMisses(s, g, w');
      } else if w' != w {
        LateReachNeverMisses(s, g, w');
      }
    }
  }

  lemma {:induction false} ReachIsStored(s: Stream, lo: nat, below: nat)
    requires below < lo
    ensures ReachFrom(s, lo, below) != below ==> ReachFrom(s, lo, below) in s.msgs
    decreases s.last + 1 - lo
  {
    if lo <= s.last {
      var probe := Probe(s, Mid(Window(lo, s.last, below, 0)));
      if probe.Some? && lo <= probe.value <= s.last {
        ReachIsStored(s, probe.value + 1, probe.value);
      }
    }
  }

  /** A deleted number below the reach, with different times on its two sides, makes some search loop. */
  lemma GapLoops(s: Stream, hole: nat) returns (g: Goal)
    requires InTimeOrder(s) && 1 <= s.first <= hole < Reach(s) && hole !in s.msgs && Separated(s, hole)
    ensures Sound(s, g, Start(s)) && Run(s, g, Start(s)) == Stuck
  {
    ReachIsStored(s, s.first, 0);
    g := GoalAt(s, hole);
    HoleNotFinished(s, g, hole);
    LateReachNeverMisses(s, g, Start(s));
  }

  /** A short deleted tail makes some search loop. */
  lemma ShortTailLoops(s: Stream, tail: nat) returns (g: Goal)
    requires InTimeOrder(s) && 1 <= s.first && IsTail(s, tail) && 0 < s.last - tail < BLIND
    ensures Sound(s, g, Start(s)) && Run(s, g, Start(s)) == Stuck
  {
    g := AtOrBefore(s.msgs[tail].time);
    AllEarlyOutcome(s, g, Start(s), tail);
  }

  ghost predicate ShortTail(s: Stream) {
    exists tail :: IsTail(s, tail) && 0 < s.last - tail < BLIND
  }

  /** No number up to the reach is deleted. */
  predicate Dense(s: Stream, reach: nat) {
    forall k :: s.first <= k <= reach ==> k in s.msgs
  }

  /** Without these two nothing loops, whatever the times. */
  lemma {:induction false} NoLoop(s: Stream, g: Goal, w: Window)
    requires Sound(s, g, w) && w.above == 0 && Dense(s, ReachFrom(s, w.lo, w.below)) && !ShortTail(s)
    ensures Run(s, g, w) != Stuck
    decreases w.hi + 1 - w.lo
  {
    if Open(w) && Step(s, g, w).Next? {
      Progress(s, g, w);
      var w' := Step(s, g, w).w;
      if w' == w {
        StuckHasShortTail(s, g, w);
      } else if w'.above != 0 {
        StoredFinishes(s, g, w');
      } else {
        NoLoop(s, g, w');
      }
    }
  }

  lemma StuckHasShortTail(s: Stream, g: Goal, w: Window)
    requires Sound(s, g, w) && Open(w) && w.above == 0 && Step(s, g, w) == Next(w)
    ensures ShortTail(s)
  {
    StuckExactly(s, g, w);
    assert IsTail(s, w.below);
    StuckIsNear(s, g, w, w.below);
  }

  /** A stuck search is one that no number of iterations is enough for. */
  lemma StuckIsEndless(s: Stream, g: Goal)
    requires 1 <= s.first
    ensures Sound(s, g, Start(s))
    ensures Run(s, g, Start(s)) == Stuck <==> forall rounds: nat :: Find(s, g, rounds) == OutOfRounds
  {
    if Run(s, g, Start(s)) == Stuck {
      forall rounds: nat ensures Find(s, g, rounds) == OutOfRounds {
        EndsOrNever(s, g, Start(s), rounds);
      }
    } else {
      EndsOrNever(s, g, Start(s), s.last + 1);
      assert Find(s, g, s.last + 1) != OutOfRounds;
    }
  }

  /** With distinct timestamps some search loops forever if and only if the deleted tail is short, or a
      number below the last entry probed while every probe is early is deleted. */
  lemma LoopsExactly(s: Stream)
    requires 1 <= s.first && DistinctTimes(s)
    ensures (exists g :: Sound(s, g, Start(s)) && Run(s, g, Start(s)) == Stuck) <==> ShortTail(s) || !Dense(s, Reach(s))
  {
    if tail :| IsTail(s, tail) && 0 < s.last - tail < BLIND {
      var g := ShortTailLoops(s, tail);
    } else if !Dense(s, Reach(s)) {
      ReachIsStored(s, s.first, 0);
      var hole :| s.first <= hole <= Reach(s) && hole !in s.msgs;
      var g := GapLoops(s, hole);
    } else {
      forall g | Sound(s, g, Start(s)) ensures Run(s, g, Start(s)) != Stuck {
        NoLoop(s, g, Start(s));
      }
    }
  }

  /** With distinct timestamps and one of the last 255 numbers stored, no search loops if and only if no
      number is deleted. */
  lemma LoopsUnlessGapFree(s: Stream, tail: nat)
    requires 1 <= s.first && DistinctTimes(s) && tail in s.msgs && s.last - tail < BLIND
    ensures GapFree(s) <==> forall g :: Sound(s, g, Start(s)) && Run(s, g, Start(s)) != Stuck
  {
    if GapFree(s) {
      forall g ensures Sound(s, g, Start(s)) && Run(s, g, Start(s)) != Stuck {
        StoredFinishes(s, g, Start(s));
      }
    } else {
      var hole :| s.first <= hole <= s.last && hole !in s.msgs;
      var g := GoalAt(s, hole);
      HoleNotFinished(s, g, hole);
      NeverMisses(s, g, Start(s), tail);
    }
  }

  /** Two entries with one deleted number between them. */
  ghost predicate TwoOfThree(s: Stream) {
    1 <= s.first && s.last == s.first + 2 && s.first in s.msgs && s.first + 1 !in s.msgs && s.last in s.msgs
  }

  lemma TwoOfThreeProbes(s: Stream)
    requires TwoOfThree(s)
    ensures Probe(s, s.first + 1) == Some(s.last) && Probe(s, s.first) == Some(s.first) && Reach(s) == s.last
  {
    assert NextStored(s, s.first + 1, s.last) == Some(s.last);
    assert ReachFrom(s, s.last + 1, s.last) == s.last;
  }

  /** Equal timestamps can hide a gap: no boundary falls between the two entries, and every search finishes. */
  lemma TiesHideGaps(s: Stream, g: Goal)
    requires TwoOfThree(s) && s.msgs[s.first].time == s.msgs[s.last].time
    ensures !Dense(s, Reach(s)) && Sound(s, g, Start(s)) && Run(s, g, Start(s)).Finished?
  {
    TwoOfThreeProbes(s);
    var w := Step(s, g, Start(s)).w;
    Progress(s, g, Start(s));
    assert w != Start(s);
    if Open(w) {
      var v := Step(s, g, w).w;
      Progress(s, g, w);
      assert v != w && !Open(v);
      assert Run(s, g, w) == Run(s, g, v);
    }
    assert Run(s, g, Start(s)) == Run(s, g, w);
  }

  /** Deleted entries without a loop: with 1 and 3 stored and 500 the last number, every search ends at its
      first probe, which misses. */
  lemma LongTailEndsAll(s: Stream, g: Goal)
    requires s.first == 1 && s.last == 500 && s.msgs.Keys == {1, 3}
    ensures !GapFree(s) && Sound(s, g, Start(s)) && Run(s, g, Start(s)) == Missed
  {
    assert forall j :: j in s.msgs <==> j in s.msgs.Keys;
    NextStoredExact(s, Mid(Start(s)), s.last);
    PrevStoredExact(s, Mid(Start(s)), MAX_PREV_WALK);
    assert 2 !in s.msgs;
  }

  // ----- What the answers mean

  /** A search succeeds only if the answer's neighbour on the other side of the boundary is stored
      as well, or lies outside the stream. */
  lemma FoundHasNeighbour(s: Stream, g: Goal, rounds: nat, k: nat)
    requires Find(s, g, rounds) == Seq(k)
    ensures g.AtOrAfter? ==> k == s.first || k - 1 in s.msgs
    ensures g.AtOrBefore? ==> k == s.last || k + 1 in s.msgs
  {
    var below, above := FoundByRun(s, g, rounds, k);
    BoundaryNotInGap(s, g, below, above);
  }

  /** Not-found is right whenever one of the last 255 sequence numbers is still stored. */
  lemma NotFoundIsRight(s: Stream, g: Goal, rounds: nat, tail: nat)
    requires InTimeOrder(s) && Find(s, g, rounds) == NotFound
    requires tail in s.msgs && s.last - tail < BLIND
    ensures forall k :: !Qualifies(s, g, k)
  {
    EndsOrNever(s, g, Start(s), rounds);
    NeverMisses(s, g, Start(s), tail);
    var o := Run(s, g, Start(s));
    FinishedIsExact(s, g, o.below, o.above);
  }

  /** On a stream without deleted entries both searches end within one iteration per sequence number
      and report not-found exactly when nothing qualifies. */
  lemma GapFreeSearch(s: Stream, g: Goal, rounds: nat)
    requires InTimeOrder(s) && GapFree(s) && rounds > s.last - s.first
    ensures Find(s, g, rounds) == NotFound <==> forall k :: !Qualifies(s, g, k)
    ensures Find(s, g, rounds) != NotFound ==> Find(s, g, rounds).Seq?
  {
    if s.first != 0 && s.last != 0 {
      EndsOrNever(s, g, Start(s), rounds);
      StoredFinishes(s, g, Start(s));
      var o := Run(s, g, Start(s));
      FinishedIsExact(s, g, o.below, o.above);
      assert o.above != 0 && g.AtOrAfter? ==> Qualifies(s, g, o.above);
      assert o.below != 0 && g.AtOrBefore? ==> Qualifies(s, g, o.below);
    }
  }

  /** The answer to a search with every stored entry on the early side. */
  lemma AllEarlyAnswer(s: Stream, g: Goal, rounds: nat, tail: nat)
    requires AllEarly(s, g) && IsTail(s, tail) && rounds > s.last - s.first
    ensures Find(s, g, rounds) ==
      if tail != s.last && s.last - tail < BLIND then OutOfRounds
      else if tail == s.last && g.AtOrBefore? then Seq(tail) else NotFound
  {
    AllEarlyOutcome(s, g, Start(s), tail);
    EndsOrNever(s, g, Start(s), rounds);
  }

  /** Every not-found answer on a stream is right if and only if fewer than 255 numbers are deleted behind
      its last stored entry. */
  lemma NotFoundExact(s: Stream, tail: nat)
    requires InTimeOrder(s) && IsTail(s, tail)
    ensures s.last - tail < BLIND <==>
            forall g, rounds: nat, k :: Find(s, g, rounds) == NotFound ==> !Qualifies(s, g, k)
  {
    if s.last - tail < BLIND {
      forall g, rounds: nat, k | Find(s, g, rounds) == NotFound ensures !Qualifies(s, g, k) {
        NotFoundIsRight(s, g, rounds, tail);
      }
    } else {
      var g, rounds := AtOrBefore(s.msgs[tail].time), s.last + 1;
      AllEarlyAnswer(s, g, rounds, tail);
      assert Qualifies(s, g, tail);
    }
  }

  /** One stored entry and 299 deleted ones behind it: both searches report not-found although it qualifies. */
  lemma LostBehindTail(s: Stream, g: Goal, rounds: nat)
    requires s.first == 1 && s.last == 300 && s.msgs.Keys == {1} && rounds > 0 && Qualifies(s, g, 1)
    ensures Find(s, g, rounds) == NotFound
  {
    assert forall j :: j in s.msgs <==> j in s.msgs.Keys;
    NextStoredExact(s, Mid(Start(s)), s.last);
    PrevStoredExact(s, Mid(Start(s)), MAX_PREV_WALK);
  }

  // ----- Searches that never end

  /** A gap across the boundary: the entry asked for has no stored neighbour there, and is not at the end. */
  predicate GapBehind(s: Stream, g: Goal, k: nat) {
    if g.AtOrAfter? then k != s.first && k - 1 !in s.msgs else k != s.last && k + 1 !in s.msgs
  }

  lemma GapNotFound(s: Stream, g: Goal, k: nat, rounds: nat)
    requires InTimeOrder(s) && Answers(s, g, k) && GapBehind(s, g, k)
    ensures !Find(s, g, rounds).Seq?
  {
    var r := Find(s, g, rounds);
    if r.Seq? {
      FoundIsRight(s, g, rounds, r.k);
      assert r.k == k;
      FoundHasNeighbour(s, g, rounds, r.k);
    }
  }

  lemma AnswerNotMissed(s: Stream, g: Goal, k: nat, tail: nat, rounds: nat)
    requires InTimeOrder(s) && Answers(s, g, k)
    requires tail in s.msgs && s.last - tail < BLIND
    ensures Find(s, g, rounds) != NotFound
  {
    assert Qualifies(s, g, k);
    if Find(s, g, rounds) == NotFound {
      NotFoundIsRight(s, g, rounds, tail);
    }
  }

  /** If the entry asked for has a gap on the other side of the boundary, and one of the last 255
      sequence numbers is stored, the search never ends: no number of iterations is enough. */
  lemma GapNeverEnds(s: Stream, g: Goal, k: nat, tail: nat, rounds: nat)
    requires InTimeOrder(s) && Answers(s, g, k) && GapBehind(s, g, k)
    requires tail in s.msgs && s.last - tail < BLIND
    ensures Find(s, g, rounds) == OutOfRounds
  {
    GapNotFound(s, g, k, rounds);
    AnswerNotMissed(s, g, k, tail, rounds);
  }

  /** The smallest such stream: entries 1 and 10, asked for the second one. */
  lemma TwoEntriesNeverEnd(s: Stream, t: int, rounds: nat)
    requires InTimeOrder(s) && s.first == 1 && s.last == 10 && s.msgs.Keys == {1, 10}
    requires s.msgs[1].time < t <= s.msgs[10].time
    ensures Find(s, AtOrAfter(t), rounds) == OutOfRounds
  {
    assert forall j :: j in s.msgs <==> j in s.msgs.Keys;
    GapNeverEnds(s, AtOrAfter(t), 10, 10, rounds);
  }

  /** A gap away from the boundary is enough too: entries 1, 2, 3 and 100, asked for 3 with 2 beside it. */
  lemma DistantGapNeverEnds(s: Stream, t: int, rounds: nat)
    requires s.first == 1 && s.last == 100 && s.msgs.Keys == {1, 2, 3, 100}
    requires s.msgs[2].time < t <= s.msgs[3].time && t <= s.msgs[100].time
    ensures Find(s, AtOrAfter(t), rounds) == OutOfRounds
  {
    var g, w := AtOrAfter(t), Window(1, 99, 0, 100);
    assert forall j :: j in s.msgs <==> j in s.msgs.Keys;
    NextStoredExact(s, 50, s.last);
    StuckExactly(s, g, w);
    assert Step(s, g, Start(s)) == Next(w);
    assert Run(s, g, Start(s)) == Stuck;
    EndsOrNever(s, g, Start(s), rounds);
  }
}
