/** Capped range reads over a stream with gaps, by sequence and by time, and the incident capsule's window. */
module Range {
  import opened Log
  import opened Search

  const DEFAULT_MSG_RANGE_MAX := 1000

  /** The cap after all WithMaxMessages options: the last positive one, or the default. */
  function MaxMessages(opts: seq<int>): (r: nat)
    ensures r > 0
    ensures (forall i :: 0 <= i < |opts| ==> opts[i] <= 0) ==> r == 1000
    ensures forall i :: 0 <= i < |opts| && opts[i] > 0 && (forall j :: i < j < |opts| ==> opts[j] <= 0) ==> r == opts[i]
  {
    if opts == [] then DEFAULT_MSG_RANGE_MAX
    else if opts[|opts| - 1] > 0 then opts[|opts| - 1]
    else MaxMessages(opts[..|opts| - 1])
  }

  method ApplyMsgRangeOpts(opts: seq<int>) returns (max: nat)
    ensures max == MaxMessages(opts)
  {
    max := DEFAULT_MSG_RANGE_MAX;
    for i := 0 to |opts|
      invariant max == MaxMessages(opts[..i])
    {
      assert opts[..i + 1][..i] == opts[..i];
      if opts[i] > 0 {
        max := opts[i];
      }
    }
    assert opts[..|opts|] == opts;
  }

  datatype RangeResult =
    | Range(msgs: seq<Msg>, truncated: bool)
    | InvalidBound
    | NoSearch(why: Answer)   // a time bound could not be resolved
    | ReadFailed

  function Capped(all: seq<Msg>, max: nat): RangeResult {
    Range(if |all| > max then all[..max] else all, |all| > max)
  }

  /** What a range read means: the first `max` stored entries of [start, min(end, last)], and whether there are more. */
  function RangeOf(s: Stream, startSeq: nat, endSeq: nat, max: nat): RangeResult {
    if startSeq == 0 || endSeq == 0 || endSeq < startSeq then InvalidBound
    else Capped(StoredIn(s, startSeq, if endSeq > s.last then s.last else endSeq), max)
  }

  /** The first stored entry of the interval: the one at its start, else the next one. */
  method FirstInRange(s: Stream, startSeq: u64, endSeq: u64, up: bool) returns (r: Fetch)
    requires 0 < startSeq && startSeq <= endSeq <= s.last
    ensures r.Found? ==> startSeq <= r.msg.sequence <= endSeq
    ensures r.Found? ==> StoredIn(s, startSeq, endSeq) == [r.msg] + StoredIn(s, r.msg.sequence + 1, endSeq)
    ensures r.Missing? ==> StoredIn(s, startSeq, endSeq) == []
    ensures r.Failed? ==> !up
  {
    r := GetMsg(s, startSeq, up);
    if r.Missing? {
      r := WalkForward(s, startSeq - 1, endSeq, up);
      StoredInNext(s, startSeq - 1, endSeq);
    }
  }

  method GetMsgRange(s: Stream, startSeq: u64, endSeq0: u64, opts: seq<int>, up: bool) returns (r: RangeResult)
    ensures (r == ReadFailed && !up) || r == RangeOf(s, startSeq, endSeq0, MaxMessages(opts))
    ensures r == InvalidBound <==> startSeq == 0 || endSeq0 == 0 || endSeq0 < startSeq
  {
    if startSeq == 0 || endSeq0 == 0 || endSeq0 < startSeq {
      return InvalidBound;
    }
    var max := ApplyMsgRangeOpts(opts);
    var out: seq<Msg>, truncated := [], false;
    var last, endSeq := s.last, endSeq0;
    if endSeq > last { endSeq := last; }
    if startSeq > last {
      return Range(out, false);
    }
    ghost var all := StoredIn(s, startSeq, endSeq);
    var raw := FirstInRange(s, startSeq, endSeq, up);
    if !raw.Found? {
      return if raw.Missing? then Range(out, false) else ReadFailed;
    }
    var cur: u64;
    out, cur := [raw.msg], raw.msg.sequence;
    while true
      invariant startSeq <= cur <= endSeq && 0 < |out| <= max && !truncated
      invariant all == out + StoredIn(s, cur + 1, endSeq)
      decreases max - |out|
    {
      StoredInNext(s, cur, endSeq);
      if |out| >= max {
        if cur < endSeq {
          var next := WalkForward(s, cur, endSeq, up);
          if next.Failed? {
            return ReadFailed;
          }
          truncated := next.Found?;
        }
        break;
      }
      if cur >= endSeq {
        break;
      }
      var next := WalkForward(s, cur, endSeq, up);
      if next.Failed? {
        return ReadFailed;
      }
      if next.Missing? {
        break;
      }
      out, cur := out + [next.msg], next.msg.sequence;
    }
    return Range(out, truncated);
  }

  // ----- By time

  function Within(m: Msg, a: int, b: int): bool { a <= m.time <= b }

  function Select(ms: seq<Msg>, a: int, b: int): seq<Msg> {
    if ms == [] then []
    else if Within(ms[0], a, b) then [ms[0]] + Select(ms[1..], a, b)
    else Select(ms[1..], a, b)
  }

  /** All stored entries of the closed time window, in sequence order. */
  function InWindow(s: Stream, a: int, b: int): seq<Msg> {
    Select(StoredIn(s, s.first, s.last), a, b)
  }

  lemma {:induction false} SelectSplit(xs: seq<Msg>, ys: seq<Msg>, a: int, b: int)
    ensures Select(xs + ys, a, b) == Select(xs, a, b) + Select(ys, a, b)
  {
    if xs == [] {
      assert xs + ys == ys;
    } else {
      assert (xs + ys)[1..] == xs[1..] + ys;
      SelectSplit(xs[1..], ys, a, b);
    }
  }

  lemma {:induction false} SelectAll(ms: seq<Msg>, a: int, b: int)
    requires forall i :: 0 <= i < |ms| ==> Within(ms[i], a, b)
    ensures Select(ms, a, b) == ms
  {
    if ms != [] {
      SelectAll(ms[1..], a, b);
    }
  }

  lemma {:induction false} SelectNone(ms: seq<Msg>, a: int, b: int)
    requires forall i :: 0 <= i < |ms| ==> !Within(ms[i], a, b)
    ensures Select(ms, a, b) == []
  {
    if ms != [] {
      SelectNone(ms[1..], a, b);
    }
  }

  /** Outside [i, j] nothing is in the window. */
  lemma OutsideNone(s: Stream, a: int, b: int, i: nat, j: nat, lo: nat, hi: nat)
    requires Answers(s, AtOrAfter(a), i) && Answers(s, AtOrBefore(b), j) && (hi < i || j < lo)
    ensures Select(StoredIn(s, lo, hi), a, b) == []
  {
    StoredInExact(s, lo, hi);
    SelectNone(StoredIn(s, lo, hi), a, b);
  }

  /** Inside [i, j] everything is. */
  lemma InsideAll(s: Stream, a: int, b: int, i: nat, j: nat)
    requires InTimeOrder(s) && Answers(s, AtOrAfter(a), i) && Answers(s, AtOrBefore(b), j)
    ensures Select(StoredIn(s, i, j), a, b) == StoredIn(s, i, j)
  {
    StoredInExact(s, i, j);
    SelectAll(StoredIn(s, i, j), a, b);
  }

  /** The two searches together delimit exactly the window. */
  lemma WindowIsRange(s: Stream, a: int, b: int, i: nat, j: nat)
    requires InTimeOrder(s) && Answers(s, AtOrAfter(a), i) && Answers(s, AtOrBefore(b), j)
    ensures InWindow(s, a, b) == if j < i then [] else StoredIn(s, i, j)
  {
    StoredInSplit(s, s.first, i, s.last);
    SelectSplit(StoredIn(s, s.first, i - 1), StoredIn(s, i, s.last), a, b);
    OutsideNone(s, a, b, i, j, s.first, i - 1);
    if j < i {
      OutsideNone(s, a, b, i, j, i, s.last);
    } else {
      StoredInSplit(s, i, j + 1, s.last);
      SelectSplit(StoredIn(s, i, j), StoredIn(s, j + 1, s.last), a, b);
      OutsideNone(s, a, b, i, j, j + 1, s.last);
      InsideAll(s, a, b, i, j);
    }
  }

  /** A read by time that returns a range returns exactly the first `max` entries of the closed window. */
  method GetMsgRangeByTime(s: Stream, start: int, end: int, opts: seq<int>, rounds: nat, up: bool) returns (r: RangeResult)
    requires InTimeOrder(s)
    ensures end < start <==> r == InvalidBound
    ensures r.Range? ==> r == Capped(InWindow(s, start, end), MaxMessages(opts))
    ensures r.NoSearch? ==> !r.why.Seq?
    ensures up ==> r != ReadFailed && r != NoSearch(RequestFailed)
    ensures r.NoSearch? ==> r.why in {RequestFailed, Find(s, AtOrAfter(start), rounds), Find(s, AtOrBefore(end), rounds)}
  {
    if end < start {
      return InvalidBound;
    }
    var a := FindFirstSeqAtOrAfter(s, start, rounds, up);
    if !a.Seq? {
      return NoSearch(a);
    }
    FoundIsRight(s, AtOrAfter(start), rounds, a.k);
    var b := FindLastSeqAtOrBefore(s, end, rounds, up);
    if !b.Seq? {
      return NoSearch(b);
    }
    FoundIsRight(s, AtOrBefore(end), rounds, b.k);
    WindowIsRange(s, start, end, a.k, b.k);
    if b.k < a.k {
      return Range([], false);
    }
    r := GetMsgRange(s, a.k, b.k, opts, up);
  }

  // ----- The window of an incident capsule

  const DEFAULT_CAPSULE_WINDOW := 50
  const MAX_INT := 0x7FFF_FFFF_FFFF_FFFF

  function CapsuleWindow(window: int): nat
  {
    if window <= 0 then DEFAULT_CAPSULE_WINDOW else window
  }

  lemma {:induction false} StoredInLength(s: Stream, lo: nat, hi: nat)
    ensures |StoredIn(s, lo, hi)| <= if lo <= hi then hi + 1 - lo else 0
    decreases hi + 1 - lo
  {
    if lo <= hi {
      StoredInLength(s, lo + 1, hi);
    }
  }

  /** Where the window of a capsule begins. */
  function CapsuleStart(failing: nat, w: nat): nat {
    if failing > w / 2 then failing - w / 2 else 1
  }

  /** The list holds every stored entry of the interval. */
  ghost predicate HoldsStored(s: Stream, ms: seq<Msg>, lo: nat, hi: nat) {
    forall k :: lo <= k <= hi && k in s.msgs ==> s.msgs[k] in ms
  }

  lemma CappedHolds(s: Stream, all: seq<Msg>, before: seq<Msg>, max: nat, lo: nat, hi: nat)
    requires |before| <= max && before <= all && HoldsStored(s, before, lo, hi)
    ensures HoldsStored(s, Capped(all, max).msgs, lo, hi)
  {
    assert before <= Capped(all, max).msgs;
  }

  lemma StoredUpTo(s: Stream, lo: nat, mid: nat, hi: nat)
    requires lo <= mid <= hi
    ensures StoredIn(s, lo, mid) <= StoredIn(s, lo, hi) && |StoredIn(s, lo, mid)| <= mid + 1 - lo
    ensures HoldsStored(s, StoredIn(s, lo, mid), lo, mid)
  {
    StoredInSplit(s, lo, mid + 1, hi);
    StoredInLength(s, lo, mid);
    StoredInExact(s, lo, mid);
  }

  /** Every stored entry from half a window before the failing one up to it is among the first `w` entries read. */
  lemma WindowHasFailing(s: Stream, failing: nat, w: nat)
    requires 0 < failing && w > 0
    ensures var r, start := RangeOf(s, CapsuleStart(failing, w), failing + w / 2, w), CapsuleStart(failing, w);
      r.Range? && |r.msgs| <= w && HoldsStored(s, r.msgs, start, failing)
  {
    var start, end := CapsuleStart(failing, w), failing + w / 2;
    var e, f := if end > s.last then s.last else end, if failing > s.last then s.last else failing;
    if start <= f {
      StoredUpTo(s, start, f, e);
      CappedHolds(s, StoredIn(s, start, e), StoredIn(s, start, f), w, start, failing);
    }
  }

  method CapsuleBounds(failing: u64, w: nat) returns (start: u64, end: u64)
    requires 0 < failing && 0 < w <= MAX_INT
    ensures start == CapsuleStart(failing, w) && start > 0
    ensures failing + w / 2 <= U64_MAX ==> end == failing + w / 2
    ensures failing + w / 2 > U64_MAX ==> end < start
  {
    var half: u64 := w / 2;
    start := failing;
    if start > half {
      start := start - half;
    } else {
      start := 1;
    }
    var sum := failing + half;
    end := if sum > U64_MAX then sum - (U64_MAX + 1) else sum;
  }

  method ReadCapsule(s: Stream, failing: u64, w: nat, up: bool) returns (r: RangeResult)
    requires 0 < failing && 0 < w <= MAX_INT
    ensures r == InvalidBound <==> failing + w / 2 > U64_MAX
    ensures r != InvalidBound ==> (r == ReadFailed && !up) || r == RangeOf(s, CapsuleStart(failing, w), failing + w / 2, w)
  {
    var start, end := CapsuleBounds(failing, w);
    r := GetMsgRange(s, start, end, [w], up);
  }

  /** The range read of Capture: the first `w` stored entries from half a window before the failing one to half
      a window after it.  A capsule holds its failing entry and every stored one of the half window before
      it, for every window size, unless the end of the window wraps around uint64: then, and only then,
      the read is refused. */
  method CaptureRange(s: Stream, failingSeq: u64, window: int, up: bool) returns (failing: u64, r: RangeResult)
    requires window <= MAX_INT
    ensures failing == if failingSeq == 0 then s.last else failingSeq
    ensures var w := if window <= 0 then 50 else window;
      var start := if failing > w / 2 then failing - w / 2 else 1;
      && (r == InvalidBound <==> failing > 0 && failing + w / 2 > U64_MAX)
      && (failing == 0 ==> r == Range([], false))
      && (failing > 0 && r != InvalidBound ==> (r == ReadFailed && !up) || r == RangeOf(s, start, failing + w / 2, w))
      && (r.Range? ==> |r.msgs| <= w && HoldsStored(s, r.msgs, start, failing))
  {
    failing := failingSeq;
    if failing == 0 && s.last > 0 {
      failing := s.last;
    }
    r := Range([], false);
    if failing > 0 {
      var w := CapsuleWindow(window);
      r := ReadCapsule(s, failing, w, up);
      WindowHasFailing(s, failing, w);
    }
  }
}
