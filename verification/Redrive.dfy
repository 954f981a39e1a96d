/** Batch redrive from a dead-letter stream (dlq/replay.go). */
module Redrive {
  import opened Log

  /** The two headers the filters read, as headerGet returns them for a stored message. */
  datatype Headers = Headers(reason: string, original: string)

  datatype Config = Config(
    sourceStream: string, destSubject: string, reasonFilter: string, subjectFilter: string, startSeq: u64, limit: int, dryRun: bool)

  datatype Result = Result(considered: nat, matched: nat, published: nat, skipped: nat, lastSeq: u64)

  datatype Exit =
    | Completed           // nil error: limit reached, stream exhausted, or the source stopped answering
    | Rejected            // missing arguments
    | Cancelled
    | PublishFailed

  // ----- Filters

  /** strings.EqualFold: `fold` maps a character to the representative of its case orbit. */
  predicate EqualFold(a: string, b: string, fold: char -> char) {
    |a| == |b| && forall i :: 0 <= i < |a| ==> fold(a[i]) == fold(b[i])
  }

  predicate Matches(h: Headers, c: Config, fold: char -> char) {
    && (c.reasonFilter != "" ==> EqualFold(h.reason, c.reasonFilter, fold))
    && (c.subjectFilter != "" ==> h.original == c.subjectFilter)
  }

  // ----- What is considered and what is published

  function Limit(c: Config): nat
  {
    if c.limit <= 0 then 100 else c.limit
  }

  function StartSeq(c: Config): u64
  {
    if c.startSeq == 0 then 1 else c.startSeq
  }

  function Take<T>(xs: seq<T>, n: nat): seq<T> {
    if |xs| <= n then xs else xs[..n]
  }

  /** All stored messages from the start, in order. */
  function Eligible(s: Stream, c: Config): seq<Msg> {
    StoredIn(s, StartSeq(c), s.last)
  }

  /** The messages that pass the filters, in order. */
  function Selected(ms: seq<Msg>, c: Config, headers: Msg -> Headers, fold: char -> char): (r: seq<Msg>)
    ensures |r| <= |ms|
  {
    if ms == [] then []
    else
      Selected(ms[..|ms| - 1], c, headers, fold)
      + if Matches(headers(ms[|ms| - 1]), c, fold) then [ms[|ms| - 1]] else []
  }

  /** Exactly the messages whose reason equals the reason filter up to case, and whose original subject equals
      the subject filter; an empty filter lets everything pass. */
  lemma {:induction false} SelectedExactly(ms: seq<Msg>, c: Config, headers: Msg -> Headers, fold: char -> char, m: Msg)
    ensures m in Selected(ms, c, headers, fold) <==>
      && m in ms
      && (c.reasonFilter == "" ||
          (|headers(m).reason| == |c.reasonFilter| && forall i :: 0 <= i < |c.reasonFilter| ==> fold(headers(m).reason[i]) == fold(c.reasonFilter[i])))
      && (c.subjectFilter == "" || headers(m).original == c.subjectFilter)
  {
    if ms != [] {
      var n := |ms| - 1;
      SelectedExactly(ms[..n], c, headers, fold, m);
      assert ms == ms[..n] + [ms[n]];
    }
  }

  /** The next message: GetMsg for the first one and, on any error, the next after its predecessor;
      GetNextMsgAfter for the others. */
  method FetchNext(s: Stream, first: bool, seqno: u64, up: bool) returns (r: Fetch)
    requires 0 < seqno && (!first ==> seqno <= s.last)
    ensures var rest := StoredIn(s, if first then seqno else seqno + 1, s.last);
      && (r.Found? ==> 0 < r.msg.sequence <= s.last && rest == [r.msg] + StoredIn(s, r.msg.sequence + 1, s.last))
      && (r.Missing? ==> rest == [])
    ensures r.Failed? ==> !up
  {
    if first {
      r := GetMsg(s, seqno, up);
      if r.Found? {
        return;
      }
    }
    var after := if first then seqno - 1 else seqno;
    r := WalkForward(s, after, s.last, up);
    StoredInNext(s, after, s.last);
  }

  /** The counters and the published messages, given the messages considered so far. */
  ghost predicate Tally(c: Config, headers: Msg -> Headers, fold: char -> char, seen: seq<Msg>, out: Result, sent: seq<Msg>) {
    && out.considered == |seen| && out.matched == |Selected(seen, c, headers, fold)|
    && out.published <= out.matched <= out.considered == out.matched + out.skipped
    && out.published == |sent| && sent == (if c.dryRun then [] else Selected(seen, c, headers, fold))
    && (seen != [] ==> out.lastSeq == seen[|seen| - 1].sequence)
  }

  /** The same after a publish that failed: only the last message is missing. */
  ghost predicate TallyAtFailure(c: Config, headers: Msg -> Headers, fold: char -> char, seen: seq<Msg>, out: Result, sent: seq<Msg>) {
    && seen != [] && !c.dryRun && out.considered == |seen| && out.matched == |Selected(seen, c, headers, fold)|
    && out.published <= out.matched <= out.considered == out.matched + out.skipped
    && out.published == |sent| && sent + [seen[|seen| - 1]] == Selected(seen, c, headers, fold)
    && out.lastSeq == seen[|seen| - 1].sequence
  }

  /** One pass of the loop body over a fetched message: count it, filter it, publish it. */
  method Consider(m: Msg, headers: Msg -> Headers, c: Config, fold: char -> char, ghost seen: seq<Msg>, out0: Result, sent0: seq<Msg>, calm: bool)
    returns (out: Result, sent: seq<Msg>, ok: bool)
    requires Tally(c, headers, fold, seen, out0, sent0)
    ensures out.considered == out0.considered + 1
    ensures calm ==> ok
    ensures ok ==> Tally(c, headers, fold, seen + [m], out, sent)
    ensures !ok ==> TallyAtFailure(c, headers, fold, seen + [m], out, sent)
  {
    assert (seen + [m])[..|seen|] == seen;
    out, sent, ok := out0.(lastSeq := m.sequence, considered := out0.considered + 1), sent0, true;
    if !Matches(headers(m), c, fold) {
      out := out.(skipped := out.skipped + 1);
      return;
    }
    out := out.(matched := out.matched + 1);
    if c.dryRun {
      return;
    }
    var fails: bool := *;
    ok := calm || !fails;
    if ok {
      sent := sent + [m];
      out := out.(published := out.published + 1);
    }
  }

  /** `seen` are the eligible messages up to `seqno`, or none yet. */
  ghost predicate Passed(s: Stream, c: Config, seqno: u64, seen: seq<Msg>) {
    && 0 < seqno && (seen != [] ==> seqno <= s.last)
    && Eligible(s, c) == seen + StoredIn(s, if seen == [] then seqno else seqno + 1, s.last)
  }

  lemma PassedOne(s: Stream, c: Config, seqno: u64, seen: seq<Msg>, m: Msg)
    requires Passed(s, c, seqno, seen) && 0 < m.sequence <= s.last
    requires StoredIn(s, if seen == [] then seqno else seqno + 1, s.last) == [m] + StoredIn(s, m.sequence + 1, s.last)
    ensures Passed(s, c, m.sequence, seen + [m])
  {
    assert seen + ([m] + StoredIn(s, m.sequence + 1, s.last)) == seen + [m] + StoredIn(s, m.sequence + 1, s.last);
  }

  /** The messages a run considers: stored ones from the start, 1 by default, in ascending order, no more than
      the limit, 100 by default; all of these if it reads the whole. */
  ghost predicate Considers(s: Stream, c: Config, seen: seq<Msg>, whole: bool) {
    var eligible := StoredIn(s, if c.startSeq == 0 then 1 else c.startSeq, s.last);
    var limit := if c.limit <= 0 then 100 else c.limit;
    seen <= eligible && |seen| <= limit && (whole ==> seen == Take(eligible, limit))
  }

  /** At the limit or at the end of the stream. */
  lemma PassedAll(s: Stream, c: Config, seqno: u64, seen: seq<Msg>)
    requires Passed(s, c, seqno, seen) && |seen| <= Limit(c)
    ensures Considers(s, c, seen, false)
    ensures |seen| == Limit(c) || StoredIn(s, if seen == [] then seqno else seqno + 1, s.last) == [] ==>
      Considers(s, c, seen, true)
  {}

  /** The end of one pass of the loop. */
  datatype PassEnd = GoesOn | Stops(exit: Exit, unanswered: bool)

  /** What holds when the loop is left. */
  ghost predicate Ended(s: Stream, headers: Msg -> Headers, c: Config, fold: char -> char, e: PassEnd,
                        out: Result, sent: seq<Msg>, seen: seq<Msg>) {
    && e.Stops? && e.exit != Rejected && Considers(s, c, seen, e.exit == Completed && !e.unanswered)
    && if e.exit == PublishFailed then TallyAtFailure(c, headers, fold, seen, out, sent)
       else Tally(c, headers, fold, seen, out, sent)
  }

  ghost predicate UnderWay(s: Stream, headers: Msg -> Headers, c: Config, fold: char -> char, seqno: u64,
                           out: Result, sent: seq<Msg>, seen: seq<Msg>) {
    |seen| <= Limit(c) && Tally(c, headers, fold, seen, out, sent) && Passed(s, c, seqno, seen)
  }

  /** One pass of the loop. */
  method Pass(s: Stream, headers: Msg -> Headers, c: Config, fold: char -> char, calm: bool,
              seqno0: u64, out0: Result, sent0: seq<Msg>, ghost seen0: seq<Msg>)
    returns (e: PassEnd, seqno: u64, out: Result, sent: seq<Msg>, ghost seen: seq<Msg>)
    requires UnderWay(s, headers, c, fold, seqno0, out0, sent0, seen0) && out0.considered < Limit(c)
    ensures e == GoesOn ==>
      UnderWay(s, headers, c, fold, seqno, out, sent, seen) && out.considered == out0.considered + 1
    ensures e != GoesOn ==> Ended(s, headers, c, fold, e, out, sent, seen)
    ensures calm && e != GoesOn ==> e == Stops(Completed, false)
  {
    PassedAll(s, c, seqno0, seen0);
    seqno, out, sent, seen := seqno0, out0, sent0, seen0;
    var cancelled: bool := *;
    if cancelled && !calm {
      return Stops(Cancelled, false), seqno, out, sent, seen;
    }
    var raw := FetchNext(s, out.considered == 0, seqno, calm);
    if !raw.Found? {
      return Stops(Completed, raw.Failed?), seqno, out, sent, seen;
    }
    PassedOne(s, c, seqno, seen, raw.msg);
    seqno := raw.msg.sequence;
    var ok: bool;
    out, sent, ok := Consider(raw.msg, headers, c, fold, seen, out, sent, calm);
    seen := seen + [raw.msg];
    PassedAll(s, c, seqno, seen);
    if !ok {
      return Stops(PublishFailed, false), seqno, out, sent, seen;
    }
    var interrupted: bool := *;   // while waiting for the rate limit, after a publish
    if out.published > out0.published && interrupted && !calm {
      return Stops(Cancelled, false), seqno, out, sent, seen;
    }
    return GoesOn, seqno, out, sent, seen;
  }

  /** Considers the stored messages from the start, each once and in ascending order, at most `Limit` of
      them, and exactly the first `Limit` when no request fails and nothing is cancelled.  On every exit
      considered = matched + skipped; a run that is not a dry run has published exactly the matching
      messages in order, up to the publish that failed, if one did.  `calm` says that every request and
      every publish succeeds and the context lasts; then the run completes. */
  method ReplayToStream(s: Stream, headers: Msg -> Headers, c: Config, fold: char -> char, calm: bool)
    returns (exit: Exit, out: Result, sent: seq<Msg>, ghost seen: seq<Msg>, ghost unanswered: bool)
    ensures exit == Rejected <==> c.sourceStream == "" || c.destSubject == ""
    ensures calm && exit != Rejected ==> exit == Completed && !unanswered
    ensures Considers(s, c, seen, exit == Completed && !unanswered)
    ensures exit != PublishFailed ==> Tally(c, headers, fold, seen, out, sent)
    ensures exit == PublishFailed ==> TallyAtFailure(c, headers, fold, seen, out, sent)
  {
    out, sent, seen, unanswered := Result(0, 0, 0, 0, 0), [], [], false;
    if c.sourceStream == "" || c.destSubject == "" {
      return Rejected, out, sent, seen, unanswered;
    }
    var limit := Limit(c);
    var seqno: u64 := StartSeq(c);
    while out.considered < limit
      invariant UnderWay(s, headers, c, fold, seqno, out, sent, seen)
      decreases limit - out.considered
    {
      var e;
      e, seqno, out, sent, seen := Pass(s, headers, c, fold, calm, seqno, out, sent, seen);
      if e.Stops? {
        return e.exit, out, sent, seen, e.unanswered;
      }
    }
    PassedAll(s, c, seqno, seen);
    return Completed, out, sent, seen, unanswered;
  }
}
