/** A JetStream stream as replay.go and stream_manager.go see it: numbered messages with gaps where
    entries were deleted, read one sequence number at a time. */
module Log {
  import opened Basics

  const U64_MAX: int := 0xFFFF_FFFF_FFFF_FFFF

  type u64 = x: int | 0 <= x <= 0xFFFF_FFFF_FFFF_FFFF

  datatype Msg = Msg(sequence: u64, time: int, subject: string, data: seq<char>)

  datatype Entries = Entries(first: u64, last: u64, msgs: map<u64, Msg>)

  /** Entries lie between FirstSeq and LastSeq and know their own number; LastSeq is not the largest uint64. */
  ghost predicate Numbered(s: Entries) {
    && s.last < U64_MAX && s.first <= s.last + 1
    && forall k :: k in s.msgs ==> 1 <= s.first <= k <= s.last && s.msgs[k].sequence == k
  }

  /** Every stream is one of these. */
  type Stream = s: Entries | Numbered(s) witness Entries(1, 0, map[])

  /** Entries were stored in time order. */
  ghost predicate InTimeOrder(s: Stream) {
    forall j, k :: j in s.msgs && k in s.msgs && j <= k ==> s.msgs[j].time <= s.msgs[k].time
  }

  /** The answer to one GetMsg request; any other error is a failed request. */
  datatype Fetch = Found(msg: Msg) | Missing | Failed

  /** `up` says that every request is answered; otherwise any of them may fail. */
  method GetMsg(s: Stream, seqno: u64, up: bool) returns (r: Fetch)
    ensures r.Found? ==> seqno in s.msgs && r.msg == s.msgs[seqno]
    ensures r.Missing? ==> seqno !in s.msgs
    ensures r.Failed? ==> !up
  {
    var fails: bool := *;
    if fails && !up {
      r := Failed;
    } else if seqno in s.msgs {
      r := Found(s.msgs[seqno]);
    } else {
      r := Missing;
    }
  }

  // ----- The next stored entry

  /** The least stored sequence in (after, upTo]. */
  function NextStored(s: Stream, after: nat, upTo: nat): (r: Option<nat>)
    ensures r.Some? ==> r.value in s.msgs
    decreases upTo - after
  {
    if after >= upTo then None
    else if after + 1 in s.msgs then Some(after + 1)
    else NextStored(s, after + 1, upTo)
  }

  lemma {:induction false} NextStoredExact(s: Stream, after: nat, upTo: nat)
    ensures match NextStored(s, after, upTo)
            case Some(m) => after < m <= upTo && m in s.msgs && forall k :: after < k < m ==> k !in s.msgs
            case None => forall k :: after < k <= upTo ==> k !in s.msgs
    decreases upTo - after
  {
    if after < upTo {
      NextStoredExact(s, after + 1, upTo);
    }
  }

  /** The forward walk shared by getNextMsgAfterKnownLast and the range reader. */
  method WalkForward(s: Stream, after: u64, upTo: u64, up: bool) returns (r: Fetch)
    requires upTo <= s.last && after < U64_MAX
    ensures r.Found? ==> after < r.msg.sequence <= upTo && r.msg.sequence in s.msgs && r.msg == s.msgs[r.msg.sequence]
    ensures r.Found? ==> NextStored(s, after, upTo) == Some(r.msg.sequence)
    ensures r.Missing? ==> NextStored(s, after, upTo) == None
    ensures r.Failed? ==> !up
  {
    var next: u64 := after + 1;
    while next <= upTo
      invariant after < next && (next == after + 1 || next - 1 <= s.last)
      invariant forall k :: after < k < next ==> k !in s.msgs
    {
      var m := GetMsg(s, next, up);
      if !m.Missing? {
        if m.Found? {
          NextStoredExact(s, after, upTo);
        }
        return m;
      }
      next := next + 1;
    }
    NextStoredExact(s, after, upTo);
    return Missing;
  }

  // ----- The stored entries of an interval, in order

  function StoredIn(s: Stream, lo: nat, hi: nat): (r: seq<Msg>)
    decreases hi + 1 - lo
  {
    if lo > hi then []
    else if lo in s.msgs then [s.msgs[lo]] + StoredIn(s, lo + 1, hi)
    else StoredIn(s, lo + 1, hi)
  }

  /** The list holds exactly the stored entries of the interval, each once, in ascending order. */
  lemma {:induction false} StoredInExact(s: Stream, lo: nat, hi: nat)
    ensures forall i :: 0 <= i < |StoredIn(s, lo, hi)| ==>
              var m := StoredIn(s, lo, hi)[i]; lo <= m.sequence <= hi && m.sequence in s.msgs && m == s.msgs[m.sequence]
    ensures forall i, j :: 0 <= i < j < |StoredIn(s, lo, hi)| ==> StoredIn(s, lo, hi)[i].sequence < StoredIn(s, lo, hi)[j].sequence
    ensures forall k :: lo <= k <= hi && k in s.msgs ==> s.msgs[k] in StoredIn(s, lo, hi)
    decreases hi + 1 - lo
  {
    if lo <= hi {
      StoredInExact(s, lo + 1, hi);
    }
  }

  /** Skipping a gap does not change the list. */
  lemma {:induction false} StoredInSkip(s: Stream, lo: nat, mid: nat, hi: nat)
    requires lo <= mid && forall k :: lo <= k < mid ==> k !in s.msgs
    ensures StoredIn(s, lo, hi) == StoredIn(s, mid, hi)
    decreases mid - lo
  {
    if lo < mid {
      StoredInSkip(s, lo + 1, mid, hi);
    }
  }

  lemma {:induction false} StoredInSplit(s: Stream, lo: nat, mid: nat, hi: nat)
    requires lo <= mid <= hi + 1
    ensures StoredIn(s, lo, hi) == (if mid == 0 then [] else StoredIn(s, lo, mid - 1)) + StoredIn(s, mid, hi)
    decreases mid - lo
  {
    if lo < mid {
      StoredInSplit(s, lo + 1, mid, hi);
    }
  }

  /** The next stored entry is the head of the list that follows. */
  lemma StoredInNext(s: Stream, after: nat, hi: nat)
    ensures match NextStored(s, after, hi)
            case None => StoredIn(s, after + 1, hi) == []
            case Some(k) => StoredIn(s, after + 1, hi) == [s.msgs[k]] + StoredIn(s, k + 1, hi)
  {
    NextStoredExact(s, after, hi);
    match NextStored(s, after, hi)
    case None => StoredInSkip(s, after + 1, if hi > after then hi + 1 else after + 1, hi);
    case Some(k) => StoredInSkip(s, after + 1, k, hi);
  }
}
