/** The flight recorder's ring buffer (flight_recorder.go). */
module Recorder {

  /** What Snapshot promises: the last `n` recorded events, oldest first. */
  function LastOf<T>(xs: seq<T>, n: nat): (r: seq<T>)
    ensures |r| == if |xs| < n then |xs| else n
    ensures forall i :: 0 <= i < |r| ==> r[i] == xs[|xs| - |r| + i]
  {
    if |xs| <= n then xs else xs[|xs| - n..]
  }

  /** `stamp` is the event's time; 0 stands for the zero time, replaced by the clock. */
  datatype Event = Event(stamp: int, kind: int, detail: string)

  function Stamped(ev: Event, now: int): Event {
    if ev.stamp == 0 then ev.(stamp := now) else ev
  }

  /** Behind `next` lie the newest events; a full ring holds the ones before them from `next` on. */
  ghost predicate Ring(buf: seq<Event>, history: seq<Event>, next: nat, full: bool) {
    && next < |buf| && (if full then |history| >= |buf| else |history| == next)
    && (forall k :: 0 <= k < next ==> buf[k] == history[|history| - next + k])
    && (full ==> forall k :: next <= k < |buf| ==> buf[k] == history[|history| - next - |buf| + k])
  }

  function Advance(next: nat, cap: nat): (r: nat)
    requires next < cap
    ensures r == if next + 1 == cap then 0 else next + 1
  {
    (next + 1) % cap
  }

  /** A full ring read from `next` round to `next` is the last |buf| events; a ring not yet full is the
      whole history. */
  lemma Unrolled(buf: seq<Event>, history: seq<Event>, next: nat, full: bool)
    requires Ring(buf, history, next, full)
    ensures LastOf(history, |buf|) == if full then buf[next..] + buf[..next] else buf[..next]
  {
    var c, n := |buf|, |history|;
    if full {
      var out := buf[next..] + buf[..next];
      forall i | 0 <= i < c
        ensures out[i] == LastOf(history, c)[i]
      {
        if i < c - next {
          assert out[i] == buf[next + i];
        } else {
          assert out[i] == buf[i - (c - next)];
        }
      }
    }
  }

  class FlightRecorder {
    const buf: array<Event>
    var next: nat
    var full: bool
    ghost var history: seq<Event>   // every event ever recorded

    ghost predicate Valid()
      reads this, buf
    {
      Ring(buf[..], history, next, full)
    }

    constructor (capacity: int)
      ensures Valid() && fresh(buf) && history == []
      ensures buf.Length == if capacity <= 0 then 128 else capacity
    {
      var c: nat := if capacity <= 0 then 128 else capacity;
      buf := new Event[c](_ => Event(0, 0, ""));
      next, full, history := 0, false, [];
    }

    /** Overwrites the oldest event when the ring is full. */
    method Record(ev0: Event, now: int)
      requires Valid()
      modifies this, buf
      ensures Valid() && history == old(history) + [Stamped(ev0, now)]
    {
      var ev := ev0;
      if ev.stamp == 0 {
        ev := ev.(stamp := now);
      }
      ghost var ring := buf[..][next := ev];
      buf[next] := ev;
      assert buf[..] == ring;
      next := Advance(next, buf.Length);
      if next == 0 {
        full := true;
      }
      history := history + [ev];
    }

    /** The last min(n, capacity) of the n recorded events, in the order they were recorded. */
    method Snapshot() returns (out: seq<Event>)
      requires Valid()
      ensures out == LastOf(history, buf.Length)
    {
      Unrolled(buf[..], history, next, full);
      if !full && next == 0 {
        return [];
      }
      if !full {
        return buf[..next];
      }
      out := buf[next..] + buf[..next];
    }
  }

  /** A fresh recorder fed any list of events reports the last of them, whatever the capacity. */
  method RecordAll(capacity: int, events: seq<Event>, clock: seq<int>) returns (out: seq<Event>)
    requires |clock| == |events|
    ensures out == LastOf(seq(|events|, i requires 0 <= i < |events| =>
                              if events[i].stamp == 0 then events[i].(stamp := clock[i]) else events[i]),
                          if capacity <= 0 then 128 else capacity)
  {
    var r := new FlightRecorder(capacity);
    ghost var all := seq(|events|, i requires 0 <= i < |events| =>
                         if events[i].stamp == 0 then events[i].(stamp := clock[i]) else events[i]);
    for i := 0 to |events|
      invariant r.Valid() && r.history == all[..i]
      invariant fresh(r) && fresh(r.buf)
    {
      r.Record(events[i], clock[i]);
    }
    out := r.Snapshot();
  }
}
