/** The key-value outbox (outbox/outbox.go): records are enqueued after a commit and flushed later. */
module Outbox {
  import opened Basics

  type Key = string

  datatype Record = Record(id: Key, subject: string, data: seq<char>, headers: map<string, string>, createdAt: int)

  /** A stored value: the encoding of a record, or bytes that do not decode. */
  datatype Value = Encoded(rec: Record) | Garbage

  /** What happens to one key of a flush: the context has ended before it, Get answers, the publish
      succeeds, the Delete takes effect (its error is ignored). */
  datatype Luck = Luck(cancelled: bool, get: bool, publish: bool, deleted: bool)

  datatype FlushEnd = Done | NoKeys | CtxEnded | PublishError

  /** The records a flush can read and decode, in key order. */
  function Due(kv: map<Key, Value>, keys: seq<Key>, luck: seq<Luck>): seq<Record>
    requires |luck| == |keys|
  {
    if keys == [] then []
    else
      var n := |keys| - 1;
      Due(kv, keys[..n], luck[..n])
      + if luck[n].get && keys[n] in kv && kv[keys[n]].Encoded? then [kv[keys[n]].rec] else []
  }

  lemma DueStep(kv: map<Key, Value>, keys: seq<Key>, luck: seq<Luck>, i: nat)
    requires |luck| == |keys| && i < |keys|
    ensures Due(kv, keys[..i + 1], luck[..i + 1]) ==
            Due(kv, keys[..i], luck[..i])
            + if luck[i].get && keys[i] in kv && kv[keys[i]].Encoded? then [kv[keys[i]].rec] else []
  {
    assert keys[..i + 1][..i] == keys[..i] && luck[..i + 1][..i] == luck[..i];
  }

  lemma {:induction false} DuePrefix(kv: map<Key, Value>, keys: seq<Key>, luck: seq<Luck>, i: nat)
    requires |luck| == |keys| && i <= |keys|
    ensures Due(kv, keys[..i], luck[..i]) <= Due(kv, keys, luck)
    decreases |keys| - i
  {
    if i == |keys| {
      assert keys[..i] == keys && luck[..i] == luck;
    } else {
      DueStep(kv, keys, luck, i);
      DuePrefix(kv, keys, luck, i + 1);
    }
  }

  /** `kv` is `kv0` without some keys whose records are in `done`. */
  ghost predicate Thinned(kv0: map<Key, Value>, kv: map<Key, Value>, done: seq<Record>) {
    && kv.Keys <= kv0.Keys && (forall k :: k in kv ==> kv[k] == kv0[k])
    && forall k :: k in kv0 && k !in kv ==> kv0[k].Encoded? && kv0[k].rec in done
  }

  /** No loss: every enqueued record is still stored under its id or was published at least once. */
  ghost predicate NoLoss(kv: map<Key, Value>, published: seq<Record>, enqueued: set<Record>) {
    forall r :: r in enqueued ==> r in published || (r.id in kv && kv[r.id] == Encoded(r))
  }

  predicate Readable(kv: map<Key, Value>, key: Key, l: Luck) {
    l.get && key in kv && kv[key].Encoded?
  }

  /** The keys deleted by a flush that passed the first `i`: those of records it could read whose Delete took
      effect. */
  function Removed(kv0: map<Key, Value>, keys: seq<Key>, luck: seq<Luck>, i: nat): set<Key>
    requires |luck| == |keys| && i <= |keys|
  {
    set j | 0 <= j < i && Readable(kv0, keys[j], luck[j]) && luck[j].deleted :: keys[j]
  }

  /** Key `j` lets the flush go on: the context has not ended, and a record there is published. */
  predicate Passes(kv0: map<Key, Value>, key: Key, l: Luck) {
    !l.cancelled && (Readable(kv0, key, l) ==> l.publish)
  }

  /** A flush of `kv0` that has passed `i` keys, published `done` and left `kv`. */
  ghost predicate Flushing(kv0: map<Key, Value>, keys: seq<Key>, luck: seq<Luck>, i: nat, kv: map<Key, Value>, done: seq<Record>)
    requires |luck| == |keys|
  {
    && i <= |keys| && Thinned(kv0, kv, done)
    && (Distinct(keys) ==>
          && done == Due(kv0, keys[..i], luck[..i])
          && kv == kv0 - Removed(kv0, keys, luck, i)
          && forall j :: 0 <= j < i ==> Passes(kv0, keys[j], luck[j]))
  }

  /** Where and why a flush stops: at the first key, if any, at which the limit is reached, the context has
      ended, or a publish fails. */
  ghost predicate StopsAt(kv0: map<Key, Value>, keys: seq<Key>, luck: seq<Luck>, limit: nat, at: nat, flushed: nat, end: FlushEnd)
    requires |luck| == |keys| && at <= |keys|
  {
    match end
    case NoKeys => false
    case Done => flushed == limit || (at == |keys| && flushed < limit)
    case CtxEnded => at < |keys| && flushed < limit && luck[at].cancelled
    case PublishError =>
      at < |keys| && flushed < limit && !luck[at].cancelled && Readable(kv0, keys[at], luck[at]) && !luck[at].publish
  }

  lemma RemovedStep(kv0: map<Key, Value>, keys: seq<Key>, luck: seq<Luck>, i: nat)
    requires |luck| == |keys| && i < |keys|
    ensures Removed(kv0, keys, luck, i + 1) ==
            Removed(kv0, keys, luck, i) + if Readable(kv0, keys[i], luck[i]) && luck[i].deleted then {keys[i]} else {}
  {}

  /** A key not passed yet is as it was. */
  lemma NotYet(kv0: map<Key, Value>, keys: seq<Key>, luck: seq<Luck>, i: nat, kv: map<Key, Value>, done: seq<Record>)
    requires |luck| == |keys| && Flushing(kv0, keys, luck, i, kv, done) && i < |keys| && Distinct(keys)
    ensures Readable(kv, keys[i], luck[i]) <==> Readable(kv0, keys[i], luck[i])
    ensures keys[i] in kv ==> kv[keys[i]] == kv0[keys[i]]
  {
    assert keys[i] !in Removed(kv0, keys, luck, i);
  }

  lemma FlushingStep(kv0: map<Key, Value>, keys: seq<Key>, luck: seq<Luck>, i: nat, kv: map<Key, Value>, done: seq<Record>)
    requires |luck| == |keys| && Flushing(kv0, keys, luck, i, kv, done) && i < |keys| && !luck[i].cancelled
    ensures !Readable(kv, keys[i], luck[i]) ==> Flushing(kv0, keys, luck, i + 1, kv, done)
    ensures Readable(kv, keys[i], luck[i]) && luck[i].publish ==>
              Flushing(kv0, keys, luck, i + 1, if luck[i].deleted then kv - {keys[i]} else kv, done + [kv[keys[i]].rec])
  {
    if Distinct(keys) {
      DueStep(kv0, keys, luck, i);
      RemovedStep(kv0, keys, luck, i);
      NotYet(kv0, keys, luck, i, kv, done);
    }
  }

  /** What has been published is the beginning of what is due, and all of it once every key was passed. */
  lemma FlushedIsDue(kv0: map<Key, Value>, keys: seq<Key>, luck: seq<Luck>, i: nat, kv: map<Key, Value>, done: seq<Record>)
    requires |luck| == |keys| && Flushing(kv0, keys, luck, i, kv, done)
    ensures Distinct(keys) ==> done <= Due(kv0, keys, luck) && (i == |keys| ==> done == Due(kv0, keys, luck))
  {
    DuePrefix(kv0, keys, luck, i);
    assert i == |keys| ==> keys[..i] == keys && luck[..i] == luck;
  }

  /** So the first `limit` due records are published by a flush that completes, and a failed publish leaves one. */
  lemma StoppedIsDue(kv0: map<Key, Value>, keys: seq<Key>, luck: seq<Luck>, limit: nat, at: nat,
                     kv: map<Key, Value>, done: seq<Record>, end: FlushEnd)
    requires |luck| == |keys| && Flushing(kv0, keys, luck, at, kv, done) && Distinct(keys)
    requires StopsAt(kv0, keys, luck, limit, at, |done|, end) && |done| <= limit
    ensures var due := Due(kv0, keys, luck);
      && done <= due
      && (end == Done ==> |done| == if |due| < limit then |due| else limit)
      && (end == PublishError ==> |done| < |due|)
  {
    FlushedIsDue(kv0, keys, luck, at, kv, done);
    if end == PublishError {
      DueStep(kv0, keys, luck, at);
      DuePrefix(kv0, keys, luck, at + 1);
    }
  }

  lemma AtExit(kv0: map<Key, Value>, keys: seq<Key>, luck: seq<Luck>, i: nat, kv: map<Key, Value>, done: seq<Record>,
               published: seq<Record>, enqueued: set<Record>)
    requires |luck| == |keys| && Flushing(kv0, keys, luck, i, kv, done) && NoLoss(kv0, published, enqueued)
    ensures NoLoss(kv, published + done, enqueued)
    ensures (published + done)[|published|..] == done
  {
    forall r | r in enqueued
      ensures r in published + done || (r.id in kv && kv[r.id] == Encoded(r))
    {
      if r !in published && r.id !in kv {
        assert kv0[r.id].rec in done;
      }
    }
  }

  /** When nothing goes wrong and the limit is not below the number of keys, a flush publishes every record
      under these keys, in key order, and leaves none of them. */
  lemma FlushDrains(kv0: map<Key, Value>, keys: seq<Key>, luck: seq<Luck>, limit: nat, at: nat,
                    kv: map<Key, Value>, done: seq<Record>, end: FlushEnd)
    requires |luck| == |keys| <= limit && Distinct(keys) && forall j :: 0 <= j < |luck| ==> luck[j] == Luck(false, true, true, true)
    requires Flushing(kv0, keys, luck, at, kv, done) && StopsAt(kv0, keys, luck, limit, at, |done|, end)
    ensures end == Done && done == Due(kv0, keys, luck)
    ensures forall j :: 0 <= j < |keys| && keys[j] in kv ==> kv[keys[j]] == Garbage
  {
    DueShort(kv0, keys[..at], luck[..at]);
    assert at == |keys|;
    FlushedIsDue(kv0, keys, luck, at, kv, done);
    forall j | 0 <= j < |keys| && keys[j] in kv0 && kv0[keys[j]].Encoded? ensures keys[j] !in kv {
      assert Readable(kv0, keys[j], luck[j]) && keys[j] in Removed(kv0, keys, luck, at);
    }
  }

  lemma {:induction false} DueShort(kv: map<Key, Value>, keys: seq<Key>, luck: seq<Luck>)
    requires |luck| == |keys|
    ensures |Due(kv, keys, luck)| <= |keys|
  {
    if keys != [] {
      var n := |keys| - 1;
      DueShort(kv, keys[..n], luck[..n]);
    }
  }

  function Limit(limit: int): nat
  {
    if limit <= 0 then 100 else limit
  }

  class Outbox {
    var kv: map<Key, Value>
    var published: seq<Record>        // every successful publish, in order
    ghost var enqueued: set<Record>   // every record whose Enqueue returned success

    ghost predicate Safe()
      reads this
    {
      NoLoss(kv, published, enqueued)
    }

    constructor (initial: map<Key, Value>)
      ensures Safe() && kv == initial && published == [] && enqueued == {}
    {
      kv, published, enqueued := initial, [], {};
    }

    /** `id` comes from nuid.Next() and is fresh. */
    method Enqueue(id: Key, subject: string, data: seq<char>, headers: map<string, string>, now: int, put: Write)
      returns (r: Option<Record>)
      requires Safe() && id !in kv
      modifies this
      ensures Safe() && published == old(published)
      ensures r.Some? <==> subject != "" && put == Works
      ensures enqueued == old(enqueued) + if r.Some? then {r.value} else {}
      ensures r.Some? ==> r.value == Record(id, subject, data, headers, now)
      ensures kv == if subject == "" || put == Fails then old(kv) else old(kv)[id := Encoded(Record(id, subject, data, headers, now))]
    {
      if subject == "" {
        return None;
      }
      var rec := Record(id, subject, data, headers, now);
      if put != Fails {
        kv := kv[id := Encoded(rec)];
      }
      if put != Works {
        return None;
      }
      enqueued := enqueued + {rec};
      return Some(rec);
    }

    /** Publishes the due records in key order, at most `Limit` of them, up to the first key at which the limit
        is reached, the context has ended or a publish fails; the count is the number of publishes that
        succeeded.  A key disappears exactly if its record was published and its Delete took effect. */
    method Flush(keys: Option<seq<Key>>, limit0: int, luck: seq<Luck>) returns (flushed: nat, end: FlushEnd)
      requires Safe() && (keys.Some? ==> |luck| == |keys.value|)
      modifies this
      ensures Safe() && enqueued == old(enqueued)
      ensures |published| == |old(published)| + flushed && old(published) <= published
      ensures flushed <= if limit0 <= 0 then 100 else limit0
      ensures Thinned(old(kv), kv, published[|old(published)|..])
      ensures end == NoKeys <==> keys.None?
      ensures keys.None? ==> flushed == 0
      ensures keys.Some? ==> exists at: nat ::
                && Flushing(old(kv), keys.value, luck, at, kv, published[|old(published)|..])
                && StopsAt(old(kv), keys.value, luck, if limit0 <= 0 then 100 else limit0, at, flushed, end)
      ensures keys.Some? && Distinct(keys.value) ==>
                var due := Due(old(kv), keys.value, luck);
                && published[|old(published)|..] <= due
                && (end == Done ==> flushed == if |due| < Limit(limit0) then |due| else Limit(limit0))
                && (end == PublishError ==> flushed < |due|)
    {
      var limit := Limit(limit0);
      flushed := 0;
      if keys.None? {
        return 0, NoKeys;
      }
      var ks := keys.value;
      ghost var kv0, published0, done, at := kv, published, [], |ks|;
      end := Done;
      for i := 0 to |ks|
        invariant |done| == flushed <= limit && published == published0 + done && enqueued == old(enqueued)
        invariant Flushing(kv0, ks, luck, i, kv, done) && at == |ks| && end == Done
      {
        var key, l := ks[i], luck[i];
        if flushed >= limit {
          at := i;
          break;
        }
        if l.cancelled {
          at, end := i, CtxEnded;
          break;
        }
        FlushingStep(kv0, ks, luck, i, kv, done);
        if !l.get || key !in kv || kv[key].Garbage? {
          continue;
        }
        var rec := kv[key].rec;
        if !l.publish {
          at, end := i, PublishError;
          break;
        }
        published, done := published + [rec], done + [rec];
        if l.deleted {
          kv := kv - {key};
        }
        flushed := flushed + 1;
      }
      AtExit(kv0, ks, luck, at, kv, done, published0, enqueued);
      if Distinct(ks) {
        StoppedIsDue(kv0, ks, luck, limit, at, kv, done, end);
      }
    }
  }
}
