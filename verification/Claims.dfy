/** Claim-before-process idempotency: any number of deliveries, on any ids, run withClaimHandler against
    one key-value bucket.  Every store call may fail, before or after taking effect, and a delivery
    may stop anywhere. */
module Claims {

  type Id = string
  type Bytes = seq<char>
  type DeliveryId = nat

  const PENDING: Bytes := "p"
  const DONE: Bytes := "d"
  const LEGACY_MARKED: Bytes := [1 as char]

  predicate IsDone(v: Bytes) { v == DONE || v == LEGACY_MARKED }

  /** Program counter of withClaimHandler. */
  datatype Pc =
    | Claiming
    | Reading             // the claim exists; Seen decides
    | Handling            // inside the handler
    | Marking
    | Releasing
    | Returned(ack: bool) // ack: nil was returned
    | Crashed

  datatype Delivery = Delivery(id: Id, pc: Pc)

  datatype State = State(
    kv: map<Id, Bytes>,
    work: map<DeliveryId, Delivery>,
    started: seq<Id>,      // handler calls
    succeeded: set<Id>,    // ids with a handler call that returned nil
    marked: set<Id>,       // ids with a Mark that returned nil
    released: seq<Id>,     // purges that took effect
    past: set<Action>)     // every action so far; no action reads it

  datatype Action =
    | Arrive(d: DeliveryId, id: Id)
    | ClaimOk(d: DeliveryId)                   // Create succeeded
    | ClaimExists(d: DeliveryId)               // ErrKeyExists
    | ClaimFails(d: DeliveryId, effect: bool)  // any other error, or an invalid key
    | SeenOk(d: DeliveryId, done: bool)        // what the stored value says
    | SeenFails(d: DeliveryId)
    | HandlerReturns(d: DeliveryId, ok: bool)
    | MarkOk(d: DeliveryId)
    | MarkFails(d: DeliveryId, effect: bool)
    | ReleaseOk(d: DeliveryId)
    | ReleaseFails(d: DeliveryId, effect: bool)
    | Crash(d: DeliveryId)

  predicate At(s: State, d: DeliveryId, pc: Pc) {
    d in s.work && s.work[d].pc == pc
  }

  predicate Enabled(s: State, a: Action) {
    match a
    case Arrive(d, _) => d !in s.work
    case ClaimOk(d) => At(s, d, Claiming) && s.work[d].id !in s.kv
    case ClaimExists(d) => At(s, d, Claiming) && s.work[d].id in s.kv
    case ClaimFails(d, _) => At(s, d, Claiming)
    case SeenOk(d, done) => At(s, d, Reading) && done == (s.work[d].id in s.kv && IsDone(s.kv[s.work[d].id]))
    case SeenFails(d) => At(s, d, Reading)
    case HandlerReturns(d, _) => At(s, d, Handling)
    case MarkOk(d) => At(s, d, Marking)
    case MarkFails(d, _) => At(s, d, Marking)
    case ReleaseOk(d) => At(s, d, Releasing)
    case ReleaseFails(d, _) => At(s, d, Releasing)
    case Crash(d) => d in s.work
  }

  function Goto(s: State, d: DeliveryId, pc: Pc): State
    requires d in s.work
  {
    s.(work := s.work[d := s.work[d].(pc := pc)])
  }

  function Create(s: State, id: Id): State {
    s.(kv := if id in s.kv then s.kv else s.kv[id := PENDING])
  }

  function Put(s: State, id: Id): State {
    s.(kv := s.kv[id := DONE])
  }

  function Purge(s: State, id: Id): State {
    s.(kv := s.kv - {id}, released := if id in s.kv then s.released + [id] else s.released)
  }

  function Effect(s: State, a: Action): State
    requires Enabled(s, a)
  {
    match a
    case Arrive(d, id) => s.(work := s.work[d := Delivery(id, Claiming)])
    case ClaimOk(d) =>
      var id := s.work[d].id;
      Goto(Create(s, id), d, Handling).(started := s.started + [id])
    case ClaimExists(d) => Goto(s, d, Reading)
    case ClaimFails(d, effect) => Goto(if effect then Create(s, s.work[d].id) else s, d, Returned(false))
    case SeenOk(d, done) => Goto(s, d, Returned(done))
    case SeenFails(d) => Goto(s, d, Returned(false))
    case HandlerReturns(d, ok) =>
      if ok then Goto(s, d, Marking).(succeeded := s.succeeded + {s.work[d].id}) else Goto(s, d, Releasing)
    case MarkOk(d) => Goto(Put(s, s.work[d].id), d, Returned(true)).(marked := s.marked + {s.work[d].id})
    case MarkFails(d, effect) => Goto(if effect then Put(s, s.work[d].id) else s, d, Releasing)
    case ReleaseOk(d) => Goto(Purge(s, s.work[d].id), d, Returned(false))
    case ReleaseFails(d, effect) => Goto(if effect then Purge(s, s.work[d].id) else s, d, Returned(false))
    case Crash(d) => Goto(s, d, Crashed)
  }

  function Do(s: State, a: Action): State
    requires Enabled(s, a)
  {
    Effect(s, a).(past := s.past + {a})
  }

  ghost predicate Follows(s: State, s': State) {
    exists a :: Enabled(s, a) && Do(s, a) == s'
  }

  /** A run from a bucket with arbitrary contents and no delivery in progress. */
  ghost predicate IsRun(trace: seq<State>) {
    && |trace| > 0
    && trace[0] == State(trace[0].kv, map[], [], {}, {}, [], {})
    && forall i :: 0 < i < |trace| ==> StepAt(trace, i)
  }

  ghost predicate StepAt(trace: seq<State>, i: nat)
    requires 0 < i < |trace|
  {
    Follows(trace[i - 1], trace[i])
  }

  // ----- What every step keeps

  /** The delivery owns the claim on its id. */
  predicate Holds(s: State, d: DeliveryId) {
    d in s.work && (s.work[d].pc == Handling || s.work[d].pc == Marking || s.work[d].pc == Releasing)
  }

  ghost predicate Exclusive(s: State) {
    && (forall d :: Holds(s, d) ==> s.work[d].id in s.kv)
    && (forall d, e :: Holds(s, d) && Holds(s, e) && s.work[d].id == s.work[e].id ==> d == e)
  }

  ghost predicate MarkedForever(s: State) {
    forall id :: id in s.marked ==> id in s.kv && s.kv[id] == DONE && forall d :: Holds(s, d) ==> s.work[d].id != id
  }

  /** Done in the bucket, being marked, or acknowledged: a handler has succeeded, or the key was done before. */
  ghost predicate Earned(s: State, kv0: map<Id, Bytes>) {
    && (forall id :: id in s.kv && IsDone(s.kv[id]) ==> Justified(s, kv0, id))
    && (forall d :: d in s.work && (s.work[d].pc == Marking || s.work[d].pc == Returned(true)) ==> Justified(s, kv0, s.work[d].id))
  }

  predicate Justified(s: State, kv0: map<Id, Bytes>, id: Id) {
    id in s.succeeded || (id in kv0 && IsDone(kv0[id]))
  }

  /** A key absent at first is created once more often than it is purged, exactly while it is present. */
  ghost predicate Counted(s: State, kv0: map<Id, Bytes>) {
    forall id :: id !in kv0 ==>
      multiset(s.started)[id] <= multiset(s.released)[id] + if id in s.kv then 1 else 0
  }

  ghost predicate Inv(s: State, kv0: map<Id, Bytes>) {
    Exclusive(s) && MarkedForever(s) && Earned(s, kv0) && Counted(s, kv0)
  }

  lemma ExclusiveKept(s: State, a: Action)
    requires Exclusive(s) && Enabled(s, a)
    ensures Exclusive(Do(s, a))
  {
    var s' := Do(s, a);
    forall d | Holds(s', d) ensures (a.d == d && a.ClaimOk?) || (Holds(s, d) && s.work[d].id == s'.work[d].id) {}
  }

  lemma MarkedKept(s: State, a: Action)
    requires Exclusive(s) && MarkedForever(s) && Enabled(s, a)
    ensures MarkedForever(Do(s, a))
  {
    var s' := Do(s, a);
    forall d | Holds(s', d) ensures (a.d == d && a.ClaimOk?) || (Holds(s, d) && s.work[d].id == s'.work[d].id) {}
    assert a.MarkOk? || a.MarkFails? || a.ReleaseOk? || a.ReleaseFails? ==> Holds(s, a.d);
  }

  lemma EarnedKept(s: State, a: Action, kv0: map<Id, Bytes>)
    requires Earned(s, kv0) && Enabled(s, a)
    ensures Earned(Do(s, a), kv0)
  {}

  lemma CountedKept(s: State, a: Action, kv0: map<Id, Bytes>)
    requires Counted(s, kv0) && Enabled(s, a)
    ensures Counted(Do(s, a), kv0)
  {}

  lemma {:induction false} InvOnRuns(trace: seq<State>, i: nat)
    requires IsRun(trace) && i < |trace|
    ensures Inv(trace[i], trace[0].kv)
  {
    if i > 0 {
      InvOnRuns(trace, i - 1);
      var s := trace[i - 1];
      assert StepAt(trace, i);
      var a :| Enabled(s, a) && Do(s, a) == trace[i];
      ExclusiveKept(s, a);
      MarkedKept(s, a);
      EarnedKept(s, a, trace[0].kv);
      CountedKept(s, a, trace[0].kv);
    }
  }

  // ----- What the protocol promises

  /** At most one delivery per id is inside the handler, at any time. */
  lemma MutualExclusion(trace: seq<State>, i: nat, d: DeliveryId, e: DeliveryId)
    requires IsRun(trace) && i < |trace|
    requires At(trace[i], d, Handling) && At(trace[i], e, Handling) && trace[i].work[d].id == trace[i].work[e].id
    ensures d == e
  {
    InvOnRuns(trace, i);
    assert Holds(trace[i], d) && Holds(trace[i], e);
  }

  /** nil is returned, and the message acknowledged, only if some handler call for the id has
      succeeded or the key was already done before the run. */
  lemma AckOnlyAfterSuccess(trace: seq<State>, i: nat, d: DeliveryId)
    requires IsRun(trace) && i < |trace| && At(trace[i], d, Returned(true))
    ensures Justified(trace[i], trace[0].kv, trace[i].work[d].id)
  {
    InvOnRuns(trace, i);
  }

  lemma MarkedStep(s: State, a: Action, id: Id)
    requires MarkedForever(s) && Enabled(s, a) && id in s.marked
    ensures id in Do(s, a).marked && multiset(Do(s, a).started)[id] == multiset(s.started)[id]
  {
    assert a.ClaimOk? ==> s.work[a.d].id != id;
  }

  /** After a Mark that returned nil, the handler is never called again for that id. */
  lemma {:induction false} NeverAgainAfterMark(trace: seq<State>, i: nat, j: nat, id: Id)
    requires IsRun(trace) && i <= j < |trace| && id in trace[i].marked
    ensures id in trace[j].marked
    ensures multiset(trace[j].started)[id] == multiset(trace[i].started)[id]
    ensures forall d :: At(trace[j], d, Handling) ==> trace[j].work[d].id != id
    decreases j
  {
    if i < j {
      NeverAgainAfterMark(trace, i, j - 1, id);
      InvOnRuns(trace, j - 1);
      assert StepAt(trace, j);
      var a :| Enabled(trace[j - 1], a) && Do(trace[j - 1], a) == trace[j];
      MarkedStep(trace[j - 1], a, id);
    }
    InvOnRuns(trace, j);
    forall d | At(trace[j], d, Handling) ensures trace[j].work[d].id != id {
      assert Holds(trace[j], d);
    }
  }

  /** The handler is called a second time for an id that was absent only after a release took effect. */
  lemma OncePerRelease(trace: seq<State>, i: nat, id: Id)
    requires IsRun(trace) && i < |trace| && id !in trace[0].kv
    ensures multiset(trace[i].started)[id] <= multiset(trace[i].released)[id] + 1
  {
    InvOnRuns(trace, i);
  }

  // ----- What succeeds

  /** The handler of delivery `d` failed, or its Mark did. */
  predicate Undone(s: State, d: DeliveryId) {
    HandlerReturns(d, false) in s.past || MarkFails(d, true) in s.past || MarkFails(d, false) in s.past
  }

  /** A store call of delivery `d` failed before its handler was called. */
  predicate StoreFailed(s: State, d: DeliveryId) {
    ClaimFails(d, true) in s.past || ClaimFails(d, false) in s.past || SeenFails(d) in s.past
  }

  /** What sent delivery `d` on its way: nothing but the actions named has happened to it. */
  predicate Explained(s: State, d: DeliveryId)
    requires d in s.work
  {
    match s.work[d].pc
    case Claiming => true
    case Reading => true
    case Handling => true
    case Marking => HandlerReturns(d, true) in s.past
    case Releasing => Undone(s, d)
    case Returned(ack) =>
      if ack then SeenOk(d, true) in s.past || (HandlerReturns(d, true) in s.past && s.work[d].id in s.marked)
      else StoreFailed(s, d) || SeenOk(d, false) in s.past || Undone(s, d)
    case Crashed => Crash(d) in s.past
  }

  /** Where delivery `d` is once its handler has returned nil, or it has read a done claim. */
  predicate Followed(s: State, d: DeliveryId)
    requires d in s.work
  {
    && (HandlerReturns(d, true) in s.past && Crash(d) !in s.past && !Undone(s, d) ==>
          s.work[d].pc == Marking || (s.work[d].pc == Returned(true) && s.work[d].id in s.marked))
    && (SeenOk(d, true) in s.past && Crash(d) !in s.past ==> s.work[d].pc == Returned(true))
  }

  ghost predicate AllExplained(s: State) {
    && (forall d :: d in s.work ==> Explained(s, d) && Followed(s, d))
    && (forall a :: a in s.past ==> a.d in s.work)
    && (forall id :: id in s.released ==> exists d :: d in s.work && s.work[d].id == id && Undone(s, d))
  }

  lemma StepExplained(s: State, a: Action, d: DeliveryId)
    requires Enabled(s, a) && AllExplained(s) && d in Do(s, a).work
    ensures Explained(Do(s, a), d) && Followed(Do(s, a), d)
  {
    if d != a.d {
      assert Do(s, a).work[d] == s.work[d] && Explained(s, d) && Followed(s, d);
    } else if a.Arrive? {
      assert forall b :: b in s.past ==> b.d != d;
    } else {
      assert Explained(s, d) && Followed(s, d);
    }
  }

  lemma ReleaseExplained(s: State, a: Action, id: Id)
    requires Enabled(s, a) && AllExplained(s) && id in Do(s, a).released
    ensures exists d :: d in Do(s, a).work && Do(s, a).work[d].id == id && Undone(Do(s, a), d)
  {
    var d := a.d;
    if id in s.released {
      d :| d in s.work && s.work[d].id == id && Undone(s, d);
    } else {
      assert At(s, d, Releasing) && Explained(s, d);
    }
    assert Do(s, a).work[d].id == id && Undone(Do(s, a), d);
  }

  lemma ExplainedKept(s: State, a: Action)
    requires Enabled(s, a) && AllExplained(s)
    ensures AllExplained(Do(s, a))
  {
    var s' := Do(s, a);
    forall d | d in s'.work ensures Explained(s', d) && Followed(s', d) {
      StepExplained(s, a, d);
    }
    forall id | id in s'.released ensures exists d :: d in s'.work && s'.work[d].id == id && Undone(s', d) {
      ReleaseExplained(s, a, id);
    }
  }

  lemma {:induction false} ExplainedOnRuns(trace: seq<State>, i: nat)
    requires IsRun(trace) && i < |trace|
    ensures AllExplained(trace[i])
  {
    if i > 0 {
      ExplainedOnRuns(trace, i - 1);
      assert StepAt(trace, i);
      var a :| Enabled(trace[i - 1], a) && Do(trace[i - 1], a) == trace[i];
      ExplainedKept(trace[i - 1], a);
    }
  }

  /** An error is returned only after a failed store call, a failed handler, or a claim that was not done. */
  lemma ErrorHasCause(trace: seq<State>, i: nat, d: DeliveryId)
    requires IsRun(trace) && i < |trace| && At(trace[i], d, Returned(false))
    ensures StoreFailed(trace[i], d) || SeenOk(d, false) in trace[i].past || Undone(trace[i], d)
  {
    ExplainedOnRuns(trace, i);
    assert Explained(trace[i], d);
  }

  /** A handler that returned nil is followed by a Mark: with no failed Mark and no crash, the delivery
      ends with nil returned and the key stored as done. */
  lemma SuccessIsMarked(trace: seq<State>, i: nat, d: DeliveryId)
    requires IsRun(trace) && i < |trace| && HandlerReturns(d, true) in trace[i].past
    requires Crash(d) !in trace[i].past && !Undone(trace[i], d)
    ensures At(trace[i], d, Marking) || At(trace[i], d, Returned(true))
    ensures At(trace[i], d, Returned(true)) ==>
              var id := trace[i].work[d].id;
              id in trace[i].marked && id in trace[i].kv && trace[i].kv[id] == DONE
  {
    ExplainedOnRuns(trace, i);
    InvOnRuns(trace, i);
    assert HandlerReturns(d, true).d in trace[i].work;
    assert Followed(trace[i], d);
  }

  /** A claim is released, and the handler called again for an id that was absent, only after the handler
      or the Mark of a delivery of that id failed. */
  lemma ReleasedAfterFailure(trace: seq<State>, i: nat, id: Id)
    requires IsRun(trace) && i < |trace|
    requires id in trace[i].released || (id !in trace[0].kv && multiset(trace[i].started)[id] >= 2)
    ensures exists d :: d in trace[i].work && trace[i].work[d].id == id && Undone(trace[i], d)
  {
    ExplainedOnRuns(trace, i);
    if id !in trace[i].released {
      OncePerRelease(trace, i, id);
    }
  }

  /** A delivery that reads a done claim returns nil, unless it crashes. */
  lemma DoneIsAcknowledged(trace: seq<State>, i: nat, d: DeliveryId)
    requires IsRun(trace) && i < |trace| && SeenOk(d, true) in trace[i].past && Crash(d) !in trace[i].past
    ensures At(trace[i], d, Returned(true))
  {
    ExplainedOnRuns(trace, i);
    assert SeenOk(d, true).d in trace[i].work;
    assert Followed(trace[i], d);
  }

  /** Nothing has happened to delivery `d` but its arrival, the claim it met and failing store calls. */
  predicate OnlyMetDone(s: State, d: DeliveryId)
    requires d in s.work
  {
    && s.work[d].pc in {Claiming, Reading, Returned(true), Returned(false), Crashed}
    && SeenOk(d, false) !in s.past && !Undone(s, d)
    && (s.work[d].pc == Returned(false) ==> StoreFailed(s, d))
  }

  /** The key is stored as done and no delivery holds its claim. */
  ghost predicate Settled(s: State, id: Id) {
    id in s.kv && IsDone(s.kv[id]) && forall d :: Holds(s, d) ==> s.work[d].id != id
  }

  lemma SettledStep(s: State, a: Action, id: Id)
    requires Enabled(s, a) && Settled(s, id)
    ensures Settled(Do(s, a), id)
  {
    forall d | Holds(Do(s, a), d) ensures (a.d == d && a.ClaimOk?) || (Holds(s, d) && s.work[d].id == Do(s, a).work[d].id) {}
    assert a.MarkOk? || a.MarkFails? || a.ReleaseOk? || a.ReleaseFails? ==> Holds(s, a.d);
  }

  lemma MetDoneStep(s: State, a: Action, d: DeliveryId)
    requires Enabled(s, a) && AllExplained(s) && d in Do(s, a).work
    requires Settled(s, Do(s, a).work[d].id) && (d in s.work ==> OnlyMetDone(s, d))
    ensures OnlyMetDone(Do(s, a), d)
  {
    if d != a.d {
      assert Do(s, a).work[d] == s.work[d];
    } else if a.Arrive? {
      assert forall b :: b in s.past ==> b.d != d;
    } else {
      assert s.work[d].id in s.kv && IsDone(s.kv[s.work[d].id]);
    }
  }

  lemma {:induction false} SettledOnRuns(trace: seq<State>, i: nat, j: nat, id: Id)
    requires IsRun(trace) && i <= j < |trace| && Settled(trace[i], id)
    ensures Settled(trace[j], id)
    decreases j
  {
    if i < j {
      SettledOnRuns(trace, i, j - 1, id);
      assert StepAt(trace, j);
      var a :| Enabled(trace[j - 1], a) && Do(trace[j - 1], a) == trace[j];
      SettledStep(trace[j - 1], a, id);
    }
  }

  lemma {:induction false} LaterDelivery(trace: seq<State>, i: nat, j: nat, d: DeliveryId)
    requires IsRun(trace) && i <= j < |trace| && d !in trace[i].work && d in trace[j].work
    requires Settled(trace[i], trace[j].work[d].id)
    ensures OnlyMetDone(trace[j], d)
    decreases j
  {
    SettledOnRuns(trace, i, j - 1, trace[j].work[d].id);
    ExplainedOnRuns(trace, j - 1);
    assert StepAt(trace, j);
    var a :| Enabled(trace[j - 1], a) && Do(trace[j - 1], a) == trace[j];
    if d in trace[j - 1].work {
      KeepsId(trace[j - 1], a, d);
      LaterDelivery(trace, i, j - 1, d);
    }
    MetDoneStep(trace[j - 1], a, d);
  }

  /** After a Mark that returned nil, every later delivery of the id ends with nil returned, unless a store
      call fails or it crashes; it never reaches the handler. */
  lemma RedeliveryAcknowledged(trace: seq<State>, i: nat, j: nat, d: DeliveryId)
    requires IsRun(trace) && i <= j < |trace| && d !in trace[i].work && d in trace[j].work
    requires trace[j].work[d].id in trace[i].marked
    ensures OnlyMetDone(trace[j], d)
  {
    InvOnRuns(trace, i);
    LaterDelivery(trace, i, j, d);
  }

  /** The same for every delivery of an id stored as done before the run, with the present or the legacy value. */
  lemma DoneBeforeAcknowledged(trace: seq<State>, j: nat, d: DeliveryId, id: Id)
    requires IsRun(trace) && j < |trace| && d in trace[j].work && trace[j].work[d].id == id
    requires id in trace[0].kv && (trace[0].kv[id] == "d" || trace[0].kv[id] == [1 as char])
    ensures OnlyMetDone(trace[j], d)
  {
    LaterDelivery(trace, 0, j, d);
  }

  lemma KeepsId(s: State, a: Action, d: DeliveryId)
    requires Enabled(s, a) && d in s.work
    ensures d in Do(s, a).work && Do(s, a).work[d].id == s.work[d].id
  {}

  predicate Faulty(a: Action) {
    a.ClaimFails? || a.SeenFails? || (a.HandlerReturns? && !a.ok) || a.MarkFails? || a.ReleaseFails? || a.Crash?
  }

  /** A delivery under way can always go on without a fault. */
  lemma GoesOn(s: State, d: DeliveryId)
    requires d in s.work && !s.work[d].pc.Returned? && s.work[d].pc != Crashed
    ensures exists a: Action :: a.d == d && Enabled(s, a) && !Faulty(a)
  {
    var a := match s.work[d].pc
      case Claiming => if s.work[d].id in s.kv then ClaimExists(d) else ClaimOk(d)
      case Reading => SeenOk(d, s.work[d].id in s.kv && IsDone(s.kv[s.work[d].id]))
      case Handling => HandlerReturns(d, true)
      case Marking => MarkOk(d)
      case _ => ReleaseOk(d);
    assert a.d == d && Enabled(s, a) && !Faulty(a);
  }

  // ----- Orphaned claims

  /** A claim that is neither done nor held by anybody. */
  ghost predicate Orphan(s: State, id: Id) {
    id in s.kv && !IsDone(s.kv[id]) && forall d :: Holds(s, d) ==> s.work[d].id != id
  }

  /** The actions that leave one behind: the holder of an unmarked claim stops or its release fails without
      effect, or a Create takes effect and is answered with an error. */
  predicate Orphans(s: State, a: Action, id: Id) {
    match a
    case ClaimFails(d, effect) => d in s.work && s.work[d].id == id && effect && id !in s.kv
    case Crash(d) => Holds(s, d) && s.work[d].id == id && id in s.kv && !IsDone(s.kv[id])
    case ReleaseFails(d, effect) => Holds(s, d) && s.work[d].id == id && id in s.kv && !IsDone(s.kv[id]) && !effect
    case _ => false
  }

  lemma OrphansLeaves(s: State, a: Action, id: Id)
    requires Exclusive(s) && Enabled(s, a) && Orphans(s, a, id)
    ensures Orphan(Do(s, a), id)
  {
    var s' := Do(s, a);
    forall d | Holds(s', d) ensures s'.work[d].id != id {
      assert d != a.d && Holds(s, d) && s'.work[d] == s.work[d];
      assert a.ClaimFails? || (Holds(s, a.d) && s.work[a.d].id == id);
    }
  }

  lemma OnlyOrphans(s: State, a: Action, id: Id)
    requires Enabled(s, a) && !Orphan(s, id) && !Orphans(s, a, id)
    ensures !Orphan(Do(s, a), id)
  {
    var s' := Do(s, a);
    if h :| Holds(s, h) && s.work[h].id == id {
      if h != a.d {
        assert Holds(s', h) && s'.work[h] == s.work[h];
      } else if a.HandlerReturns? || a.MarkFails? {
        assert Holds(s', h) && s'.work[h].id == id;
      }
    } else if a.ClaimOk? && s.work[a.d].id == id {
      assert Holds(s', a.d) && s'.work[a.d].id == id;
    }
  }

  /** Exactly these leave an orphan. */
  lemma OrphanedExactly(s: State, a: Action, id: Id)
    requires Exclusive(s) && Enabled(s, a) && !Orphan(s, id)
    ensures Orphan(Do(s, a), id) <==> Orphans(s, a, id)
  {
    if Orphans(s, a, id) {
      OrphansLeaves(s, a, id);
    } else {
      OnlyOrphans(s, a, id);
    }
  }

  lemma OrphanStays(s: State, a: Action, id: Id)
    requires Orphan(s, id) && Enabled(s, a)
    ensures Orphan(Do(s, a), id) && Do(s, a).kv[id] == s.kv[id]
    ensures multiset(Do(s, a).started)[id] == multiset(s.started)[id]
  {
    var s' := Do(s, a);
    forall d | Holds(s', d) ensures (a.d == d && a.ClaimOk?) || (Holds(s, d) && s.work[d].id == s'.work[d].id) {}
    assert a.MarkOk? || a.MarkFails? || a.ReleaseOk? || a.ReleaseFails? ==> Holds(s, a.d);
  }

  /** No delivery of `id` came to return nil between the two states. */
  ghost predicate NoNewAck(s: State, s': State, id: Id) {
    forall d :: At(s', d, Returned(true)) && s'.work[d].id == id ==> At(s, d, Returned(true)) && s.work[d].id == id
  }

  lemma OrphanNoAck(s: State, a: Action, id: Id)
    requires Orphan(s, id) && Enabled(s, a)
    ensures NoNewAck(s, Do(s, a), id)
  {
    var s' := Do(s, a);
    forall d | At(s', d, Returned(true)) && s'.work[d].id == id ensures At(s, d, Returned(true)) && s.work[d].id == id {
      assert d in s.work && s.work[d].id == id;
      assert a.MarkOk? && a.d == d ==> Holds(s, d);
    }
  }

  lemma OrphanFollows(s: State, s': State, id: Id)
    requires Orphan(s, id) && Follows(s, s')
    ensures Orphan(s', id) && s'.kv[id] == s.kv[id] && multiset(s'.started)[id] == multiset(s.started)[id]
    ensures NoNewAck(s, s', id)
  {
    var a :| Enabled(s, a) && Do(s, a) == s';
    OrphanStays(s, a, id);
    OrphanNoAck(s, a, id);
  }

  /** An orphaned claim blocks its id for the rest of the run: it stays as it is, the handler is not called
      again, and no further delivery returns nil. */
  lemma {:induction false} OrphanBlocks(trace: seq<State>, i: nat, j: nat, id: Id)
    requires IsRun(trace) && i <= j < |trace| && Orphan(trace[i], id)
    ensures Orphan(trace[j], id) && trace[j].kv[id] == trace[i].kv[id]
    ensures multiset(trace[j].started)[id] == multiset(trace[i].started)[id]
    ensures NoNewAck(trace[i], trace[j], id)
    decreases j
  {
    if i < j {
      OrphanBlocks(trace, i, j - 1, id);
      assert StepAt(trace, j);
      OrphanFollows(trace[j - 1], trace[j], id);
    }
  }
}
