/** Every action keeps the invariants of the worker pool. */
module PoolSafety {
  import opened Basics
  import opened PoolModel
  import opened PoolInvariants
  import opened Totals

  // ----- What the instructions say about the regions

  lemma PubCodeFacts(pc: PubPc, s: State)
    ensures var (e, q) := PubCode(pc, s);
      && (e == Acquire ==> !PubHolds(pc) && PubHolds(q))
      && (e == Release ==> PubHolds(pc) && !PubHolds(q))
      && (e != Acquire && e != Release ==> PubHolds(pc) == PubHolds(q))
      && (e == Broadcast ==> PubHolds(pc))
      && !e.Call? && !e.AddInFlight? && !e.Store? && !e.Cancel?
      && (e.Fill? || e.Clear? || e.Put? || e.Enqueue? ==> PubTask(pc) == Some(e.t))
      && PubTask(q) == (if e.Put? || e.Enqueue? then None else PubTask(pc))
      && (!e.Enqueue? ==> Sent(q) == Sent(pc))
      && (Live(q) ==> Live(pc) || (pc == PGate && s.st == Running))
      && (PubWillSignal(pc) && !PubWillSignal(q) ==> e == Broadcast)
  {}

  lemma WorkerCodeFacts(pc: WorkerPc, s: State)
    ensures var (e, q) := WorkerCode(pc, s);
      && (e == Acquire ==> !WorkerHolds(pc) && WorkerHolds(q))
      && (e == Release ==> WorkerHolds(pc) && !WorkerHolds(q))
      && (e != Acquire && e != Release ==> WorkerHolds(pc) == WorkerHolds(q))
      && (e == Broadcast ==> WorkerHolds(pc))
  {}

  lemma WorkerTaskFacts(pc: WorkerPc, s: State)
    ensures var (e, q) := WorkerCode(pc, s);
      && !e.Fill? && !e.Enqueue? && !e.AddPublishers? && !e.Store? && !e.Cancel?
      && (e.Clear? || e.Put? || e.Call? ==> WorkerTask(pc) == Some(e.t))
      && WorkerTask(q) == (if e.Put? then None else WorkerTask(pc))
  {}

  lemma WorkerStageFacts(pc: WorkerPc, s: State)
    ensures var (e, q) := WorkerCode(pc, s);
      && BeforeCall(q) == (BeforeCall(pc) && !e.Call?)
      && (e.Call? ==> BeforeCall(pc))
      && (e.Clear? ==> !BeforeCall(pc))
      && (Draining?(q) ==> Draining?(pc) || pc == WLoop)
      && (WorkerWillSignal(pc) && !WorkerWillSignal(q) ==> e == Broadcast)
  {}

  lemma PubCountFacts(p: Pub, s: State)
    ensures var (e, q) := PubCode(p.pc, s);
      && Counted(p.(pc := q)) - Counted(p) == (if e.AddPublishers? then e.d else 0)
      && Pending(p.(pc := q)) - Pending(p) == (if e.AddDepth? then e.d else if e.Enqueue? then -1 else 0)
  {}

  lemma WorkerCountFacts(pc: WorkerPc, s: State)
    ensures var (e, q) := WorkerCode(pc, s);
      && Flying(q) - Flying(pc) == (if e.AddInFlight? then e.d else 0)
      && Holding(q) - Holding(pc) == (if e.AddDepth? then e.d else 0)
  {}

  lemma WokenAt(m: map<WorkerId, WorkerPc>)
    ensures Woken(m).Keys == m.Keys
    ensures forall w :: w in m ==> Woken(m)[w] == if m[w] == WAsleep then WLock else m[w]
  {}

  // ----- Counters

  lemma WokenHolding(m: map<WorkerId, WorkerPc>)
    ensures Total(Woken(m), Holding) == Total(m, Holding)
  {
    TotalSame(m, Woken(m), Holding);
  }

  lemma WokenFlying(m: map<WorkerId, WorkerPc>)
    ensures Total(Woken(m), Flying) == Total(m, Flying)
  {
    TotalSame(m, Woken(m), Flying);
  }

  lemma CountersWoken(s: State)
    requires CountersOk(s)
    ensures CountersOk(s.(workers := Woken(s.workers)))
  {
    WokenHolding(s.workers);
    WokenFlying(s.workers);
  }

  lemma CountersPub(s: State, s': State, p: PubId, v: Pub)
    requires CountersOk(s)
    requires s'.pubs == s.pubs[p := v] && |s'.queue| <= s'.cap
    requires s'.workers == s.workers && s'.inFlight == s.inFlight
    requires s'.publishers == s.publishers + Counted(v) - (if p in s.pubs then Counted(s.pubs[p]) else 0)
    requires s'.depth - |s'.queue| == s.depth - |s.queue| + Pending(v) - (if p in s.pubs then Pending(s.pubs[p]) else 0)
    ensures CountersOk(s')
  {
    TotalUpdate(s.pubs, Counted, p, v);
    TotalUpdate(s.pubs, Pending, p, v);
  }

  lemma CountersWorker(s: State, s': State, w: WorkerId, v: WorkerPc)
    requires CountersOk(s) && w in s.workers
    requires s'.workers == s.workers[w := v] && |s'.queue| <= s'.cap
    requires s'.pubs == s.pubs && s'.publishers == s.publishers
    requires s'.inFlight == s.inFlight + Flying(v) - Flying(s.workers[w])
    requires s'.depth - |s'.queue| == s.depth - |s.queue| + Holding(v) - Holding(s.workers[w])
    ensures CountersOk(s')
  {
    TotalUpdate(s.workers, Holding, w, v);
    TotalUpdate(s.workers, Flying, w, v);
  }

  lemma CountersPubStep(s: State, p: PubId)
    requires CountersOk(s) && PubReady(s, p)
    ensures CountersOk(DoPub(s, p))
  {
    var s' := DoPub(s, p);
    PubCodeFacts(s.pubs[p].pc, s);
    PubCountFacts(s.pubs[p], s);
    if PubCode(s.pubs[p].pc, s).0 == Broadcast {
      CountersWoken(s);
      CountersPub(s.(workers := Woken(s.workers)), s', p, s'.pubs[p]);
    } else {
      CountersPub(s, s', p, s'.pubs[p]);
    }
  }

  lemma CountersWorkerStep(s: State, w: WorkerId)
    requires CountersOk(s) && WorkerReady(s, w)
    ensures CountersOk(DoWorker(s, w))
  {
    var s' := DoWorker(s, w);
    WorkerTaskFacts(s.workers[w], s);
    WorkerCountFacts(s.workers[w], s);
    if WorkerCode(s.workers[w], s).0 == Broadcast {
      CountersWoken(s);
      CountersWorker(s.(workers := Woken(s.workers)), s', w, s'.workers[w]);
    } else {
      CountersWorker(s, s', w, s'.workers[w]);
    }
  }

  lemma CountersHandoff(s: State, p: PubId, w: WorkerId)
    requires CountersOk(s) && HandoffReady(s, p, w)
    ensures CountersOk(DoHandoff(s, p, w))
  {
    var s' := DoHandoff(s, p, w);
    var m := s.(pubs := s'.pubs, depth := s.depth - 1);
    CountersPub(s, m, p, s'.pubs[p]);
    CountersWorker(m, s', w, s'.workers[w]);
  }

  lemma CountersStop(s: State)
    requires CountersOk(s) && StopReady(s)
    ensures CountersOk(DoStop(s))
  {
    CountersWoken(s);
  }

  lemma CountersBegin(s: State, p: PubId, blocking: bool)
    requires CountersOk(s) && p !in s.pubs
    ensures CountersOk(DoBegin(s, p, blocking))
  {
    CountersPub(s, DoBegin(s, p, blocking), p, Pub(PGate, blocking));
  }

  lemma CountersGet(s: State, p: PubId, t: TaskId)
    requires CountersOk(s) && p in s.pubs && s.pubs[p].pc == PGet
    ensures CountersOk(DoGet(s, p, t))
  {
    CountersPub(s, DoGet(s, p, t), p, s.pubs[p].(pc := PFill(t)));
  }

  lemma CountersGiveUp(s: State, p: PubId)
    requires CountersOk(s) && p in s.pubs && s.pubs[p].pc.PSend?
    ensures CountersOk(DoGiveUp(s, p))
  {
    CountersPub(s, DoGiveUp(s, p), p, s.pubs[p].(pc := PUndoDepth(s.pubs[p].pc.t)));
  }

  lemma CountersTake(s: State, w: WorkerId)
    requires CountersOk(s) && TakeReady(s, w)
    ensures CountersOk(DoTake(s, w))
  {
    CountersWorker(s, DoTake(s, w), w, DoTake(s, w).workers[w]);
  }

  // ----- Lock

  /** Publisher `p` takes the lock, gives it back, or leaves it alone. */
  lemma LockMoved(s: State, s': State, p: PubId)
    requires LockOk(s) && p in s.pubs && p in s'.pubs && s'.pubs == s.pubs[p := s'.pubs[p]] && s'.stop == s.stop
    requires s'.workers.Keys == s.workers.Keys
    requires forall w :: w in s.workers ==> WorkerHolds(s'.workers[w]) == WorkerHolds(s.workers[w])
    requires if PubHolds(s'.pubs[p].pc) == PubHolds(s.pubs[p].pc) then s'.mu == s.mu
             else if PubHolds(s'.pubs[p].pc) then s.mu == None && s'.mu == Some(PubThread(p))
             else s'.mu == None
    ensures LockOk(s')
  {}

  lemma LockPub(s: State, p: PubId)
    requires LockOk(s) && PubReady(s, p)
    ensures LockOk(DoPub(s, p))
  {
    PubCodeFacts(s.pubs[p].pc, s);
    WokenAt(s.workers);
    LockMoved(s, DoPub(s, p), p);
  }

  lemma LockWorker(s: State, w: WorkerId)
    requires LockOk(s) && WorkerReady(s, w)
    ensures LockOk(DoWorker(s, w))
  {
    WorkerCodeFacts(s.workers[w], s);
    WokenAt(s.workers);
  }

  lemma LockStop(s: State)
    requires LockOk(s) && StopReady(s)
    ensures LockOk(DoStop(s))
  {
    WokenAt(s.workers);
  }

  lemma LockTake(s: State, w: WorkerId)
    requires LockOk(s) && TakeReady(s, w)
    ensures LockOk(DoTake(s, w))
  {}

  lemma LockHandoff(s: State, p: PubId, w: WorkerId)
    requires LockOk(s) && HandoffReady(s, p, w)
    ensures LockOk(DoHandoff(s, p, w))
  {}

  // ----- Task ownership

  /** From `s` to `s'` task `t0` moved to `o0` and no other task moved. */
  ghost predicate Moved(s: State, s': State, t0: TaskId, o0: Owner) {
    forall t, o :: At(s', t, o) <==> if t == t0 then o == o0 else At(s, t, o)
  }

  lemma OwnersMoved(s: State, s': State, t0: TaskId, o0: Owner)
    requires OwnersOk(s) && Moved(s, s', t0, o0)
    requires s'.owner == s.owner[t0 := o0] && s'.heap.Keys == s.heap.Keys + {t0}
    requires forall i, j :: 0 <= i < j < |s'.queue| ==> s'.queue[i] != s'.queue[j]
    ensures OwnersOk(s')
  {
    forall t, o ensures At(s', t, o) <==> t in s'.owner && s'.owner[t] == o {
      assert At(s, t, o) <==> t in s.owner && s.owner[t] == o;
    }
  }

  lemma OwnersSame(s: State, s': State)
    requires OwnersOk(s) && forall t, o :: At(s', t, o) <==> At(s, t, o)
    requires s'.owner == s.owner && s'.heap.Keys == s.heap.Keys && s'.queue == s.queue
    ensures OwnersOk(s')
  {}

  lemma OwnersEnqueue(s: State, p: PubId)
    requires OwnersOk(s) && PubReady(s, p) && s.pubs[p].pc.PSend?
    ensures OwnersOk(DoPub(s, p))
  {
    var s', t0 := DoPub(s, p), s.pubs[p].pc.t;
    assert At(s, t0, ByPub(p)) && !At(s, t0, InQueue);
    forall t, o ensures At(s', t, o) <==> if t == t0 then o == InQueue else At(s, t, o) {
      assert At(s, t, o) <==> t in s.owner && s.owner[t] == o;
    }
    OwnersMoved(s, s', t0, InQueue);
  }

  lemma OwnersUndoPut(s: State, p: PubId)
    requires OwnersOk(s) && PubReady(s, p) && s.pubs[p].pc.PUndoPut?
    ensures OwnersOk(DoPub(s, p))
  {
    var s', t0 := DoPub(s, p), s.pubs[p].pc.t;
    assert At(s, t0, ByPub(p));
    forall t, o ensures At(s', t, o) <==> if t == t0 then o == InPool else At(s, t, o) {
      assert At(s, t, o) <==> t in s.owner && s.owner[t] == o;
    }
    OwnersMoved(s, s', t0, InPool);
  }

  lemma OwnersPut(s: State, w: WorkerId)
    requires OwnersOk(s) && WorkerReady(s, w) && s.workers[w].WPut?
    ensures OwnersOk(DoWorker(s, w))
  {
    var s', t0 := DoWorker(s, w), s.workers[w].t;
    assert At(s, t0, ByWorker(w));
    forall t, o ensures At(s', t, o) <==> if t == t0 then o == InPool else At(s, t, o) {
      assert At(s, t, o) <==> t in s.owner && s.owner[t] == o;
    }
    OwnersMoved(s, s', t0, InPool);
  }

  lemma OwnersPub(s: State, p: PubId)
    requires OwnersOk(s) && PubReady(s, p)
    ensures OwnersOk(DoPub(s, p))
  {
    PubCodeFacts(s.pubs[p].pc, s);
    if s.pubs[p].pc.PSend? {
      OwnersEnqueue(s, p);
    } else if s.pubs[p].pc.PUndoPut? {
      OwnersUndoPut(s, p);
    } else {
      var s' := DoPub(s, p);
      WokenAt(s.workers);
      var e := PubCode(s.pubs[p].pc, s).0;
      assert e.Fill? || e.Clear? ==> At(s, e.t, ByPub(p));
      forall t, o ensures At(s', t, o) <==> At(s, t, o) {}
      OwnersSame(s, s');
    }
  }

  lemma OwnersWorker(s: State, w: WorkerId)
    requires OwnersOk(s) && WorkerReady(s, w)
    ensures OwnersOk(DoWorker(s, w))
  {
    WorkerTaskFacts(s.workers[w], s);
    if s.workers[w].WPut? {
      OwnersPut(s, w);
    } else {
      var s' := DoWorker(s, w);
      WokenAt(s.workers);
      var e := WorkerCode(s.workers[w], s).0;
      assert e.Clear? ==> At(s, e.t, ByWorker(w));
      forall t, o ensures At(s', t, o) <==> At(s, t, o) {}
      OwnersSame(s, s');
    }
  }

  lemma OwnersGet(s: State, p: PubId, t0: TaskId)
    requires OwnersOk(s) && Enabled(s, PubGet(p, t0))
    ensures OwnersOk(DoGet(s, p, t0))
  {
    var s' := DoGet(s, p, t0);
    assert t0 in s.free ==> At(s, t0, InPool);
    forall t, o ensures At(s', t, o) <==> if t == t0 then o == ByPub(p) else At(s, t, o) {
      assert At(s, t, o) <==> t in s.owner && s.owner[t] == o;
    }
    OwnersMoved(s, s', t0, ByPub(p));
  }

  lemma OwnersTake(s: State, w: WorkerId)
    requires OwnersOk(s) && TakeReady(s, w)
    ensures OwnersOk(DoTake(s, w))
  {
    var s', t0 := DoTake(s, w), s.queue[0];
    assert At(s, t0, InQueue);
    assert s.queue == [t0] + s'.queue;
    forall t, o ensures At(s', t, o) <==> if t == t0 then o == ByWorker(w) else At(s, t, o) {
      assert At(s, t, o) <==> t in s.owner && s.owner[t] == o;
    }
    OwnersMoved(s, s', t0, ByWorker(w));
  }

  lemma OwnersHandoff(s: State, p: PubId, w: WorkerId)
    requires OwnersOk(s) && HandoffReady(s, p, w)
    ensures OwnersOk(DoHandoff(s, p, w))
  {
    var s', t0 := DoHandoff(s, p, w), s.pubs[p].pc.t;
    assert At(s, t0, ByPub(p));
    forall t, o ensures At(s', t, o) <==> if t == t0 then o == ByWorker(w) else At(s, t, o) {
      assert At(s, t, o) <==> t in s.owner && s.owner[t] == o;
    }
    OwnersMoved(s, s', t0, ByWorker(w));
  }

  lemma OwnersStop(s: State)
    requires OwnersOk(s) && StopReady(s)
    ensures OwnersOk(DoStop(s))
  {
    WokenAt(s.workers);
    forall t, o ensures At(DoStop(s), t, o) <==> At(s, t, o) {}
    OwnersSame(s, DoStop(s));
  }

  lemma OwnersBegin(s: State, p: PubId, blocking: bool)
    requires OwnersOk(s) && p !in s.pubs
    ensures OwnersOk(DoBegin(s, p, blocking))
  {
    forall t, o ensures At(DoBegin(s, p, blocking), t, o) <==> At(s, t, o) {}
    OwnersSame(s, DoBegin(s, p, blocking));
  }

  lemma OwnersGiveUp(s: State, p: PubId)
    requires OwnersOk(s) && p in s.pubs && s.pubs[p].pc.PSend?
    ensures OwnersOk(DoGiveUp(s, p))
  {
    forall t, o ensures At(DoGiveUp(s, p), t, o) <==> At(s, t, o) {}
    OwnersSame(s, DoGiveUp(s, p));
  }

  lemma OwnersDrop(s: State, t0: TaskId)
    requires OwnersOk(s) && t0 in s.free
    ensures OwnersOk(DoDrop(s, t0))
  {
    var s' := DoDrop(s, t0);
    assert At(s, t0, InPool);
    forall t, o ensures At(s', t, o) <==> t in s'.owner && s'.owner[t] == o {
      assert At(s, t, o) <==> t in s.owner && s.owner[t] == o;
    }
  }

  lemma OwnersParentCancel(s: State)
    requires OwnersOk(s)
    ensures OwnersOk(DoParentCancel(s))
  {
    forall t, o ensures At(DoParentCancel(s), t, o) <==> At(s, t, o) {}
    OwnersSame(s, DoParentCancel(s));
  }

  // ----- Fates

  lemma PubFateFacts(pc: PubPc, s: State)
    ensures var (e, q) := PubCode(pc, s);
      && (e.Enqueue? ==> pc.PSend? && Sent(q) && !Sent(pc))
      && (e.Fill? ==> q == PInc(e.t))
      && (e.Clear? ==> !Filled(q))
      && (Filled(q) && !e.Fill? ==> Filled(pc) && q.t == pc.t)
  {}

  /** From `s` to `s'` message `p0` got fate `f0` and no other message changed. */
  lemma FatesMoved(s: State, s': State, p0: PubId, f0: Fate)
    requires FatesOk(s) && s'.fate == s.fate[p0 := f0] && s'.pubs.Keys == s.pubs.Keys + {p0}
    requires forall p, f :: Became(s', p, f) <==> if p == p0 then f == f0 else Became(s, p, f)
    ensures s'.fate.Keys == s'.pubs.Keys
    ensures forall p, f :: Became(s', p, f) <==> p in s'.fate && s'.fate[p] == f
  {
    forall p, f ensures Became(s', p, f) <==> p in s'.fate && s'.fate[p] == f {
      assert Became(s, p, f) <==> p in s.fate && s.fate[p] == f;
    }
  }

  /** A publisher's task is out of reach of the queue and the workers. */
  lemma PrivateTask(s: State, p: PubId, t0: TaskId)
    requires OwnersOk(s) && p in s.pubs && PubTask(s.pubs[p].pc) == Some(t0)
    ensures t0 !in s.queue && t0 in s.heap
    ensures forall w :: w in s.workers && BeforeCall(s.workers[w]) ==> s.workers[w].t != t0
    ensures forall q :: q in s.pubs && q != p && Filled(s.pubs[q].pc) ==> s.pubs[q].pc.t != t0
  {
    assert At(s, t0, ByPub(p));
    assert !At(s, t0, InQueue);
    forall w | w in s.workers && BeforeCall(s.workers[w]) ensures s.workers[w].t != t0 {
      assert !At(s, t0, ByWorker(w));
    }
    forall q | q in s.pubs && q != p && Filled(s.pubs[q].pc) ensures s.pubs[q].pc.t != t0 {
      assert !At(s, t0, ByPub(q));
    }
  }

  lemma FatesEnqueue(s: State, p0: PubId)
    requires FatesOk(s) && OwnersOk(s) && PubReady(s, p0) && s.pubs[p0].pc.PSend?
    ensures FatesOk(DoPub(s, p0))
  {
    var s', t0 := DoPub(s, p0), s.pubs[p0].pc.t;
    PrivateTask(s, p0, t0);
    assert Became(s, p0, NotSent);
    forall p, f ensures Became(s', p, f) <==> if p == p0 then f == Queued(t0) else Became(s, p, f) {
      assert Became(s, p, f) <==> p in s.fate && s.fate[p] == f;
    }
    FatesMoved(s, s', p0, Queued(t0));
  }

  /** The fields of a private task change. */
  lemma FatesWrite(s: State, p0: PubId)
    requires FatesOk(s) && OwnersOk(s) && PubReady(s, p0)
    requires s.pubs[p0].pc.PFill? || s.pubs[p0].pc.PUndoTask?
    ensures FatesOk(DoPub(s, p0))
  {
    var s' := DoPub(s, p0);
    PrivateTask(s, p0, s.pubs[p0].pc.t);
    forall p, f ensures Became(s', p, f) <==> Became(s, p, f) {}
  }

  lemma FatesWoken(s: State)
    requires FatesOk(s)
    ensures FatesOk(s.(workers := Woken(s.workers)))
  {
    var s' := s.(workers := Woken(s.workers));
    WokenAt(s.workers);
    forall p, f ensures Became(s', p, f) <==> Became(s, p, f) {}
  }

  /** Nothing that fates depend on changes. */
  lemma FatesPubStays(s: State, s': State, p0: PubId, v: Pub)
    requires FatesOk(s) && p0 in s.pubs && Sent(v.pc) == Sent(s.pubs[p0].pc)
    requires Filled(v.pc) ==> Filled(s.pubs[p0].pc) && v.pc.t == s.pubs[p0].pc.t
    requires s'.pubs == s.pubs[p0 := v] && s'.workers == s.workers && s'.queue == s.queue
    requires s'.heap == s.heap && s'.fate == s.fate && s'.ran == s.ran
    ensures FatesOk(s')
  {
    forall p, f ensures Became(s', p, f) <==> Became(s, p, f) {}
  }

  lemma FatesWorkerStays(s: State, s': State, w0: WorkerId, v: WorkerPc)
    requires FatesOk(s) && w0 in s.workers && BeforeCall(v) == BeforeCall(s.workers[w0])
    requires BeforeCall(v) ==> v.t == s.workers[w0].t
    requires s'.pubs == s.pubs && s'.workers == s.workers[w0 := v] && s'.queue == s.queue
    requires s'.heap == s.heap && s'.fate == s.fate && s'.ran == s.ran
    ensures FatesOk(s')
  {
    forall p, f ensures Became(s', p, f) <==> Became(s, p, f) {}
  }

  lemma FatesPub(s: State, p0: PubId)
    requires FatesOk(s) && OwnersOk(s) && PubReady(s, p0)
    ensures FatesOk(DoPub(s, p0))
  {
    var pc := s.pubs[p0].pc;
    if pc.PSend? {
      FatesEnqueue(s, p0);
    } else if pc.PFill? || pc.PUndoTask? {
      FatesWrite(s, p0);
    } else {
      PubCodeFacts(pc, s);
      PubFateFacts(pc, s);
      FatesWoken(s);
      var s' := DoPub(s, p0);
      FatesPubStays(s.(workers := s'.workers), s', p0, s'.pubs[p0]);
    }
  }

  lemma FatesGet(s: State, p0: PubId, t0: TaskId)
    requires FatesOk(s) && OwnersOk(s) && Enabled(s, PubGet(p0, t0))
    ensures FatesOk(DoGet(s, p0, t0))
  {
    var s' := DoGet(s, p0, t0);
    forall p, f ensures Became(s', p, f) <==> Became(s, p, f) {}
  }

  lemma FatesCall(s: State, w0: WorkerId)
    requires FatesOk(s) && WorkerReady(s, w0) && s.workers[w0].WCall?
    ensures FatesOk(DoWorker(s, w0))
  {
    var s', p0 := DoWorker(s, w0), Message(s, s.workers[w0].t).value;
    assert Became(s, p0, Taken(w0)) && !Became(s, p0, Ran);
    forall p, f ensures Became(s', p, f) <==> if p == p0 then f == Ran else Became(s, p, f) {
      assert Became(s, p, f) <==> p in s.fate && s.fate[p] == f;
    }
    FatesMoved(s, s', p0, Ran);
  }

  lemma FatesReset(s: State, w0: WorkerId)
    requires FatesOk(s) && OwnersOk(s) && WorkerReady(s, w0) && s.workers[w0].WReset?
    ensures FatesOk(DoWorker(s, w0))
  {
    var s', t0 := DoWorker(s, w0), s.workers[w0].t;
    assert At(s, t0, ByWorker(w0));
    assert !At(s, t0, InQueue);
    forall w | w in s.workers && BeforeCall(s.workers[w]) ensures s.workers[w].t != t0 {
      assert w != w0 ==> !At(s, t0, ByWorker(w));
    }
    forall q | q in s.pubs && Filled(s.pubs[q].pc) ensures s.pubs[q].pc.t != t0 {
      assert !At(s, t0, ByPub(q));
    }
    forall p, f ensures Became(s', p, f) <==> Became(s, p, f) {}
  }

  lemma FatesWorker(s: State, w0: WorkerId)
    requires FatesOk(s) && OwnersOk(s) && WorkerReady(s, w0)
    ensures FatesOk(DoWorker(s, w0))
  {
    var pc := s.workers[w0];
    if pc.WCall? {
      FatesCall(s, w0);
    } else if pc.WReset? {
      FatesReset(s, w0);
    } else {
      WorkerTaskFacts(pc, s);
      WorkerStageFacts(pc, s);
      FatesWoken(s);
      var s' := DoWorker(s, w0);
      FatesWorkerStays(if WorkerCode(pc, s).0 == Broadcast then s.(workers := Woken(s.workers)) else s,
                       s', w0, s'.workers[w0]);
    }
  }

  lemma BecameTaken(s: State, w0: WorkerId, p: PubId, f: Fate)
    requires FatesOk(s) && OwnersOk(s) && TakeReady(s, w0) && Message(s, s.queue[0]).Some?
    ensures var p0 := Message(s, s.queue[0]).value;
            Became(DoTake(s, w0), p, f) <==> if p == p0 then f == Taken(w0) else Became(s, p, f)
  {
    var s', t0 := DoTake(s, w0), s.queue[0];
    assert s.queue == [t0] + s'.queue;
    assert Became(s, Message(s, t0).value, Queued(t0));
    assert Became(s, p, f) <==> p in s.fate && s.fate[p] == f;
  }

  lemma FatesTake(s: State, w0: WorkerId)
    requires FatesOk(s) && OwnersOk(s) && TakeReady(s, w0)
    ensures FatesOk(DoTake(s, w0))
  {
    var s', t0 := DoTake(s, w0), s.queue[0];
    assert t0 in s.queue;
    var p0 := Message(s, t0).value;
    assert s.queue == [t0] + s'.queue;
    assert forall t :: t in s'.queue ==> t in s.queue;
    assert Became(s, p0, Queued(t0));
    forall p, f ensures Became(s', p, f) <==> if p == p0 then f == Taken(w0) else Became(s, p, f) {
      BecameTaken(s, w0, p, f);
    }
    FatesMoved(s, s', p0, Taken(w0));
  }

  lemma FatesHandoff(s: State, p0: PubId, w0: WorkerId)
    requires FatesOk(s) && OwnersOk(s) && HandoffReady(s, p0, w0)
    ensures FatesOk(DoHandoff(s, p0, w0))
  {
    var s', t0 := DoHandoff(s, p0, w0), s.pubs[p0].pc.t;
    assert Became(s, p0, NotSent);
    forall p, f ensures Became(s', p, f) <==> if p == p0 then f == Taken(w0) else Became(s, p, f) {
      assert Became(s, p, f) <==> p in s.fate && s.fate[p] == f;
    }
    FatesMoved(s, s', p0, Taken(w0));
  }

  lemma FatesBegin(s: State, p0: PubId, blocking: bool)
    requires FatesOk(s) && p0 !in s.pubs
    ensures FatesOk(DoBegin(s, p0, blocking))
  {
    var s' := DoBegin(s, p0, blocking);
    forall p, f ensures Became(s', p, f) <==> if p == p0 then f == NotSent else Became(s, p, f) {
      assert Became(s, p, f) <==> p in s.fate && s.fate[p] == f;
    }
    FatesMoved(s, s', p0, NotSent);
  }

  lemma FatesGiveUp(s: State, p0: PubId)
    requires FatesOk(s) && p0 in s.pubs && s.pubs[p0].pc.PSend?
    ensures FatesOk(DoGiveUp(s, p0))
  {
    var s' := DoGiveUp(s, p0);
    forall p, f ensures Became(s', p, f) <==> Became(s, p, f) {}
  }

  lemma FatesDrop(s: State, t0: TaskId)
    requires FatesOk(s) && OwnersOk(s) && t0 in s.free
    ensures FatesOk(DoDrop(s, t0))
  {
    var s' := DoDrop(s, t0);
    assert At(s, t0, InPool);
    assert !At(s, t0, InQueue);
    forall w | w in s.workers && BeforeCall(s.workers[w]) ensures s.workers[w].t != t0 {
      assert !At(s, t0, ByWorker(w));
    }
    forall q | q in s.pubs && Filled(s.pubs[q].pc) ensures s.pubs[q].pc.t != t0 {
      assert !At(s, t0, ByPub(q));
    }
    forall p, f ensures Became(s', p, f) <==> Became(s, p, f) {}
  }

  lemma FatesParentCancel(s: State)
    requires FatesOk(s)
    ensures FatesOk(DoParentCancel(s))
  {
    forall p, f ensures Became(DoParentCancel(s), p, f) <==> Became(s, p, f) {}
  }

  lemma FatesStop(s: State)
    requires FatesOk(s) && StopReady(s)
    ensures FatesOk(DoStop(s))
  {
    FatesWoken(s);
    var s' := DoStop(s);
    FatesFrame(s.(workers := s'.workers), s');
  }

  lemma FatesFrame(s: State, s': State)
    requires FatesOk(s)
    requires s'.pubs == s.pubs && s'.workers == s.workers && s'.queue == s.queue
    requires s'.heap == s.heap && s'.fate == s.fate && s'.ran == s.ran
    ensures FatesOk(s')
  {
    forall p, f ensures Became(s', p, f) <==> Became(s, p, f) {}
  }
}
