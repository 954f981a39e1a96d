/** The dead-letter middleware (dlq/dlq.go) around a handler inside processMessage (consumer_push.go),
    over any sequence of deliveries of any messages and any failures of publish, Term, Ack and Nak. */
module Dlq {
  import opened Basics
  import opened Decimal

  /** An error as errors.Is sees it. */
  datatype Err = Err(sendToDlq: bool, routed: bool)

  /** What the server was told about the message; the first request that gets through wins. */
  datatype Settlement = Open | Acked | Naked | Termed

  datatype Reply = Ok | AlreadyAckd | Failed

  datatype Config = Config(enabled: bool, maxDeliver: nat)

  /** The message, as far as the middleware looks at it. */
  datatype Origin = Origin(stream: string, sequence: nat, msgId: string)

  /** Everything the outside decides in one delivery.  `term` lists the three possible Term requests. */
  datatype Delivery = Delivery(
    num: nat,                  // NumDelivered
    meta: bool,                // Metadata() succeeds
    decompresses: bool,
    handler: Option<Err>,      // what the inner handler returns
    panics: bool,              // or it panics with that error (None: with something else)
    settles: Settlement,       // the inner handler may settle the message itself
    publish: Write,
    term: (bool, bool, bool),
    settle: bool)              // the consumer's Ack or Nak request gets through

  /** What the middleware and the consumer do to the outside, in order. */
  datatype Event =
    | HandlerCall
    | Publish(outcome: Write)
    | Request(kind: Settlement, reply: Reply)   // Ack, Nak or Term

  // ----- Specification

  function Settle(st: Settlement, kind: Settlement, up: bool): (r: (Settlement, Reply)) {
    if st != Open then (st, AlreadyAckd) else if up then (kind, Ok) else (st, Failed)
  }

  /** Outcome of one delivery: the message's settlement, what was done, and what processMessage returns. */
  datatype Record = Record(state: Settlement, events: seq<Event>, err: Option<Err>)

  /** Term requests until one succeeds. */
  function Terms(st: Settlement, ups: seq<bool>): (Settlement, seq<Event>) {
    if ups == [] then (st, [])
    else
      var (st', reply) := Settle(st, Termed, ups[0]);
      if reply == Ok then (st', [Request(Termed, Ok)])
      else var (r, es) := Terms(st', ups[1..]); (r, [Request(Termed, reply)] + es)
  }

  function Ups(d: Delivery): seq<bool> { [d.term.0, d.term.1, d.term.2] }

  const ROUTED := Err(false, true)
  const OTHER := Err(false, false)

  /** The result of publishing and terminating. */
  function Route(d: Delivery, st: Settlement): (r: Record) {
    if d.publish != Works then Record(st, [Publish(d.publish)], Some(OTHER))
    else
      var (st', es) := Terms(st, Ups(d));
      Record(st', [Publish(Works)] + es, if Request(Termed, Ok) in es then None else Some(ROUTED))
  }

  predicate TooOften(cfg: Config, d: Delivery) {
    cfg.enabled && cfg.maxDeliver > 0 && d.meta && d.num > cfg.maxDeliver
  }

  /** A routed message is reported as such, whether or not the Term succeeded. */
  function Routed(r: Record): Record {
    r.(err := if r.err.None? then Some(ROUTED) else r.err)
  }

  /** The middleware around the inner handler. */
  function With(cfg: Config, d: Delivery): (r: Record) {
    if TooOften(cfg, d) then Routed(Route(d, Open))
    else if d.panics then Record(d.settles, [HandlerCall], if d.handler.None? then Some(OTHER) else d.handler)
    else if !cfg.enabled || d.handler.None? || !d.handler.value.sendToDlq then Record(d.settles, [HandlerCall], d.handler)
    else
      var r := Routed(Route(d, d.settles));
      r.(events := [HandlerCall] + r.events)
  }

  /** The consumer's own Ack or Nak. */
  function Answered(r: Record, kind: Settlement, up: bool): (Record, Reply) {
    var (st, reply) := Settle(r.state, kind, up);
    (r.(state := st, events := r.events + [Request(kind, reply)]), reply)
  }

  /** processMessage around the middleware. */
  function Process(cfg: Config, d: Delivery): (r: Record) {
    if !d.decompresses then Answered(Record(Open, [], Some(OTHER)), Naked, d.settle).0
    else
      var r := With(cfg, d);
      if r.err.Some? && r.err.value.routed then r.(err := None)
      else if r.err.Some? then Answered(r, Naked, d.settle).0
      else
        var (r', reply) := Answered(r, Acked, d.settle);
        r'.(err := if reply == Failed then Some(OTHER) else None)
  }

  // ----- Deduplication ids

  /** The Nats-Msg-Id header of the dead-letter copy: the original id, else one derived from the position. */
  function CopyId(o: Origin, meta: bool): (r: Option<string>) {
    if o.msgId != "" then Some(o.msgId)
    else if meta then Some("dlq-" + o.stream + "-" + Render(o.sequence))
    else None
  }

  /** A stored dead letter: its message id, and the message it is a copy of. */
  datatype Copy = Copy(id: Option<string>, origin: Origin)

  /** The stream holds a message with this id. */
  predicate Taken(copies: seq<Copy>, id: Option<string>) {
    id.Some? && exists i :: 0 <= i < |copies| && copies[i].id == id
  }

  /** A stream stores one message per id and drops the others, reporting success. */
  function Store(copies: seq<Copy>, c: Copy): seq<Copy> {
    if Taken(copies, c.id) then copies else copies + [c]
  }

  // ----- The code

  /** The log of everything done to the outside. */
  class Wire {
    var log: seq<Event>

    constructor ()
      ensures log == []
    {
      log := [];
    }
  }

  class Message {
    var state: Settlement

    constructor ()
      ensures state == Open
    {
      state := Open;
    }

    /** Ack, Nak and Term: one request to the server. */
    method Send(wire: Wire, kind: Settlement, up: bool) returns (r: Reply)
      modifies this, wire
      ensures (state, r) == Settle(old(state), kind, up)
      ensures wire.log == old(wire.log) + [Request(kind, r)]
    {
      r := if state != Open then AlreadyAckd else if up then Ok else Failed;
      if r == Ok {
        state := kind;
      }
      wire.log := wire.log + [Request(kind, r)];
    }

    /** The inner handler runs, and may settle the message. */
    method Handle(wire: Wire, settles: Settlement)
      modifies this, wire
      ensures state == settles && wire.log == old(wire.log) + [HandlerCall]
    {
      state := settles;
      wire.log := wire.log + [HandlerCall];
    }
  }

  /** The dead-letter stream: one message per id. */
  class DeadLetters {
    var copies: seq<Copy>

    constructor (held: seq<Copy>)
      ensures copies == held
    {
      copies := held;
    }

    method PublishRaw(wire: Wire, c: Copy, outcome: Write) returns (ok: bool)
      modifies this, wire
      ensures ok <==> outcome == Works
      ensures copies == if outcome == Fails then old(copies) else Store(old(copies), c)
      ensures wire.log == old(wire.log) + [Publish(outcome)]
    {
      if outcome != Fails && !Taken(copies, c.id) {
        copies := copies + [c];
      }
      wire.log := wire.log + [Publish(outcome)];
      return outcome == Works;
    }
  }

  /** A publish reached the dead-letter stream, reported or not. */
  predicate Reached(events: seq<Event>) {
    Publish(Works) in events || Publish(FailsLate) in events
  }

  /** What the dead-letter stream holds after a delivery. */
  function Kept(copies: seq<Copy>, o: Origin, d: Delivery, events: seq<Event>): seq<Copy> {
    if Reached(events) then Store(copies, Copy(CopyId(o, d.meta), o)) else copies
  }

  method DedupeId(o: Origin, meta: bool) returns (id: Option<string>)
    ensures id == CopyId(o, meta)
  {
    id := None;
    if o.msgId != "" {
      id := Some(o.msgId);
    }
    if id.None? && meta {
      id := Some("dlq-" + o.stream + "-" + Render(o.sequence));
    }
  }

  method DoRoute(o: Origin, d: Delivery, msg: Message, dlq: DeadLetters, wire: Wire) returns (err: Option<Err>)
    modifies msg, dlq, wire
    ensures var r := Route(d, old(msg.state));
      msg.state == r.state && err == r.err && wire.log == old(wire.log) + r.events
      && dlq.copies == Kept(old(dlq.copies), o, d, r.events)
  {
    var id := DedupeId(o, d.meta);
    var published := dlq.PublishRaw(wire, Copy(id, o), d.publish);
    if !published {
      return Some(OTHER);
    }
    var termed := TermThrice(Ups(d), msg, wire);
    if !termed {
      return Some(ROUTED);
    }
    return None;
  }

  method TermThrice(ups: seq<bool>, msg: Message, wire: Wire) returns (termed: bool)
    modifies msg, wire
    ensures var (st, es) := Terms(old(msg.state), ups);
      msg.state == st && wire.log == old(wire.log) + es && (termed <==> Request(Termed, Ok) in es)
  {
    ghost var sent: seq<Event> := [];
    assert ups[0..] == ups;
    for i := 0 to |ups|
      invariant wire.log == old(wire.log) + sent && Request(Termed, Ok) !in sent
      invariant Terms(old(msg.state), ups).0 == Terms(msg.state, ups[i..]).0
      invariant Terms(old(msg.state), ups).1 == sent + Terms(msg.state, ups[i..]).1
    {
      var reply := msg.Send(wire, Termed, ups[i]);
      sent := sent + [Request(Termed, reply)];
      assert ups[i..][1..] == ups[i + 1..];
      if reply == Ok {
        return true;
      }
    }
    return false;
  }

  method DoWith(cfg: Config, o: Origin, d: Delivery, msg: Message, dlq: DeadLetters, wire: Wire) returns (err: Option<Err>)
    requires msg.state == Open
    modifies msg, dlq, wire
    ensures var r := With(cfg, d);
      msg.state == r.state && err == r.err && wire.log == old(wire.log) + r.events
      && dlq.copies == Kept(old(dlq.copies), o, d, r.events)
  {
    if cfg.enabled && cfg.maxDeliver > 0 {
      if d.meta && d.num > cfg.maxDeliver {
        var routeErr := DoRoute(o, d, msg, dlq, wire);
        return if routeErr.Some? then routeErr else Some(ROUTED);
      }
    }
    msg.Handle(wire, d.settles);
    if d.panics {
      return if d.handler.None? then Some(OTHER) else d.handler;
    }
    if !cfg.enabled || d.handler.None? || !d.handler.value.sendToDlq {
      return d.handler;
    }
    var routeErr := DoRoute(o, d, msg, dlq, wire);
    return if routeErr.Some? then routeErr else Some(ROUTED);
  }

  method ProcessMessage(cfg: Config, o: Origin, d: Delivery, msg: Message, dlq: DeadLetters, wire: Wire)
    returns (err: Option<Err>)
    requires msg.state == Open
    modifies msg, dlq, wire
    ensures var r := Process(cfg, d);
      msg.state == r.state && err == r.err && wire.log == old(wire.log) + r.events
      && dlq.copies == Kept(old(dlq.copies), o, d, r.events)
  {
    if !d.decompresses {
      var _ := msg.Send(wire, Naked, d.settle);
      return Some(OTHER);
    }
    var handlerErr := DoWith(cfg, o, d, msg, dlq, wire);
    if handlerErr.Some? && handlerErr.value.routed {
      return None;
    }
    if handlerErr.Some? {
      var _ := msg.Send(wire, Naked, d.settle);
      return handlerErr;
    }
    var reply := msg.Send(wire, Acked, d.settle);
    return if reply == Failed then Some(OTHER) else None;
  }

  /** Any deliveries of any messages, each with a fresh message object, against one dead-letter stream. */
  method Deliver(cfg: Config, held: seq<Copy>, arrivals: seq<Arrival>) returns (logs: seq<seq<Event>>, copies: seq<Copy>)
    ensures |logs| == |arrivals| && forall i :: 0 <= i < |logs| ==> logs[i] == Process(cfg, arrivals[i].d).events
    ensures copies == Copies(cfg, held, arrivals)
  {
    var dlq := new DeadLetters(held);
    logs := [];
    for i := 0 to |arrivals|
      invariant fresh(dlq) && dlq.copies == Copies(cfg, held, arrivals[..i])
      invariant |logs| == i && forall j :: 0 <= j < i ==> logs[j] == Process(cfg, arrivals[j].d).events
    {
      assert arrivals[..i + 1][..i] == arrivals[..i];
      var msg := new Message();
      var wire := new Wire();
      var _ := ProcessMessage(cfg, arrivals[i].o, arrivals[i].d, msg, dlq, wire);
      logs := logs + [wire.log];
    }
    assert arrivals[..|arrivals|] == arrivals;
    return logs, dlq.copies;
  }

  // ----- What one delivery promises

  predicate IsTerm(e: Event) { e.Request? && e.kind == Termed }

  predicate IsNak(e: Event) { e.Request? && e.kind == Naked }

  /** Nothing but Term requests, the last of which succeeded exactly if the message was open and a request
      got through. */
  lemma {:induction false} TermsAre(st: Settlement, ups: seq<bool>)
    ensures var (st', es) := Terms(st, ups);
      && (forall i :: 0 <= i < |es| ==> IsTerm(es[i]))
      && (Request(Termed, Ok) in es <==> st == Open && true in ups)
      && (Request(Termed, Ok) !in es ==> |es| == |ups|)
      && st' == if st == Open && true in ups then Termed else st
  {
    if ups != [] {
      TermsAre(st, ups[1..]);
    }
  }

  /** Some of the three Term requests gets through. */
  predicate TermWorks(d: Delivery) { d.term.0 || d.term.1 || d.term.2 }

  lemma UpsWork(d: Delivery)
    ensures true in Ups(d) <==> TermWorks(d)
  {
    assert Ups(d)[0] == d.term.0 && Ups(d)[1] == d.term.1 && Ups(d)[2] == d.term.2;
  }

  lemma RouteEvents(d: Delivery, st: Settlement)
    ensures var es := Route(d, st).events;
      && |es| > 0 && es[0] == Publish(d.publish) && (|es| > 1 ==> d.publish == Works)
      && (forall i :: 0 < i < |es| ==> IsTerm(es[i]))
    ensures d.publish == Works ==> Routed(Route(d, st)).err == Some(ROUTED)
    ensures d.publish == Works && (st != Open || !TermWorks(d)) ==> |Route(d, st).events| == 4
    ensures Route(d, st).err.None? <==> d.publish == Works && st == Open && TermWorks(d)
  {
    TermsAre(st, Ups(d));
    UpsWork(d);
  }

  /** What a list of events may look like: the handler is called first if at all, Terms come after a
      publish that worked, and nothing else is requested. */
  ghost predicate Orderly(es: seq<Event>, mayCall: bool) {
    && (forall i :: 0 <= i < |es| && es[i] == HandlerCall ==> i == 0 && mayCall)
    && (forall i :: 0 <= i < |es| && es[i].Request? ==> IsTerm(es[i]) && exists j :: 0 <= j < i && es[j] == Publish(Works))
  }

  lemma WithEvents(cfg: Config, d: Delivery)
    ensures Orderly(With(cfg, d).events, !TooOften(cfg, d))
    ensures Publish(Works) in With(cfg, d).events ==> With(cfg, d).err == Some(ROUTED)
  {
    var es := With(cfg, d).events;
    if TooOften(cfg, d) {
      RouteEvents(d, Open);
      assert es == Route(d, Open).events;
    } else if es != [HandlerCall] {
      RouteEvents(d, d.settles);
      assert es == [HandlerCall] + Route(d, d.settles).events;
      assert es[1] == Publish(d.publish);
    }
  }

  /** The whole delivery: the middleware's events, then the consumer's one Ack or Nak unless the message
      was routed. */
  lemma ProcessEvents(cfg: Config, d: Delivery)
    ensures var es := Process(cfg, d).events;
      if d.decompresses && With(cfg, d).err.Some? && With(cfg, d).err.value.routed then es == With(cfg, d).events
      else
        && |es| > 0 && es[|es| - 1].Request?
        && es[|es| - 1].kind == (if d.decompresses && With(cfg, d).err.None? then Acked else Naked)
        && es[..|es| - 1] == if d.decompresses then With(cfg, d).events else []
  {}

  /** Every Term request of the middleware has a dead-letter publish that succeeded before it. */
  lemma PublishBeforeTerm(cfg: Config, d: Delivery, i: nat)
    requires i < |Process(cfg, d).events| && IsTerm(Process(cfg, d).events[i])
    ensures exists j :: 0 <= j < i && Process(cfg, d).events[j] == Publish(Works)
  {
    WithEvents(cfg, d);
    ProcessEvents(cfg, d);
    var es := Process(cfg, d).events;
    assert With(cfg, d).events[i] == es[i];
    var j :| 0 <= j < i && With(cfg, d).events[j] == Publish(Works);
    assert es[j] == Publish(Works);
  }

  /** A message the handler did not terminate itself is terminated only by a Term request that succeeded. */
  lemma TermedByRequest(cfg: Config, d: Delivery)
    requires Process(cfg, d).state == Termed && d.settles != Termed
    ensures Request(Termed, Ok) in Process(cfg, d).events
  {
    TermsAre(Open, Ups(d));
    TermsAre(d.settles, Ups(d));
  }

  /** A delivery whose dead-letter publish succeeded makes no Ack or Nak request at all and counts as success. */
  lemma NoNakAfterPublish(cfg: Config, d: Delivery)
    requires Publish(Works) in Process(cfg, d).events
    ensures forall e :: e in Process(cfg, d).events ==> !IsNak(e) && (e.Request? ==> e.kind != Acked)
    ensures Process(cfg, d).err == None
  {
    WithEvents(cfg, d);
    ProcessEvents(cfg, d);
  }

  /** The handler returned, or panicked with, ErrDLQRouted of its own making. */
  predicate FakesRouting(cfg: Config, d: Delivery) {
    && d.decompresses && !TooOften(cfg, d) && d.handler.Some? && d.handler.value.routed
    && (d.panics || !cfg.enabled || !d.handler.value.sendToDlq)
  }

  /** The middleware publishes: the message came too often, or the handler asked for it. */
  predicate Publishes(cfg: Config, d: Delivery) {
    && d.decompresses && cfg.enabled
    && (TooOften(cfg, d) || (!d.panics && d.handler.Some? && d.handler.value.sendToDlq))
  }

  /** Which events a delivery has, read off its inputs. */
  lemma Members(cfg: Config, d: Delivery)
    ensures HandlerCall in Process(cfg, d).events <==> d.decompresses && !TooOften(cfg, d)
    ensures Publish(Works) in Process(cfg, d).events <==> Publishes(cfg, d) && d.publish == Works
  {
    WithMembers(cfg, d);
    ProcessEvents(cfg, d);
    var es := Process(cfg, d).events;
    assert |es| > 0 ==> es == es[..|es| - 1] + [es[|es| - 1]];
  }

  lemma WithMembers(cfg: Config, d: Delivery)
    ensures HandlerCall in With(cfg, d).events <==> !TooOften(cfg, d)
    ensures d.decompresses ==> (Publish(Works) in With(cfg, d).events <==> Publishes(cfg, d) && d.publish == Works)
  {
    if TooOften(cfg, d) {
      RouteEvents(d, Open);
      assert Publish(d.publish) in With(cfg, d).events;
    } else {
      RouteEvents(d, d.settles);
      assert With(cfg, d).events[0] == HandlerCall;
    }
  }

  /** The handler was called and returned nil. */
  predicate Succeeds(cfg: Config, d: Delivery) {
    d.decompresses && !TooOften(cfg, d) && !d.panics && d.handler.None?
  }

  /** The payload does not decompress, the dead-letter publish failed, or the handler failed or panicked and
      neither asked for the dead-letter queue nor claimed a routing. */
  predicate Fails(cfg: Config, d: Delivery) {
    || !d.decompresses
    || (Publishes(cfg, d) && d.publish != Works)
    || (!TooOften(cfg, d) && (d.panics || d.handler.Some?) && !Publishes(cfg, d) && !FakesRouting(cfg, d))
  }

  predicate Requested(es: seq<Event>, kind: Settlement) {
    exists i :: 0 <= i < |es| && es[i].Request? && es[i].kind == kind
  }

  /** The consumer requests an Ack exactly if the handler returned nil, and a Nak exactly if the delivery
      failed; never both, and neither exactly if the message was routed or the handler claimed so. */
  lemma AckOrNak(cfg: Config, d: Delivery)
    ensures Requested(Process(cfg, d).events, Acked) <==> Succeeds(cfg, d)
    ensures Requested(Process(cfg, d).events, Naked) <==> Fails(cfg, d)
    ensures Succeeds(cfg, d) ==> !Fails(cfg, d)
    ensures !Succeeds(cfg, d) && !Fails(cfg, d) <==>
      (Publishes(cfg, d) && d.publish == Works) || FakesRouting(cfg, d)
  {
    WithEvents(cfg, d);
    ProcessEvents(cfg, d);
    if d.decompresses {
      WithOutcome(cfg, d);
    }
    var es := Process(cfg, d).events;
    if d.decompresses && With(cfg, d).err.Some? && With(cfg, d).err.value.routed {
      assert es == With(cfg, d).events;
    } else {
      OnlyLastRequest(es, if d.decompresses then With(cfg, d).events else []);
    }
  }

  /** An Ack or Nak can only be the last event. */
  lemma OnlyLastRequest(es: seq<Event>, before: seq<Event>)
    requires |es| > 0 && es[..|es| - 1] == before && es[|es| - 1].Request?
    requires forall i :: 0 <= i < |before| && before[i].Request? ==> IsTerm(before[i])
    ensures forall kind :: kind in {Acked, Naked} ==> (Requested(es, kind) <==> es[|es| - 1].kind == kind)
  {
    assert forall i :: 0 <= i < |es| - 1 ==> es[i] == before[i];
  }

  /** What the middleware reports to the consumer, read off the inputs. */
  lemma WithOutcome(cfg: Config, d: Delivery)
    requires d.decompresses
    ensures With(cfg, d).err.None? <==> Succeeds(cfg, d)
    ensures With(cfg, d).err.Some? && With(cfg, d).err.value.routed <==>
      (Publishes(cfg, d) && d.publish == Works) || FakesRouting(cfg, d)
  {
    RouteEvents(d, Open);
    RouteEvents(d, d.settles);
  }

  /** How a delivery leaves the message and what processMessage reports, read off its inputs: the handler's
      own settlement stands; otherwise a routed message is terminated if a Term got through, and any other
      is Acked after success and Nak'd after failure if that request got through. */
  lemma FinalState(cfg: Config, d: Delivery)
    ensures var r, handled := Process(cfg, d), d.decompresses && !TooOften(cfg, d);
      r.state ==
        if handled && d.settles != Open then d.settles
        else if Publishes(cfg, d) && d.publish == Works then (if TermWorks(d) then Termed else Open)
        else if FakesRouting(cfg, d) || !d.settle then Open
        else if Succeeds(cfg, d) then Acked else Naked
    ensures Process(cfg, d).err == None <==> !Fails(cfg, d) && (Succeeds(cfg, d) && d.settles == Open ==> d.settle)
  {
    TermsAre(Open, Ups(d));
    TermsAre(d.settles, Ups(d));
    UpsWork(d);
    if d.decompresses {
      WithOutcome(cfg, d);
    }
  }

  /** A message the handler left open is acknowledged only after the handler returned nil. */
  lemma AckedAfterSuccess(cfg: Config, d: Delivery)
    requires Process(cfg, d).state == Acked && d.settles == Open
    ensures Succeeds(cfg, d) && HandlerCall in Process(cfg, d).events
  {
    FinalState(cfg, d);
    Members(cfg, d);
  }

  /** Exactly when a delivery ends with the message still open: the one Ack or Nak request failed, the
      message was published to the dead-letter queue but all three Terms failed, or the handler claimed a
      routing that did not happen. */
  lemma LeftOpen(cfg: Config, d: Delivery)
    ensures var r := Process(cfg, d);
      r.state == Open <==>
        && (d.settles == Open || HandlerCall !in r.events)
        && (if Publish(Works) in r.events then !TermWorks(d) else FakesRouting(cfg, d) || !d.settle)
  {
    Members(cfg, d);
    FinalState(cfg, d);
  }

  /** Success reported for a message that is neither settled nor published to the dead-letter queue: exactly
      the handlers that fake a routing. */
  lemma SilentLoss(cfg: Config, d: Delivery)
    ensures var r := Process(cfg, d);
      r.err == None && r.state == Open && Publish(Works) !in r.events <==> FakesRouting(cfg, d) && d.settles == Open
  {
    TermsAre(Open, Ups(d));
    TermsAre(d.settles, Ups(d));
  }

  // ----- Handler calls over all redeliveries

  datatype Arrival = Arrival(o: Origin, d: Delivery)

  /** Deliveries of one message carry increasing numbers, starting at one or more. */
  ghost predicate Redeliveries(arrivals: seq<Arrival>) {
    && (forall i :: 0 <= i < |arrivals| ==> arrivals[i].d.num >= 1)
    && (forall i, j :: 0 <= i < j < |arrivals| && arrivals[i].o == arrivals[j].o ==> arrivals[i].d.num < arrivals[j].d.num)
  }

  function HandlerCalls(es: seq<Event>): nat { multiset(es)[HandlerCall] }

  /** How often the handler is called for message `o`. */
  function CallsFor(cfg: Config, arrivals: seq<Arrival>, o: Origin): nat {
    if arrivals == [] then 0
    else
      var a := arrivals[|arrivals| - 1];
      CallsFor(cfg, arrivals[..|arrivals| - 1], o) + if a.o == o then HandlerCalls(Process(cfg, a.d).events) else 0
  }

  lemma CallIsFirst(cfg: Config, d: Delivery)
    ensures var es := Process(cfg, d).events;
      forall i :: 0 <= i < |es| && es[i] == HandlerCall ==> i == 0 && d.decompresses && !TooOften(cfg, d)
  {
    WithEvents(cfg, d);
    ProcessEvents(cfg, d);
  }

  /** A delivery calls the handler at most once: exactly if the payload decompresses and the delivery number
      is at most MaxDeliver, or there is no limit, or the number cannot be read. */
  lemma RanOnlyEarly(cfg: Config, d: Delivery)
    ensures HandlerCalls(Process(cfg, d).events) ==
      if d.decompresses && (!cfg.enabled || cfg.maxDeliver == 0 || !d.meta || d.num <= cfg.maxDeliver) then 1 else 0
  {
    CallIsFirst(cfg, d);
    Members(cfg, d);
    CountFirst(Process(cfg, d).events);
  }

  lemma CountFirst(es: seq<Event>)
    requires forall i :: 0 < i < |es| ==> es[i] != HandlerCall
    ensures HandlerCalls(es) == if HandlerCall in es then 1 else 0
  {
    if |es| > 0 {
      assert es == [es[0]] + es[1..];
      assert HandlerCall !in es[1..];
    }
  }

  /** Deliveries of `o` whose metadata could not be read; the middleware cannot count these. */
  function Uncounted(arrivals: seq<Arrival>, o: Origin): nat {
    if arrivals == [] then 0
    else
      var a := arrivals[|arrivals| - 1];
      Uncounted(arrivals[..|arrivals| - 1], o) + if a.o == o && !a.d.meta then 1 else 0
  }

  ghost predicate NumbersUpTo(arrivals: seq<Arrival>, o: Origin, n: int) {
    forall i :: 0 <= i < |arrivals| && arrivals[i].o == o ==> arrivals[i].d.num <= n
  }

  /** With MaxDeliver = N the handler is called at most N times for a message over all redeliveries, not
      counting deliveries without metadata. */
  lemma {:induction false} AtMostMaxDeliver(cfg: Config, arrivals: seq<Arrival>, o: Origin)
    requires cfg.enabled && cfg.maxDeliver > 0 && Redeliveries(arrivals)
    ensures CallsFor(cfg, arrivals, o) <= cfg.maxDeliver + Uncounted(arrivals, o)
    ensures forall n: nat :: NumbersUpTo(arrivals, o, n) ==> CallsFor(cfg, arrivals, o) <= n + Uncounted(arrivals, o)
  {
    if arrivals != [] {
      var k := |arrivals| - 1;
      var a := arrivals[k];
      AtMostMaxDeliver(cfg, arrivals[..k], o);
      RanOnlyEarly(cfg, a.d);
      if a.o == o {
        assert NumbersUpTo(arrivals[..k], o, a.d.num - 1);
      }
      forall n: nat | NumbersUpTo(arrivals, o, n) ensures CallsFor(cfg, arrivals, o) <= n + Uncounted(arrivals, o) {
        assert NumbersUpTo(arrivals[..k], o, n);
      }
    }
  }

  // ----- Copies in the dead-letter stream

  /** The dead-letter stream after a sequence of deliveries, from any contents. */
  function Copies(cfg: Config, held: seq<Copy>, arrivals: seq<Arrival>): seq<Copy> {
    if arrivals == [] then held
    else
      var a := arrivals[|arrivals| - 1];
      Kept(Copies(cfg, held, arrivals[..|arrivals| - 1]), a.o, a.d, Process(cfg, a.d).events)
  }

  function CopiesOf(copies: seq<Copy>, o: Origin): nat {
    if copies == [] then 0
    else CopiesOf(copies[..|copies| - 1], o) + if copies[|copies| - 1].origin == o then 1 else 0
  }

  lemma CopiesOfStore(copies: seq<Copy>, c: Copy, o: Origin)
    ensures CopiesOf(Store(copies, c), o) == CopiesOf(copies, o) + if c.origin == o && !Taken(copies, c.id) then 1 else 0
  {
    assert (copies + [c])[..|copies|] == copies;
  }

  lemma TakenStore(copies: seq<Copy>, c: Copy, id: Option<string>)
    ensures Taken(Store(copies, c), id) <==> Taken(copies, id) || (id.Some? && c.id == id)
  {
    var after := copies + [c];
    assert after[|copies|] == c;
    if Taken(copies, id) {
      var i :| 0 <= i < |copies| && copies[i].id == id;
      assert after[i].id == id;
    }
  }

  /** Deliveries of `o` that reach the dead-letter stream without an id, and so cannot be recognised again. */
  function Anonymous(cfg: Config, arrivals: seq<Arrival>, o: Origin): nat {
    if arrivals == [] then 0
    else
      var a := arrivals[|arrivals| - 1];
      Anonymous(cfg, arrivals[..|arrivals| - 1], o)
      + if a.o == o && CopyId(o, a.d.meta).None? && Reached(Process(cfg, a.d).events) then 1 else 0
  }

  /** The id does not depend on the delivery, so at most one copy is added however often Term fails or a
      publish reports failure after it was stored; deliveries without any id add one each. */
  lemma {:induction false} OneCopy(cfg: Config, held: seq<Copy>, arrivals: seq<Arrival>, o: Origin)
    ensures var copies := Copies(cfg, held, arrivals);
      CopiesOf(copies, o) <=
        CopiesOf(held, o) + Anonymous(cfg, arrivals, o) + if Taken(copies, CopyId(o, true)) then 1 else 0
  {
    if arrivals != [] {
      var k := |arrivals| - 1;
      var a, before := arrivals[k], Copies(cfg, held, arrivals[..k]);
      OneCopy(cfg, held, arrivals[..k], o);
      var c := Copy(CopyId(a.o, a.d.meta), a.o);
      CopiesOfStore(before, c, o);
      TakenStore(before, c, CopyId(o, true));
    }
  }

  ghost predicate HasCopy(copies: seq<Copy>, o: Origin) {
    exists i :: 0 <= i < |copies| && copies[i].origin == o
  }

  lemma HasCopyStore(copies: seq<Copy>, c: Copy, o: Origin)
    ensures HasCopy(Store(copies, c), o) <==> HasCopy(copies, o) || (c.origin == o && !Taken(copies, c.id))
  {
    var after := copies + [c];
    assert after[|copies|] == c;
    if HasCopy(copies, o) {
      var i :| 0 <= i < |copies| && copies[i].origin == o;
      assert after[i].origin == o;
    }
  }

  predicate Reaches(cfg: Config, a: Arrival, o: Origin) {
    a.o == o && Reached(Process(cfg, a.d).events)
  }

  /** Some delivery of `o` reached the dead-letter stream. */
  predicate Sent(cfg: Config, arrivals: seq<Arrival>, o: Origin) {
    exists i :: 0 <= i < |arrivals| && Reaches(cfg, arrivals[i], o)
  }

  lemma SentLast(cfg: Config, before: seq<Arrival>, a: Arrival, o: Origin)
    ensures Sent(cfg, before + [a], o) <==> Sent(cfg, before, o) || Reaches(cfg, a, o)
  {
    var all := before + [a];
    assert all[|before|] == a;
    if i :| 0 <= i < |before| && Reaches(cfg, before[i], o) {
      assert all[i] == before[i];
    }
  }

  ghost predicate From(arrivals: seq<Arrival>, ms: set<Origin>) {
    forall i :: 0 <= i < |arrivals| ==> arrivals[i].o in ms
  }

  /** Nobody else uses the id of `o`: neither a message held already nor another one of `ms`. */
  ghost predicate OwnId(ms: set<Origin>, held: seq<Copy>, o: Origin) {
    && !Taken(held, CopyId(o, true))
    && forall p :: p in ms && p != o ==> CopyId(p, true) != CopyId(o, true)
  }

  /** With an id of its own a message has a copy exactly if one of its deliveries reached the stream; and
      until then its id is free. */
  lemma {:induction false} CopiedIffSent(cfg: Config, held: seq<Copy>, arrivals: seq<Arrival>, ms: set<Origin>, o: Origin)
    requires From(arrivals, ms) && OwnId(ms, held, o)
    ensures HasCopy(Copies(cfg, held, arrivals), o) <==> HasCopy(held, o) || Sent(cfg, arrivals, o)
    ensures Taken(Copies(cfg, held, arrivals), CopyId(o, true)) ==> Sent(cfg, arrivals, o)
  {
    if arrivals != [] {
      var k := |arrivals| - 1;
      var a, before := arrivals[k], Copies(cfg, held, arrivals[..k]);
      CopiedIffSent(cfg, held, arrivals[..k], ms, o);
      assert arrivals == arrivals[..k] + [a];
      SentLast(cfg, arrivals[..k], a, o);
      var c := Copy(CopyId(a.o, a.d.meta), a.o);
      HasCopyStore(before, c, o);
      TakenStore(before, c, CopyId(o, true));
    }
  }

  /** Once there, a copy stays. */
  lemma {:induction false} CopyStays(cfg: Config, held: seq<Copy>, arrivals: seq<Arrival>, o: Origin)
    requires HasCopy(held, o)
    ensures HasCopy(Copies(cfg, held, arrivals), o)
  {
    if arrivals != [] {
      var k := |arrivals| - 1;
      CopyStays(cfg, held, arrivals[..k], o);
      HasCopyStore(Copies(cfg, held, arrivals[..k]), Copy(CopyId(arrivals[k].o, arrivals[k].d.meta), arrivals[k].o), o);
    }
  }

  /** The middleware terminated the message in this delivery. */
  predicate Terminates(cfg: Config, d: Delivery) {
    d.settles != Termed && Process(cfg, d).state == Termed
  }

  lemma TerminatedWasSent(cfg: Config, d: Delivery)
    requires Terminates(cfg, d)
    ensures Publish(Works) in Process(cfg, d).events
  {
    TermedByRequest(cfg, d);
    var k :| 0 <= k < |Process(cfg, d).events| && Process(cfg, d).events[k] == Request(Termed, Ok);
    PublishBeforeTerm(cfg, d, k);
  }

  /** Every message of `ms` has a copy already or an id of its own. */
  ghost predicate Unambiguous(ms: set<Origin>, held: seq<Copy>) {
    forall o :: o in ms ==> HasCopy(held, o) || OwnId(ms, held, o)
  }

  /** In every sequence of deliveries of these messages, one the middleware terminates ends up with a copy
      of its own in the dead-letter stream. */
  ghost predicate NothingLost(cfg: Config, ms: set<Origin>, held: seq<Copy>) {
    forall arrivals: seq<Arrival>, i :: From(arrivals, ms) && 0 <= i < |arrivals| && Terminates(cfg, arrivals[i].d) ==>
      HasCopy(Copies(cfg, held, arrivals), arrivals[i].o)
  }

  lemma TerminatedIsCopied(cfg: Config, held: seq<Copy>, arrivals: seq<Arrival>, ms: set<Origin>, i: nat)
    requires From(arrivals, ms) && Unambiguous(ms, held) && i < |arrivals| && Terminates(cfg, arrivals[i].d)
    ensures HasCopy(Copies(cfg, held, arrivals), arrivals[i].o)
  {
    var o := arrivals[i].o;
    TerminatedWasSent(cfg, arrivals[i].d);
    assert Reaches(cfg, arrivals[i], o);
    if HasCopy(held, o) {
      CopyStays(cfg, held, arrivals, o);
    } else {
      CopiedIffSent(cfg, held, arrivals, ms, o);
    }
  }

  /** A delivery whose handler asks for the dead-letter queue and in which everything works. */
  const POISON := Delivery(1, true, true, Some(Err(true, false)), false, Open, Works, (true, true, true), true)

  lemma PoisonTerminates(cfg: Config)
    requires cfg.enabled
    ensures Terminates(cfg, POISON) && Reached(Process(cfg, POISON).events)
  {
    var r := Process(cfg, POISON);
    assert Ups(POISON)[0] && Terms(Open, Ups(POISON)) == (Termed, [Request(Termed, Ok)]);
    assert r.events == [HandlerCall, Publish(Works), Request(Termed, Ok)];
    assert r.events[1] == Publish(Works);
  }

  /** Two messages with one id: the second is reported as published, terminated, and gone. */
  lemma SharedIdLoses(cfg: Config, held: seq<Copy>, p: Origin, o: Origin)
    requires cfg.enabled && o != p && CopyId(o, true) == CopyId(p, true) && !HasCopy(held, o)
    ensures !HasCopy(Copies(cfg, held, [Arrival(p, POISON), Arrival(o, POISON)]), o)
  {
    PoisonTerminates(cfg);
    var two := [Arrival(p, POISON), Arrival(o, POISON)];
    var c, e := Copy(CopyId(p, true), p), Copy(CopyId(o, true), o);
    assert two[..1] == [Arrival(p, POISON)] && two[..1][..0] == [];
    assert Copies(cfg, held, two[..1]) == Store(held, c);
    HasCopyStore(held, c, o);
    TakenStore(held, c, CopyId(o, true));
    HasCopyStore(Store(held, c), e, o);
  }

  lemma TakenIdLoses(cfg: Config, held: seq<Copy>, o: Origin)
    requires cfg.enabled && Taken(held, CopyId(o, true)) && !HasCopy(held, o)
    ensures !HasCopy(Copies(cfg, held, [Arrival(o, POISON)]), o)
  {
    PoisonTerminates(cfg);
    assert [Arrival(o, POISON)][..0] == [];
    HasCopyStore(held, Copy(CopyId(o, true), o), o);
  }

  lemma Loses(cfg: Config, ms: set<Origin>, held: seq<Copy>) returns (arrivals: seq<Arrival>, i: nat)
    requires cfg.enabled && !Unambiguous(ms, held)
    ensures From(arrivals, ms) && i < |arrivals| && Terminates(cfg, arrivals[i].d)
    ensures !HasCopy(Copies(cfg, held, arrivals), arrivals[i].o)
  {
    var o :| o in ms && !HasCopy(held, o) && !OwnId(ms, held, o);
    PoisonTerminates(cfg);
    if Taken(held, CopyId(o, true)) {
      TakenIdLoses(cfg, held, o);
      arrivals, i := [Arrival(o, POISON)], 0;
    } else {
      var p :| p in ms && p != o && CopyId(p, true) == CopyId(o, true);
      SharedIdLoses(cfg, held, p, o);
      arrivals, i := [Arrival(p, POISON), Arrival(o, POISON)], 1;
    }
  }

  /** A message the middleware terminates is never lost, in any sequence of deliveries, if and only if no
      two messages share an id and no id is held by another message, apart from messages copied before. */
  lemma NothingLostExactly(cfg: Config, ms: set<Origin>, held: seq<Copy>)
    requires cfg.enabled
    ensures NothingLost(cfg, ms, held) <==> Unambiguous(ms, held)
  {
    if Unambiguous(ms, held) {
      forall arrivals: seq<Arrival>, i | From(arrivals, ms) && 0 <= i < |arrivals| && Terminates(cfg, arrivals[i].d)
        ensures HasCopy(Copies(cfg, held, arrivals), arrivals[i].o)
      {
        TerminatedIsCopied(cfg, held, arrivals, ms, i);
      }
    } else {
      var arrivals, i := Loses(cfg, ms, held);
    }
  }

  /** Splitting at the last dash. */
  lemma LastDash(a: string, m: string, b: string, n: string)
    requires a + "-" + m == b + "-" + n && '-' !in m && '-' !in n
    ensures a == b && m == n
  {
    var s := a + "-" + m;
    assert s[|a|] == '-' && forall i :: |a| < i < |s| ==> s[i] == m[i - |a| - 1];
    var t := b + "-" + n;
    assert t[|b|] == '-' && forall i :: |b| < i < |t| ==> t[i] == n[i - |b| - 1];
    assert a == s[..|a|] && b == t[..|b|];
    assert m == s[|a| + 1..] && n == t[|b| + 1..];
  }

  /** Derived ids are injective in stream and sequence, even for stream names containing dashes. */
  lemma DerivedIdsInjective(o: Origin, p: Origin)
    requires o.msgId == "" && p.msgId == "" && CopyId(o, true) == CopyId(p, true)
    ensures o == p
  {
    var a, b := CopyId(o, true).value, CopyId(p, true).value;
    assert a[4..] == o.stream + "-" + Render(o.sequence) && b[4..] == p.stream + "-" + Render(p.sequence);
    assert '-' !in Render(o.sequence) && '-' !in Render(p.sequence);
    LastDash(o.stream, Render(o.sequence), p.stream, Render(p.sequence));
    RenderInjective(o.sequence, p.sequence);
  }

  /** Messages without an id of their own get derived ones, which never clash with each other. */
  lemma DerivedIdsAreSafe(cfg: Config, ms: set<Origin>)
    requires cfg.enabled && forall o :: o in ms ==> o.msgId == ""
    ensures NothingLost(cfg, ms, [])
  {
    forall o, p | o in ms && p in ms && p != o ensures CopyId(p, true) != CopyId(o, true) {
      if CopyId(p, true) == CopyId(o, true) {
        DerivedIdsInjective(p, o);
      }
    }
    NothingLostExactly(cfg, ms, []);
  }

  /** The smallest losses: two streams with one publisher id, and an id that looks like a derived one. */
  lemma LostLetters(cfg: Config)
    requires cfg.enabled
    ensures !NothingLost(cfg, {Origin("a", 1, "x"), Origin("b", 1, "x")}, [])
    ensures !NothingLost(cfg, {Origin("a", 1, ""), Origin("b", 1, "dlq-a-1")}, [])
  {
    var a, b := Origin("a", 1, "x"), Origin("b", 1, "x");
    assert CopyId(a, true) == CopyId(b, true) && !OwnId({a, b}, [], a);
    NothingLostExactly(cfg, {a, b}, []);
    var c, d := Origin("a", 1, ""), Origin("b", 1, "dlq-a-1");
    assert Render(1) == "1" && "dlq-" + "a" + "-" + "1" == "dlq-a-1";
    assert CopyId(c, true) == CopyId(d, true) && !OwnId({c, d}, [], c);
    NothingLostExactly(cfg, {c, d}, []);
  }
}
