/**
 Events the worker reports to signaling until they are acknowledged: identifiers drawn from one wrapping counter by all
 shards and by the session, and a table of pending events that outlives every session.
 */
module SfuEvents {
  import SfuCommands
  import SfuMetrics
  import opened SfuShard

  const U64: nat := SfuMetrics.U64

  datatype Payload = FromShard(event: Emitted) | Health(rooms: nat, clients: nat)

  /** One event on the wire of the current session. */
  datatype Message = Message(id: nat, payload: Payload)

  /** `order` lists the identifiers pending at registration; `sent` the events put on this session's stream so far. */
  datatype Session =
    | Closed
    | Registering(registration: nat)
    | Resending(order: seq<nat>, sent: seq<Message>)
    | Serving(order: seq<nat>, sent: seq<Message>)

  /**
   `transit` holds events raised by shards and not yet received by the session. `draws`, `taken` and `acked` are
   history: identifiers drawn, events that entered the table, and identifiers whose acknowledgement removed one.
   */
  datatype Outbox = Outbox(
    counter: nat, transit: map<nat, Payload>, pending: map<nat, Payload>, session: Session,
    draws: nat, taken: map<nat, Payload>, acked: set<nat>)

  function NewOutbox(): Outbox {
    Outbox(1, map[], map[], Closed, 0, map[], {})
  }

  // ---------------------------------------------------------------- identifiers

  /** `fetch_add(1)` on a 64-bit counter. */
  function Fetched(counter: nat): nat {
    (counter + 1) % U64
  }

  datatype Drawn = Drawn(id: nat, counter: nat)

  /** `next_nonzero` with nobody else at the counter. */
  function NextNonzero(counter: nat): Drawn {
    if counter != 0 then Drawn(counter, Fetched(counter)) else Drawn(1, 2)
  }

  function CounterAfter(k: nat): nat {
    if k == 0 then 1 else NextNonzero(CounterAfter(k - 1)).counter
  }

  /** The identifier of draw `k`, counting from zero. */
  function IdAt(k: nat): nat {
    NextNonzero(CounterAfter(k)).id
  }

  lemma CycleStep(k: nat)
    requires k > 0
    ensures k % (U64 - 1) == (if (k - 1) % (U64 - 1) == U64 - 2 then 0 else (k - 1) % (U64 - 1) + 1)
  {
  }

  lemma {:induction false} CounterCycles(k: nat)
    ensures 0 <= CounterAfter(k) < U64
    ensures IdAt(k) == k % (U64 - 1) + 1
  {
    if k > 0 {
      CounterCycles(k - 1);
      CycleStep(k);
    }
  }

  /** Draws never give zero, and two of them give the same identifier exactly when they are whole cycles apart. */
  lemma IdsRepeatOnlyAfterACycle(i: nat, j: nat)
    ensures 0 < IdAt(i) < U64
    ensures IdAt(i) == IdAt(j) <==> i % (U64 - 1) == j % (U64 - 1)
  {
    CounterCycles(i);
    CounterCycles(j);
  }

  // ---------------------------------------------------------------- steps

  datatype Delivery = Delivered | Refused

  datatype Step =
    | SkipZero                                       // a fetch that got zero and will be repeated
    | Raise(event: Emitted)                          // a shard draws an identifier and queues the event
    | Connect                                        // a new session draws its registration identifier
    | Register(order: seq<nat>)                      // the registration response; `order` is how the table iterates
    | Resend
    | ReportHealth(rooms: nat, clients: nat, delivery: Delivery)
    | Take(id: nat, delivery: Delivery)              // the session receives an event from a shard
    | Acknowledge(id: nat)
    | Drop                                           // the session ends or fails

  predicate Enabled(o: Outbox, e: Step) {
    match e
    case SkipZero => o.counter == 0
    case Raise(_) => o.counter != 0
    case Connect => o.counter != 0 && o.session.Closed?
    case Register(order) => o.session.Registering? && SfuCommands.Enumerates(order, o.pending.Keys)
    case Resend =>
      o.session.Resending? && |o.session.sent| < |o.session.order| && o.session.order[|o.session.sent|] in o.pending
    case ReportHealth(_, _, _) =>
      o.counter != 0 && (o.session.Serving? || (o.session.Resending? && |o.session.sent| == |o.session.order|))
    case Take(id, _) => o.session.Serving? && id in o.transit
    case Acknowledge(_) => o.session.Serving?
    case Drop => true
  }

  /** Puts an event in the table, then on the stream; a refused send ends the session but not the event. */
  function Report(o: Outbox, m: Message, delivery: Delivery): Outbox
    requires o.session.Resending? || o.session.Serving?
  {
    o.(pending := o.pending[m.id := m.payload], taken := o.taken[m.id := m.payload],
       session := if delivery.Delivered? then Serving(o.session.order, o.session.sent + [m]) else Closed)
  }

  function Next(o: Outbox, e: Step): Outbox
    requires Enabled(o, e)
  {
    match e
    case SkipZero => o.(counter := Fetched(0))
    case Raise(event) =>
      o.(counter := Fetched(o.counter), draws := o.draws + 1, transit := o.transit[o.counter := FromShard(event)])
    case Connect => o.(counter := Fetched(o.counter), draws := o.draws + 1, session := Registering(o.counter))
    case Register(order) => o.(session := Resending(order, []))
    case Resend =>
      var id := o.session.order[|o.session.sent|];
      o.(session := Resending(o.session.order, o.session.sent + [Message(id, o.pending[id])]))
    case ReportHealth(rooms, clients, delivery) =>
      Report(o.(counter := Fetched(o.counter), draws := o.draws + 1), Message(o.counter, Health(rooms, clients)),
             delivery)
    case Take(id, delivery) =>
      Report(o.(transit := o.transit - {id}), Message(id, o.transit[id]), delivery)
    case Acknowledge(id) =>
      o.(pending := o.pending - {id}, acked := if id in o.pending then o.acked + {id} else o.acked)
    case Drop => o.(session := Closed)
  }

  // ---------------------------------------------------------------- the invariant

  ghost predicate UpTo(ids: set<nat>, bound: nat) {
    forall id | id in ids :: 0 < id <= bound
  }

  /** Every drawn identifier is unique until the counter has gone round once. */
  ghost predicate Fresh(o: Outbox) {
    && (o.draws < U64 - 1 ==> o.counter == o.draws + 1)
    && UpTo(o.transit.Keys, o.draws) && UpTo(o.taken.Keys, o.draws)
    && o.transit.Keys !! o.taken.Keys
  }

  /** Conservation: what entered the table is acknowledged or still pending, unchanged. */
  ghost predicate Conserved(pending: map<nat, Payload>, taken: map<nat, Payload>, acked: set<nat>) {
    && acked !! pending.Keys
    && acked + pending.Keys == taken.Keys
    && forall id | id in pending :: pending[id] == taken[id]
  }

  /** No event goes out twice in a session, and each goes out as it was taken. */
  ghost predicate SentOnce(sent: seq<Message>, taken: map<nat, Payload>) {
    && (forall i | 0 <= i < |sent| :: sent[i].id in taken && sent[i].payload == taken[sent[i].id])
    && forall i, j | 0 <= i < j < |sent| :: sent[i].id != sent[j].id
  }

  ghost predicate Mentions(sent: seq<Message>, id: nat) {
    exists i :: 0 <= i < |sent| && sent[i].id == id
  }

  /** While it resends nothing else moves; then all that is pending has gone out, what was pending first of all. */
  ghost predicate SessionInv(s: Session, pending: map<nat, Payload>, taken: map<nat, Payload>) {
    match s
    case Resending(order, sent) =>
      && SfuCommands.Enumerates(order, pending.Keys) && |sent| <= |order|
      && forall i | 0 <= i < |sent| :: sent[i] == Message(order[i], pending[order[i]])
    case Serving(order, sent) =>
      && SentOnce(sent, taken) && |order| <= |sent|
      && (forall i | 0 <= i < |order| :: sent[i].id == order[i])
      && forall id | id in pending :: Mentions(sent, id)
    case _ => true
  }

  ghost predicate Inv(o: Outbox) {
    Fresh(o) && Conserved(o.pending, o.taken, o.acked) && SessionInv(o.session, o.pending, o.taken)
  }

  lemma MentionsMore(sent: seq<Message>, m: Message)
    ensures forall id :: Mentions(sent + [m], id) <==> Mentions(sent, id) || id == m.id
  {
    var sent' := sent + [m];
    forall id
      ensures Mentions(sent', id) <==> Mentions(sent, id) || id == m.id
    {
      if Mentions(sent, id) {
        var i :| 0 <= i < |sent| && sent[i].id == id;
        assert sent'[i].id == id;
      }
      assert sent'[|sent|] == m;
    }
  }

  lemma MentionsAt(sent: seq<Message>, i: nat)
    requires i < |sent|
    ensures Mentions(sent, sent[i].id)
  {
  }

  /** Once all of `order` has gone out again, the session is as good as serving. */
  lemma ResentIsServing(order: seq<nat>, sent: seq<Message>, pending: map<nat, Payload>, taken: map<nat, Payload>,
                        acked: set<nat>)
    requires Conserved(pending, taken, acked) && SessionInv(Resending(order, sent), pending, taken)
    requires |sent| == |order|
    ensures SessionInv(Serving(order, sent), pending, taken)
  {
    forall i | 0 <= i < |sent|
      ensures sent[i].id in taken && sent[i].payload == taken[sent[i].id]
    {
      assert order[i] in order;
    }
    forall id | id in pending
      ensures Mentions(sent, id)
    {
      assert id in order;
      var i :| 0 <= i < |order| && order[i] == id;
      MentionsAt(sent, i);
    }
  }

  lemma ReportKeepsInv(o: Outbox, m: Message, delivery: Delivery)
    requires Fresh(o) && Conserved(o.pending, o.taken, o.acked)
    requires o.session.Serving? && SessionInv(o.session, o.pending, o.taken)
    requires 0 < m.id <= o.draws && m.id !in o.taken && m.id !in o.transit
    ensures Inv(Report(o, m, delivery))
  {
    MentionsMore(o.session.sent, m);
  }

  lemma HealthKeepsInv(o: Outbox, rooms: nat, clients: nat, delivery: Delivery)
    requires Inv(o) && Enabled(o, ReportHealth(rooms, clients, delivery)) && o.draws < U64 - 1
    ensures Inv(Next(o, ReportHealth(rooms, clients, delivery)))
  {
    var s := o.session;
    if s.Resending? { ResentIsServing(s.order, s.sent, o.pending, o.taken, o.acked); }
    ReportKeepsInv(o.(counter := Fetched(o.counter), draws := o.draws + 1, session := Serving(s.order, s.sent)),
                   Message(o.counter, Health(rooms, clients)), delivery);
  }

  lemma QueueStepKeepsInv(o: Outbox, e: Step)
    requires Inv(o) && Enabled(o, e) && Next(o, e).draws < U64
    requires e.SkipZero? || e.Raise? || e.Connect? || e.Drop?
    ensures Inv(Next(o, e))
  {
  }

  lemma SessionStepKeepsInv(o: Outbox, e: Step)
    requires Inv(o) && Enabled(o, e)
    requires e.Register? || e.Resend?
    ensures Inv(Next(o, e))
  {
  }

  lemma AcknowledgeKeepsInv(o: Outbox, id: nat)
    requires Inv(o) && Enabled(o, Acknowledge(id))
    ensures Inv(Next(o, Acknowledge(id)))
  {
    var o' := Next(o, Acknowledge(id));
    assert o'.acked + o'.pending.Keys == o.acked + o.pending.Keys;
  }

  lemma TakeKeepsInv(o: Outbox, id: nat, delivery: Delivery)
    requires Inv(o) && Enabled(o, Take(id, delivery))
    ensures Inv(Next(o, Take(id, delivery)))
  {
    ReportKeepsInv(o.(transit := o.transit - {id}), Message(id, o.transit[id]), delivery);
  }

  lemma StepKeepsInv(o: Outbox, e: Step)
    requires Inv(o) && Enabled(o, e) && Next(o, e).draws < U64
    ensures Inv(Next(o, e))
  {
    match e
    case ReportHealth(rooms, clients, delivery) => HealthKeepsInv(o, rooms, clients, delivery);
    case Take(id, delivery) => TakeKeepsInv(o, id, delivery);
    case Register(_) => SessionStepKeepsInv(o, e);
    case Resend => SessionStepKeepsInv(o, e);
    case Acknowledge(id) => AcknowledgeKeepsInv(o, id);
    case _ => QueueStepKeepsInv(o, e);
  }

  // ---------------------------------------------------------------- whole runs

  predicate ValidRun(o: Outbox, steps: seq<Step>)
    decreases |steps|
  {
    steps == [] || (Enabled(o, steps[0]) && ValidRun(Next(o, steps[0]), steps[1..]))
  }

  function After(o: Outbox, steps: seq<Step>): Outbox
    requires ValidRun(o, steps)
    decreases |steps|
  {
    if steps == [] then o else After(Next(o, steps[0]), steps[1..])
  }

  lemma {:induction false} DrawsGrow(o: Outbox, steps: seq<Step>)
    requires ValidRun(o, steps)
    ensures o.draws <= After(o, steps).draws
    decreases |steps|
  {
    if steps != [] { DrawsGrow(Next(o, steps[0]), steps[1..]); }
  }

  lemma {:induction false} RunKeepsInv(o: Outbox, steps: seq<Step>)
    requires Inv(o) && ValidRun(o, steps) && After(o, steps).draws < U64
    ensures Inv(After(o, steps))
    decreases |steps|
  {
    if steps != [] {
      DrawsGrow(Next(o, steps[0]), steps[1..]);
      StepKeepsInv(o, steps[0]);
      RunKeepsInv(Next(o, steps[0]), steps[1..]);
    }
  }

  /**
   Over any number of sessions, until the counter has gone round: what entered the table is the disjoint union of what
   was acknowledged and what is pending, unchanged.
   */
  lemma EventsAreConserved(steps: seq<Step>)
    requires ValidRun(NewOutbox(), steps) && After(NewOutbox(), steps).draws < U64
    ensures var o := After(NewOutbox(), steps); Conserved(o.pending, o.taken, o.acked)
  {
    RunKeepsInv(NewOutbox(), steps);
  }

  /** No insertion overwrites an event, pending or past. */
  lemma NoInsertOverwrites(steps: seq<Step>, e: Step)
    requires ValidRun(NewOutbox(), steps) && Enabled(After(NewOutbox(), steps), e)
    requires Next(After(NewOutbox(), steps), e).draws < U64
    ensures var o := After(NewOutbox(), steps);
            && (e.Take? ==> e.id !in o.taken)
            && (e.ReportHealth? ==> o.counter !in o.taken && o.counter !in o.transit)
            && (e.Raise? ==> o.counter !in o.taken && o.counter !in o.transit)
  {
    RunKeepsInv(NewOutbox(), steps);
  }

  /**
   A session that serves has put everything still pending on its stream, each event once and as it was taken; the
   stream begins with exactly what was pending at registration, so everything after that is new.
   */
  lemma EverySessionResendsFirst(steps: seq<Step>)
    requires ValidRun(NewOutbox(), steps) && After(NewOutbox(), steps).draws < U64
    requires After(NewOutbox(), steps).session.Serving?
    ensures var o := After(NewOutbox(), steps);
            var s := o.session;
            && SentOnce(s.sent, o.taken)
            && (forall id | id in o.pending :: Mentions(s.sent, id))
            && |s.order| <= |s.sent|
            && (forall i | 0 <= i < |s.order| :: s.sent[i].id == s.order[i])
            && forall i | |s.order| <= i < |s.sent| :: s.sent[i].id !in s.order
  {
    RunKeepsInv(NewOutbox(), steps);
  }

  /** The session with this list of identifiers is open, or none is. */
  predicate SameSession(s: Session, order: seq<nat>) {
    s.Closed? || ((s.Resending? || s.Serving?) && s.order == order)
  }

  lemma StepKeepsSession(o: Outbox, e: Step, order: seq<nat>)
    requires Inv(o) && Enabled(o, e) && !e.Connect? && Next(o, e).draws < U64 && SameSession(o.session, order)
    ensures SameSession(Next(o, e).session, order)
    ensures forall id | id in o.taken :: id in Next(o, e).taken && Next(o, e).taken[id] == o.taken[id]
  {
  }

  lemma {:induction false} RunKeepsSession(o: Outbox, steps: seq<Step>, order: seq<nat>)
    requires Inv(o) && ValidRun(o, steps) && After(o, steps).draws < U64
    requires SameSession(o.session, order) && forall e | e in steps :: !e.Connect?
    ensures SameSession(After(o, steps).session, order)
    ensures forall id | id in o.taken :: id in After(o, steps).taken && After(o, steps).taken[id] == o.taken[id]
    decreases |steps|
  {
    if steps != [] {
      DrawsGrow(Next(o, steps[0]), steps[1..]);
      StepKeepsInv(o, steps[0]);
      StepKeepsSession(o, steps[0], order);
      RunKeepsSession(Next(o, steps[0]), steps[1..], order);
    }
  }

  /**
   However a session goes on after its registration, when it serves its stream begins with exactly the events that were
   pending at the registration, as they were in the table then.
   */
  lemma StreamsBeginWithTheBacklog(o: Outbox, order: seq<nat>, steps: seq<Step>)
    requires Inv(o) && Enabled(o, Register(order)) && ValidRun(Next(o, Register(order)), steps)
    requires forall e | e in steps :: !e.Connect?
    requires After(Next(o, Register(order)), steps).draws < U64
    requires After(Next(o, Register(order)), steps).session.Serving?
    ensures var sent := After(Next(o, Register(order)), steps).session.sent;
            && SfuCommands.Enumerates(order, o.pending.Keys) && |order| <= |sent|
            && forall i | 0 <= i < |order| :: order[i] in o.pending && sent[i] == Message(order[i], o.pending[order[i]])
  {
    var o1 := Next(o, Register(order));
    SessionStepKeepsInv(o, Register(order));
    RunKeepsSession(o1, steps, order);
    RunKeepsInv(o1, steps);
    forall i | 0 <= i < |order| ensures order[i] in o.pending { assert order[i] in order; }
  }

  // ---------------------------------------------------------------- the session task

  /** The counter once a fetch that got zero has been repeated. */
  function Awake(o: Outbox): Outbox {
    if o.counter == 0 then Next(o, SkipZero) else o
  }

  /** All the `Resend` steps that follow. */
  function Resent(o: Outbox): Outbox
    decreases if o.session.Resending? then |o.session.order| - |o.session.sent| else 0
  {
    if Enabled(o, Resend) then Resent(Next(o, Resend)) else o
  }

  /** What a session that resends has sent: a copy of the beginning of the table, in the order of the list. */
  ghost predicate Copied(s: Session, pending: map<nat, Payload>) {
    && s.Resending? && SfuCommands.Enumerates(s.order, pending.Keys) && |s.sent| <= |s.order|
    && forall i | 0 <= i < |s.sent| :: s.order[i] in pending && s.sent[i] == Message(s.order[i], pending[s.order[i]])
  }

  /**
   The session task with its table and the shared counter, updated in place. Every method takes the outbox from one
   value to the next; the ghost fields are the history, and what the shards have raised and nobody received yet.
   */
  class Reporter {
    var counter: nat
    var pending: map<nat, Payload>
    var session: Session
    ghost var transit: map<nat, Payload>
    ghost var draws: nat
    ghost var taken: map<nat, Payload>
    ghost var acked: set<nat>

    ghost function View(): Outbox
      reads this
    {
      Outbox(counter, transit, pending, session, draws, taken, acked)
    }

    /** The invariant of the outbox holds until the counter has gone round. */
    ghost predicate Valid()
      reads this
    {
      counter < U64 && (draws < U64 ==> Inv(View()))
    }

    constructor ()
      ensures Valid() && View() == NewOutbox()
    {
      counter, pending, session := 1, map[], Closed;
      transit, draws, taken, acked := map[], 0, map[], {};
    }

    /** `next_nonzero`, with nobody else at the counter. */
    method DrawId() returns (id: nat)
      requires counter < U64
      modifies `counter, `draws
      ensures Drawn(id, counter) == NextNonzero(old(counter))
      ensures id == Awake(old(View())).counter != 0 && counter == Fetched(id) && counter < U64
      ensures draws == old(draws) + 1
    {
      draws := draws + 1;
      while true
        invariant counter < U64
        invariant counter == old(counter) || (old(counter) == 0 && counter == 1)
        invariant draws == old(draws) + 1
        decreases if counter == 0 then 1 else 0
      {
        var value := counter;
        counter := Fetched(counter);
        if value != 0 { return value; }
      }
      assert false;
    }

    /** A session connects and registers under a fresh identifier. */
    method OpenSession()
      requires Valid() && session.Closed?
      modifies this
      ensures Valid() && View() == Next(Awake(old(View())), Connect)
    {
      AwakeKeepsInv(View(), Connect);
      var id := DrawId();
      session := Registering(id);
    }

    /** The registration response; `order` is how the table happens to iterate. */
    method Registered(order: seq<nat>)
      requires Valid() && session.Registering? && SfuCommands.Enumerates(order, pending.Keys)
      modifies `session
      ensures Valid() && View() == Next(old(View()), Register(order))
    {
      AwakeKeepsInv(View(), Register(order));
      session := Resending(order, []);
    }

    method ResendOne()
      requires session.Resending? && |session.sent| < |session.order| && Copied(session, pending)
      modifies `session
      ensures View() == Next(old(View()), Resend) && Copied(session, pending)
    {
      assert session.order[|session.sent|] in session.order;
      var id := session.order[|session.sent|];
      session := Resending(session.order, session.sent + [Message(id, pending[id])]);
    }

    /** The loop that opens a session: all that is pending goes out, each event once and as it is in the table. */
    method ResendPending()
      requires Valid() && session.Resending? && session.sent == [] && SfuCommands.Enumerates(session.order, pending.Keys)
      modifies `session
      ensures Valid() && View() == Resent(old(View()))
      ensures session.Resending? && session.order == old(session.order) && |session.sent| == |session.order|
      ensures Copied(session, pending)
    {
      ResentKeepsInv(View());
      while |session.sent| < |session.order|
        invariant session.Resending? && session.order == old(session.order) && Copied(session, pending)
        invariant Resent(View()) == Resent(old(View()))
        decreases |session.order| - |session.sent|
      {
        ResendOne();
      }
    }

    /** Into the table first, then on the stream; a send that fails ends the session but keeps the event. */
    method Send(m: Message, delivery: Delivery)
      requires session.Resending? || session.Serving?
      modifies `pending, `taken, `session
      ensures View() == Report(old(View()), m, delivery)
    {
      pending := pending[m.id := m.payload];
      taken := taken[m.id := m.payload];
      if delivery.Delivered? {
        session := Serving(session.order, session.sent + [m]);
      } else {
        session := Closed;
      }
    }

    method QueueHealth(rooms: nat, clients: nat, delivery: Delivery)
      requires Valid() && (session.Serving? || (session.Resending? && |session.sent| == |session.order|))
      modifies this
      ensures Valid() && View() == Next(Awake(old(View())), ReportHealth(rooms, clients, delivery))
    {
      AwakeKeepsInv(View(), ReportHealth(rooms, clients, delivery));
      var id := DrawId();
      Send(Message(id, Health(rooms, clients)), delivery);
    }

    /** An event comes out of the shards' channel. */
    method TakeEvent(m: Message, delivery: Delivery)
      requires Valid() && session.Serving? && m.id in transit && transit[m.id] == m.payload
      modifies this
      ensures Valid() && View() == Next(old(View()), Take(m.id, delivery))
      ensures old(draws) < U64 ==> m.id !in old(taken) && m.id !in transit
    {
      AwakeKeepsInv(View(), Take(m.id, delivery));
      transit := transit - {m.id};
      Send(m, delivery);
    }

    method EventAck(id: nat)
      requires Valid() && session.Serving?
      modifies `pending, `acked
      ensures Valid() && View() == Next(old(View()), Acknowledge(id))
      ensures id !in old(pending) ==> View() == old(View())
    {
      AwakeKeepsInv(View(), Acknowledge(id));
      if id in pending { acked := acked + {id}; }
      assert id !in pending ==> pending - {id} == pending;
      pending := pending - {id};
    }

    /** The session ends or fails; the table stays. */
    method EndSession()
      requires Valid()
      modifies `session
      ensures Valid() && View() == Next(old(View()), Drop)
    {
      AwakeKeepsInv(View(), Drop);
      session := Closed;
    }
  }

  lemma AwakeKeepsInv(o: Outbox, e: Step)
    requires Enabled(Awake(o), e)
    ensures (o.draws < U64 ==> Inv(o)) && Next(Awake(o), e).draws < U64 ==> Inv(Next(Awake(o), e))
  {
    if (o.draws < U64 ==> Inv(o)) && Next(Awake(o), e).draws < U64 {
      if o.counter == 0 { StepKeepsInv(o, SkipZero); }
      StepKeepsInv(Awake(o), e);
    }
  }

  lemma {:induction false} ResentKeepsInv(o: Outbox)
    ensures Resent(o).draws == o.draws && Resent(o).counter == o.counter
    ensures Inv(o) ==> Inv(Resent(o))
    decreases if o.session.Resending? then |o.session.order| - |o.session.sent| else 0
  {
    if Enabled(o, Resend) {
      if Inv(o) { SessionStepKeepsInv(o, Resend); }
      ResentKeepsInv(Next(o, Resend));
    }
  }
}
