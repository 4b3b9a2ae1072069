/**
 The outbox of the worker told from the steps alone: which events were raised and under which identifiers, which were
 taken, acknowledged and sent. None of these functions looks at an outbox.
 */
module SfuEventHistory {
  import opened SfuEvents

  // ---------------------------------------------------------------- the story of the steps

  /** How many identifiers have been drawn. */
  function DrawsIn(steps: seq<Step>): nat {
    if steps == [] then 0
    else
      var e := steps[|steps| - 1];
      DrawsIn(steps[..|steps| - 1]) + (if e.Raise? || e.Connect? || e.ReportHealth? then 1 else 0)
  }

  /** What came into being under each identifier: the events of shards and the health reports. */
  function Raised(steps: seq<Step>): map<nat, Payload> {
    if steps == [] then map[]
    else
      var before, e := steps[..|steps| - 1], steps[|steps| - 1];
      match e
      case Raise(event) => Raised(before)[DrawsIn(before) + 1 := FromShard(event)]
      case ReportHealth(rooms, clients, _) => Raised(before)[DrawsIn(before) + 1 := Health(rooms, clients)]
      case _ => Raised(before)
  }

  /** The identifiers the session received; a health report is received as it is raised. */
  function Taken(steps: seq<Step>): set<nat> {
    if steps == [] then {}
    else
      var before, e := steps[..|steps| - 1], steps[|steps| - 1];
      match e
      case Take(id, _) => Taken(before) + {id}
      case ReportHealth(_, _, _) => Taken(before) + {DrawsIn(before) + 1}
      case _ => Taken(before)
  }

  /** The identifiers acknowledged after they were received. */
  function Acked(steps: seq<Step>): set<nat> {
    if steps == [] then {}
    else
      var before, e := steps[..|steps| - 1], steps[|steps| - 1];
      Acked(before) + (if e.Acknowledge? && e.id in Taken(before) then {e.id} else {})
  }

  // ---------------------------------------------------------------- the outbox tells that story

  /** What has been received and not acknowledged is pending; what has been raised and not received is in transit. */
  ghost predicate Tells(o: Outbox, draws: nat, raised: map<nat, Payload>, taken: set<nat>, acked: set<nat>) {
    && o.draws == draws
    && o.taken.Keys == taken && o.acked == acked
    && o.transit.Keys == raised.Keys - taken
    && o.pending.Keys == taken - acked
    && taken <= raised.Keys
    && (forall id | id in o.taken :: o.taken[id] == raised[id])
    && (forall id | id in o.transit :: o.transit[id] == raised[id])
    && (forall id | id in o.pending :: o.pending[id] == raised[id])
  }

  /** The outbox is what these steps make of it. */
  ghost predicate ToldBy(o: Outbox, steps: seq<Step>) {
    Tells(o, DrawsIn(steps), Raised(steps), Taken(steps), Acked(steps))
  }

  lemma {:induction false} RunShrinks(o: Outbox, steps: seq<Step>)
    requires ValidRun(o, steps) && steps != []
    ensures var before, e := steps[..|steps| - 1], steps[|steps| - 1];
            && ValidRun(o, before) && Enabled(After(o, before), e) && After(o, steps) == Next(After(o, before), e)
    decreases |steps|
  {
    var n := |steps| - 1;
    if n > 0 {
      RunShrinks(Next(o, steps[0]), steps[1..]);
      assert steps[1..][..n - 1] == steps[..n][1..];
    }
  }

  lemma DrawsOnlyGrow(o: Outbox, e: Step)
    requires Enabled(o, e)
    ensures o.draws <= Next(o, e).draws
  {
  }

  /** The last step of a run, from an outbox that keeps the invariant. */
  lemma LastStep(steps: seq<Step>)
    requires ValidRun(NewOutbox(), steps) && After(NewOutbox(), steps).draws < U64 && steps != []
    ensures var before, e := steps[..|steps| - 1], steps[|steps| - 1];
            && steps == before + [e]
            && ValidRun(NewOutbox(), before)
            && var o := After(NewOutbox(), before);
               && o.draws < U64 && Inv(o) && Enabled(o, e)
               && After(NewOutbox(), steps) == Next(o, e) && Next(o, e).draws < U64
  {
    RunShrinks(NewOutbox(), steps);
    DrawsOnlyGrow(After(NewOutbox(), steps[..|steps| - 1]), steps[|steps| - 1]);
    RunKeepsInv(NewOutbox(), steps[..|steps| - 1]);
  }

  lemma CounterIsNext(o: Outbox)
    requires Inv(o) && o.draws < U64 - 1
    ensures o.counter == o.draws + 1 && o.counter !in o.taken && o.counter !in o.transit && o.counter !in o.pending
  {
  }

  lemma RaiseTells(o: Outbox, e: Step, d: nat, raised: map<nat, Payload>, taken: set<nat>, acked: set<nat>)
    requires Inv(o) && Tells(o, d, raised, taken, acked) && Enabled(o, e) && e.Raise? && d < U64 - 1
    ensures Tells(Next(o, e), d + 1, raised[d + 1 := FromShard(e.event)], taken, acked)
  {
    CounterIsNext(o);
  }

  lemma HealthTells(o: Outbox, e: Step, d: nat, raised: map<nat, Payload>, taken: set<nat>, acked: set<nat>)
    requires Inv(o) && Tells(o, d, raised, taken, acked) && Enabled(o, e) && e.ReportHealth? && d < U64 - 1
    ensures Tells(Next(o, e), d + 1, raised[d + 1 := Health(e.rooms, e.clients)], taken + {d + 1}, acked)
  {
    CounterIsNext(o);
  }

  lemma TakeTells(o: Outbox, e: Step, d: nat, raised: map<nat, Payload>, taken: set<nat>, acked: set<nat>)
    requires Inv(o) && Tells(o, d, raised, taken, acked) && Enabled(o, e) && e.Take?
    ensures Tells(Next(o, e), d, raised, taken + {e.id}, acked)
  {
  }

  lemma AcknowledgeTells(o: Outbox, e: Step, d: nat, raised: map<nat, Payload>, taken: set<nat>, acked: set<nat>)
    requires Inv(o) && Tells(o, d, raised, taken, acked) && Enabled(o, e) && e.Acknowledge?
    ensures Tells(Next(o, e), d, raised, taken, acked + (if e.id in taken then {e.id} else {}))
  {
  }

  lemma OtherStepTells(o: Outbox, e: Step, d: nat, raised: map<nat, Payload>, taken: set<nat>, acked: set<nat>)
    requires Tells(o, d, raised, taken, acked) && Enabled(o, e)
    requires !e.Raise? && !e.ReportHealth? && !e.Take? && !e.Acknowledge?
    ensures Tells(Next(o, e), d + (if e.Connect? then 1 else 0), raised, taken, acked)
  {
  }

  /**
   Over any number of sessions, until the counter has gone round: an event is in transit exactly if it was raised and
   not received, and pending exactly if it was received and not acknowledged since; either way it is the very event that
   was raised under its identifier. An acknowledgement removes its own event and no other.
   */
  lemma {:induction false} OutboxTellsTheSteps(steps: seq<Step>)
    requires ValidRun(NewOutbox(), steps) && After(NewOutbox(), steps).draws < U64
    ensures ToldBy(After(NewOutbox(), steps), steps)
    decreases |steps|
  {
    if steps != [] {
      LastStep(steps);
      var before, e := steps[..|steps| - 1], steps[|steps| - 1];
      OutboxTellsTheSteps(before);
      StepTells(After(NewOutbox(), before), e, before);
    }
  }

  lemma StepTells(o: Outbox, e: Step, before: seq<Step>)
    requires Inv(o) && Enabled(o, e) && Next(o, e).draws < U64
    requires ToldBy(o, before)
    ensures ToldBy(Next(o, e), before + [e])
  {
    var d, raised, taken, acked := DrawsIn(before), Raised(before), Taken(before), Acked(before);
    var steps := before + [e];
    assert steps[..|steps| - 1] == before;
    match e
    case Raise(_) => RaiseTells(o, e, d, raised, taken, acked);
    case ReportHealth(_, _, _) => HealthTells(o, e, d, raised, taken, acked);
    case Take(_, _) => TakeTells(o, e, d, raised, taken, acked);
    case Acknowledge(_) => AcknowledgeTells(o, e, d, raised, taken, acked);
    case _ => OtherStepTells(o, e, d, raised, taken, acked);
  }

  // ---------------------------------------------------------------- the stream of a session

  /** A registration opens a stream; a failed send, the end of the session and a new connection leave none. */
  predicate Streaming(steps: seq<Step>) {
    steps != [] &&
    var before, e := steps[..|steps| - 1], steps[|steps| - 1];
    match e
    case Register(_) => true
    case Connect => false
    case Drop => false
    case Take(_, delivery) => delivery.Delivered?
    case ReportHealth(_, _, delivery) => delivery.Delivered?
    case _ => Streaming(before)
  }

  /** The list of the last registration. */
  function Backlog(steps: seq<Step>): seq<nat> {
    if steps == [] then []
    else
      var e := steps[|steps| - 1];
      if e.Register? then e.order else Backlog(steps[..|steps| - 1])
  }

  /** The identifiers put on the stream since the last registration, in order. */
  function Streamed(steps: seq<Step>): seq<nat> {
    if steps == [] then []
    else
      var before, e := steps[..|steps| - 1], steps[|steps| - 1];
      match e
      case Register(_) => []
      case Resend =>
        Streamed(before) +
        (if |Streamed(before)| < |Backlog(before)| then [Backlog(before)[|Streamed(before)|]] else [])
      case Take(id, _) => Streamed(before) + [id]
      case ReportHealth(_, _, _) => Streamed(before) + [DrawsIn(before) + 1]
      case _ => Streamed(before)
  }

  predicate HasStream(s: Session) {
    s.Resending? || s.Serving?
  }

  /** The stream carries these identifiers, each with the event raised under it. */
  predicate Carries(s: Session, order: seq<nat>, ids: seq<nat>, raised: map<nat, Payload>) {
    HasStream(s) ==>
      && s.order == order && |s.sent| == |ids|
      && forall i | 0 <= i < |ids| :: s.sent[i].id == ids[i] && ids[i] in raised && s.sent[i].payload == raised[ids[i]]
  }

  /**
   A session has a stream exactly between its registration and its end, and on it, in this order and nothing else: the
   backlog as it was resent, then what the session received, each event as it was raised.
   */
  lemma {:induction false} StreamsTellTheSteps(steps: seq<Step>)
    requires ValidRun(NewOutbox(), steps) && After(NewOutbox(), steps).draws < U64
    ensures var s := After(NewOutbox(), steps).session;
            (HasStream(s) <==> Streaming(steps)) && Carries(s, Backlog(steps), Streamed(steps), Raised(steps))
    decreases |steps|
  {
    if steps != [] {
      LastStep(steps);
      var before, e := steps[..|steps| - 1], steps[|steps| - 1];
      StreamsTellTheSteps(before);
      OutboxTellsTheSteps(before);
      StepStreams(After(NewOutbox(), before), e, before);
    }
  }

  lemma HealthStreams(o: Outbox, e: Step, before: seq<Step>)
    requires Inv(o) && Enabled(o, e) && e.ReportHealth? && o.draws < U64 - 1
    requires ToldBy(o, before) && Carries(o.session, Backlog(before), Streamed(before), Raised(before))
    ensures Carries(Next(o, e).session, Backlog(before), Streamed(before) + [DrawsIn(before) + 1],
                    Raised(before)[DrawsIn(before) + 1 := Health(e.rooms, e.clients)])
  {
    CounterIsNext(o);
  }

  lemma StepStreams(o: Outbox, e: Step, before: seq<Step>)
    requires Inv(o) && Enabled(o, e) && Next(o, e).draws < U64
    requires ToldBy(o, before)
    requires HasStream(o.session) <==> Streaming(before)
    requires Carries(o.session, Backlog(before), Streamed(before), Raised(before))
    ensures var steps := before + [e];
            && (HasStream(Next(o, e).session) <==> Streaming(steps))
            && Carries(Next(o, e).session, Backlog(steps), Streamed(steps), Raised(steps))
  {
    var steps := before + [e];
    assert steps[..|steps| - 1] == before;
    if e.ReportHealth? {
      HealthStreams(o, e, before);
    } else if e.Raise? {
      CounterIsNext(o);
    }
  }
}
