/**
 One iteration of a shard's media loop: the replay cache in front of the command engine, and the events drained
 behind it.
 */
module SfuShard {
  import opened Options
  import opened Uuid
  import opened SfuCommands
  import opened SfuProjection

  const COMMAND_CACHE_CAPACITY: nat := 4096

  // ---------------------------------------------------------------- the replay cache

  /** The cache and its order queue, with every result ever computed as history. */
  datatype Replay = Replay(cache: map<nat, CommandResult>, order: seq<nat>, applied: seq<CommandResult>)

  /** The eviction loop of `cache_command`. */
  function Evict(cache: map<nat, CommandResult>, order: seq<nat>): (r: (map<nat, CommandResult>, seq<nat>))
    decreases |order|
  {
    if |order| > COMMAND_CACHE_CAPACITY then Evict(cache - {order[0]}, order[1..]) else (cache, order)
  }

  function CacheCommand(r: Replay, result: CommandResult): Replay {
    var order := if result.requestId in r.cache then r.order else r.order + [result.requestId];
    var (cache', order') := Evict(r.cache[result.requestId := result], order);
    Replay(cache', order', r.applied + [result])
  }

  datatype Shard = Shard(worker: Worker, replay: Replay)

  function NewShard(): Shard {
    Shard(NewWorker(), Replay(map[], [], []))
  }

  datatype Executed = Executed(shard: Shard, result: CommandResult)

  /** The command arm of the media loop: replay a known request id, apply and remember a new one. */
  function Execute(b: Behaviour, s: Shard, r: Request): Executed {
    if r.requestId in s.replay.cache then Executed(s, s.replay.cache[r.requestId])
    else
      var applied := ApplyCommand(b, s.worker, r.requestId, r.command, r.order);
      var result := CommandResult(r.requestId, applied.outcome);
      Executed(Shard(applied.worker, CacheCommand(s.replay, result)), result)
  }

  function Min(a: nat, b: nat): nat {
    if a <= b then a else b
  }

  /** The queue is the ids of the last results, in order and without repetition, and the cache holds those results. */
  ghost predicate Recent(cache: map<nat, CommandResult>, order: seq<nat>, applied: seq<CommandResult>) {
    && |order| <= |applied|
    && (forall k | 0 <= k < |order| ::
          && order[k] == applied[|applied| - |order| + k].requestId
          && order[k] in cache
          && cache[order[k]] == applied[|applied| - |order| + k])
    && (forall i, j | 0 <= i < j < |order| :: order[i] != order[j])
    && (forall id | id in cache :: id in order)
  }

  /** The cache holds the results of the last 4096 applied commands, each under its own id. */
  ghost predicate ReplayInv(r: Replay) {
    |r.order| == Min(COMMAND_CACHE_CAPACITY, |r.applied|) && Recent(r.cache, r.order, r.applied)
  }

  lemma RecentGrows(cache: map<nat, CommandResult>, order: seq<nat>, applied: seq<CommandResult>, result: CommandResult)
    requires Recent(cache, order, applied) && result.requestId !in cache
    ensures Recent(cache[result.requestId := result], order + [result.requestId], applied + [result])
  {
    assert forall k | 0 <= k < |order| :: order[k] != result.requestId;
  }

  lemma RecentShrinks(cache: map<nat, CommandResult>, order: seq<nat>, applied: seq<CommandResult>)
    requires Recent(cache, order, applied) && order != []
    ensures Recent(cache - {order[0]}, order[1..], applied)
  {
    forall id | id in cache - {order[0]} ensures id in order[1..] {
      assert order == [order[0]] + order[1..];
    }
  }

  lemma CacheKeepsReplayInv(r: Replay, result: CommandResult)
    requires ReplayInv(r) && result.requestId !in r.cache
    ensures ReplayInv(CacheCommand(r, result))
  {
    RecentGrows(r.cache, r.order, r.applied, result);
    var cache1, order1 := r.cache[result.requestId := result], r.order + [result.requestId];
    if |order1| > COMMAND_CACHE_CAPACITY {
      RecentShrinks(cache1, order1, r.applied + [result]);
      assert Evict(cache1, order1) == Evict(cache1 - {order1[0]}, order1[1..]);
    }
  }

  /** Whatever is cached was applied among the last 4096. */
  lemma CachedIsRecent(r: Replay, id: nat)
    requires ReplayInv(r) && id in r.cache
    ensures exists j :: 0 <= j < |r.applied| && |r.applied| - COMMAND_CACHE_CAPACITY <= j &&
                        r.applied[j].requestId == id && r.cache[id] == r.applied[j]
  {
    var k :| 0 <= k < |r.order| && r.order[k] == id;
    assert r.applied[|r.applied| - |r.order| + k].requestId == id;
  }

  lemma ExecuteKeepsReplayInv(b: Behaviour, s: Shard, r: Request)
    requires ReplayInv(s.replay)
    ensures ReplayInv(Execute(b, s, r).shard.replay)
    ensures Execute(b, s, r).result.requestId == r.requestId
  {
    if r.requestId in s.replay.cache {
      CachedIsRecent(s.replay, r.requestId);
    } else {
      CacheKeepsReplayInv(s.replay, CommandResult(r.requestId,
        ApplyCommand(b, s.worker, r.requestId, r.command, r.order).outcome));
    }
  }

  /**
   A replay is invisible: a command whose request id is that of one of the last 4096 commands the shard applied changes
   nothing, whatever else it says, and returns that command's result.
   */
  lemma ReplayIsInvisible(b: Behaviour, s: Shard, r: Request, j: nat)
    requires ReplayInv(s.replay)
    requires |s.replay.applied| - COMMAND_CACHE_CAPACITY <= j < |s.replay.applied|
    requires s.replay.applied[j].requestId == r.requestId
    ensures Execute(b, s, r) == Executed(s, s.replay.applied[j])
  {
    var k := j - (|s.replay.applied| - |s.replay.order|);
    assert s.replay.order[k] == r.requestId;
  }

  /** Conversely, a command is applied exactly when its id is not among those of the last 4096. */
  lemma NewIdsAreApplied(b: Behaviour, s: Shard, r: Request)
    requires ReplayInv(s.replay)
    requires forall j | 0 <= j < |s.replay.applied| && |s.replay.applied| - COMMAND_CACHE_CAPACITY <= j ::
               s.replay.applied[j].requestId != r.requestId
    ensures var e := Execute(b, s, r);
            && e.shard.worker == ApplyCommand(b, s.worker, r.requestId, r.command, r.order).worker
            && e.result == CommandResult(r.requestId, ApplyCommand(b, s.worker, r.requestId, r.command, r.order).outcome)
            && e.shard.replay.applied == s.replay.applied + [e.result]
  {
    if r.requestId in s.replay.cache { CachedIsRecent(s.replay, r.requestId); }
  }

  // ---------------------------------------------------------------- draining events

  /** A signal or failure the shard sends, stamped with the lifecycle and epoch of the member it is about. */
  datatype Emitted = Emitted(member: Member, stamp: Stamp, event: EngineEvent)

  /** Whether the session still takes events, or how many more it takes before it is gone. */
  datatype Receiver = Open | ClosesAfter(sends: nat)

  datatype Drained = Drained(sent: seq<Emitted>, queue: seq<EngineEvent>, receiver: Receiver)

  /** The member an event is reported for, if it is reported at all. */
  function Reported(p: map<Member, Stamp>, e: EngineEvent): Option<Member> {
    if e.RaisedOther? || e.who.None? || e.who.value !in p then None else e.who
  }

  /** The event loop of `drain_engine`; it gives up when the session is gone. */
  function DrainEvents(queue: seq<EngineEvent>, p: map<Member, Stamp>, receiver: Receiver): Drained
    decreases |queue|
  {
    if queue == [] then Drained([], [], receiver)
    else if Reported(p, queue[0]).None? then DrainEvents(queue[1..], p, receiver)
    else if receiver == ClosesAfter(0) then Drained([], queue[1..], receiver)
    else
      var m := Reported(p, queue[0]).value;
      var rest := DrainEvents(queue[1..], p, if receiver.Open? then Open else ClosesAfter(receiver.sends - 1));
      rest.(sent := [Emitted(m, p[m], queue[0])] + rest.sent)
  }

  /** Everything sent was in the queue, names a projected member, and carries its current stamp. */
  ghost predicate Stamped(sent: seq<Emitted>, queue: seq<EngineEvent>, p: map<Member, Stamp>) {
    forall k | 0 <= k < |sent| ::
      && sent[k].event in queue && Reported(p, sent[k].event) == Some(sent[k].member)
      && sent[k].member in p && sent[k].stamp == p[sent[k].member]
  }

  lemma {:induction false} DrainStamps(queue: seq<EngineEvent>, p: map<Member, Stamp>, receiver: Receiver)
    ensures Stamped(DrainEvents(queue, p, receiver).sent, queue, p)
    ensures DrainEvents(queue, p, receiver).receiver != ClosesAfter(0) ==> DrainEvents(queue, p, receiver).queue == []
    ensures receiver == ClosesAfter(0) ==> DrainEvents(queue, p, receiver).sent == [] &&
                                           DrainEvents(queue, p, receiver).receiver == ClosesAfter(0)
    ensures receiver.Open? <==> DrainEvents(queue, p, receiver).receiver.Open?
    decreases |queue|
  {
    if queue != [] {
      var receiver' := if receiver.ClosesAfter? && receiver.sends > 0 && Reported(p, queue[0]).Some?
                       then ClosesAfter(receiver.sends - 1) else receiver;
      DrainStamps(queue[1..], p, receiver');
      assert queue == [queue[0]] + queue[1..];
      var d := DrainEvents(queue, p, receiver);
      forall k | 0 <= k < |d.sent|
        ensures d.sent[k].event in queue && Reported(p, d.sent[k].event) == Some(d.sent[k].member) &&
                d.sent[k].member in p && d.sent[k].stamp == p[d.sent[k].member]
      {
        var rest := DrainEvents(queue[1..], p, receiver').sent;
        if d.sent != rest && k > 0 { assert d.sent[k] == rest[k - 1]; }
      }
    }
  }

  /** With the session there, every event that names a projected member is sent. */
  lemma {:induction false} DrainSendsAll(queue: seq<EngineEvent>, p: map<Member, Stamp>, i: nat)
    requires i < |queue| && Reported(p, queue[i]).Some?
    ensures var m := Reported(p, queue[i]).value;
            Emitted(m, p[m], queue[i]) in DrainEvents(queue, p, Open).sent
    decreases |queue|
  {
    var m := Reported(p, queue[i]).value;
    if i > 0 {
      DrainSendsAll(queue[1..], p, i - 1);
      assert queue[1..][i - 1] == queue[i];
    } else {
      assert DrainEvents(queue, p, Open).sent[0] == Emitted(m, p[m], queue[i]);
    }
  }

  /** What there is to report: SDP, ICE and errors of projected members, in order, each once and with its stamp. */
  function ToReport(queue: seq<EngineEvent>, p: map<Member, Stamp>): seq<Emitted> {
    if queue == [] then []
    else
      var init, e := ToReport(queue[..|queue| - 1], p), queue[|queue| - 1];
      if (e.RaisedSdp? || e.RaisedIce? || e.RaisedError?) && e.who.Some? && e.who.value in p
      then init + [Emitted(e.who.value, p[e.who.value], e)]
      else init
  }

  lemma {:induction false} ToReportFront(queue: seq<EngineEvent>, p: map<Member, Stamp>)
    requires queue != []
    ensures ToReport(queue, p) == ToReport([queue[0]], p) + ToReport(queue[1..], p)
    decreases |queue|
  {
    if |queue| == 1 {
      assert queue == [queue[0]];
    } else {
      var init := queue[..|queue| - 1];
      ToReportFront(init, p);
      assert queue[1..][..|queue| - 2] == init[1..];
    }
  }

  lemma ToReportOne(e: EngineEvent, p: map<Member, Stamp>)
    ensures ToReport([e], p) == if Reported(p, e).None? then []
                                else [Emitted(Reported(p, e).value, p[Reported(p, e).value], e)]
  {
    assert [e][..0] == [];
  }

  /**
   With the session there, exactly what there is to report is sent, in the order it was raised; a session that closes
   after so many events gets that many of them, from the first on.
   */
  lemma {:induction false} DrainIsInOrder(queue: seq<EngineEvent>, p: map<Member, Stamp>, receiver: Receiver)
    ensures var all, sent := ToReport(queue, p), DrainEvents(queue, p, receiver).sent;
            sent == if receiver.Open? then all else all[..Min(receiver.sends, |all|)]
    decreases |queue|
  {
    if queue != [] {
      ToReportFront(queue, p);
      ToReportOne(queue[0], p);
      var receiver' := if receiver.ClosesAfter? && receiver.sends > 0 && Reported(p, queue[0]).Some?
                       then ClosesAfter(receiver.sends - 1) else receiver;
      DrainIsInOrder(queue[1..], p, receiver');
    }
  }

  // ---------------------------------------------------------------- the loop

  /** What wakes the media loop. */
  datatype Input = CommandInput(request: Request) | PacketInput | TimeoutInput

  datatype Loop = Loop(shard: Shard, receiver: Receiver, sent: seq<Emitted>)

  /** The shard when `drain_engine` starts to take events: after the input, and after the engine was pumped. */
  function BeforeDrain(b: Behaviour, s: Shard, input: Input): Shard {
    var s1 :=
      match input
      case CommandInput(r) => Execute(b, s, r).shard
      case PacketInput => s.(worker := Call(b, s.worker, EnginePacket))
      case TimeoutInput => s.(worker := Call(b, s.worker, EngineTimeout));
    s1.(worker := Call(b, s1.worker, EnginePump))
  }

  /** One iteration: the input, then the events it raised. */
  function Iterate(b: Behaviour, l: Loop, input: Input): Loop {
    var s := BeforeDrain(b, l.shard, input);
    var d := DrainEvents(s.worker.engine.queue, s.worker.projection, l.receiver);
    Loop(s.(worker := s.worker.(engine := s.worker.engine.(queue := d.queue))), d.receiver, l.sent + d.sent)
  }

  /** Between iterations the event queue is empty as long as the session takes events. */
  ghost predicate LoopInv(l: Loop) {
    && Agree(l.shard.worker) && ReplayInv(l.shard.replay)
    && (l.receiver != ClosesAfter(0) ==> l.shard.worker.engine.queue == [])
  }

  lemma BeforeDrainKeeps(b: Behaviour, s: Shard, input: Input)
    requires Agree(s.worker) && ReplayInv(s.replay)
    ensures Agree(BeforeDrain(b, s, input).worker) && ReplayInv(BeforeDrain(b, s, input).replay)
  {
    if input.CommandInput? {
      var r := input.request;
      CommandKeepsAgreement(b, s.worker, r.requestId, r.command, r.order);
      ExecuteKeepsReplayInv(b, s, r);
    }
  }

  /**
   One iteration keeps the loop's invariant. As long as the session takes events the queue was empty when the iteration
   began, so everything sent was raised in this iteration, and it is stamped with the projection the iteration leaves;
   once the session is gone nothing is sent any more.
   */
  lemma IterationIsFenced(b: Behaviour, l: Loop, input: Input)
    requires LoopInv(l)
    ensures var l' := Iterate(b, l, input);
            && LoopInv(l')
            && (l.receiver == ClosesAfter(0) ==> l'.sent == l.sent && l'.receiver == ClosesAfter(0))
            && l.sent <= l'.sent
            && Stamped(l'.sent[|l.sent|..], BeforeDrain(b, l.shard, input).worker.engine.queue, l'.shard.worker.projection)
  {
    BeforeDrainKeeps(b, l.shard, input);
    var s := BeforeDrain(b, l.shard, input);
    DrainStamps(s.worker.engine.queue, s.worker.projection, l.receiver);
    var l' := Iterate(b, l, input);
    assert l'.sent[|l.sent|..] == DrainEvents(s.worker.engine.queue, s.worker.projection, l.receiver).sent;
  }

  /** Every iteration hands the engine what woke it, if that is for the engine, and then pumps it. */
  lemma IterationsReachTheEngine(b: Behaviour, l: Loop, input: Input)
    ensures var calls, calls' := l.shard.worker.engine.calls, Iterate(b, l, input).shard.worker.engine.calls;
            && (input.PacketInput? ==> calls' == calls + [EnginePacket, EnginePump])
            && (input.TimeoutInput? ==> calls' == calls + [EngineTimeout, EnginePump])
            && (input.CommandInput? ==>
                  calls' == Execute(b, l.shard, input.request).shard.worker.engine.calls + [EnginePump])
  {
  }

  /** What a session still takes of the events there are. */
  function Takes(receiver: Receiver, all: seq<Emitted>): seq<Emitted> {
    if receiver.Open? then all else all[..Min(receiver.sends, |all|)]
  }

  /**
   In every run of the media loop, an iteration sends, behind what was sent before, exactly what there is to report of
   the engine's queue under the projection it leaves, in order.
   */
  lemma EveryIterationReports(b: Behaviour, receiver: Receiver, inputs: seq<Input>, input: Input)
    ensures var l := Looped(b, Loop(NewShard(), receiver, []), inputs);
            var l' := Iterate(b, l, input);
            l'.sent == l.sent +
              Takes(l.receiver, ToReport(BeforeDrain(b, l.shard, input).worker.engine.queue, l'.shard.worker.projection))
  {
    var l := Looped(b, Loop(NewShard(), receiver, []), inputs);
    var s := BeforeDrain(b, l.shard, input);
    DrainIsInOrder(s.worker.engine.queue, s.worker.projection, l.receiver);
  }

  function Looped(b: Behaviour, l: Loop, inputs: seq<Input>): Loop
    decreases |inputs|
  {
    if inputs == [] then l else Looped(b, Iterate(b, l, inputs[0]), inputs[1..])
  }

  lemma {:induction false} RunKeepsLoopInv(b: Behaviour, l: Loop, inputs: seq<Input>)
    requires LoopInv(l)
    ensures LoopInv(Looped(b, l, inputs))
    decreases |inputs|
  {
    if inputs != [] {
      IterationIsFenced(b, l, inputs[0]);
      RunKeepsLoopInv(b, Iterate(b, l, inputs[0]), inputs[1..]);
    }
  }

  /**
   Over every run of the media loop, from a new shard on and whether or not the session outlives it: engine and
   projection agree, the cache holds the last 4096 results, and no event is left for a later iteration to stamp.
   */
  lemma EveryLoopIsFenced(b: Behaviour, receiver: Receiver, inputs: seq<Input>, input: Input)
    ensures var l := Looped(b, Loop(NewShard(), receiver, []), inputs);
            var l' := Iterate(b, l, input);
            && LoopInv(l)
            && l.sent <= l'.sent
            && Stamped(l'.sent[|l.sent|..], BeforeDrain(b, l.shard, input).worker.engine.queue, l'.shard.worker.projection)
  {
    assert LoopInv(Loop(NewShard(), receiver, []));
    RunKeepsLoopInv(b, Loop(NewShard(), receiver, []), inputs);
    IterationIsFenced(b, Looped(b, Loop(NewShard(), receiver, []), inputs), input);
  }
}
