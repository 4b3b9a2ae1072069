/**
 A shard of the media loop with its fields updated in place: the engine, the projection, the replay cache and its
 order queue. Each method is proved against the function of the same name on values.
 */
module MediaLoop {
  import opened Options
  import opened Uuid
  import opened SfuCommands
  import opened SfuProjection
  import opened SfuShard

  class MediaShard {
    const behaviour: Behaviour
    var engine: Engine
    var projection: map<Member, Stamp>
    var commandCache: map<nat, CommandResult>
    var commandOrder: seq<nat>
    ghost var applied: seq<CommandResult>

    ghost function WorkerView(): Worker
      reads this
    {
      Worker(engine, projection)
    }

    ghost function ReplayView(): Replay
      reads this
    {
      Replay(commandCache, commandOrder, applied)
    }

    ghost function View(): Shard
      reads this
    {
      Shard(WorkerView(), ReplayView())
    }

    /** Engine and projection agree, and the replay cache is in order. */
    ghost predicate Valid()
      reads this
    {
      Agree(WorkerView()) && ReplayInv(ReplayView())
    }

    constructor (behaviour: Behaviour)
      ensures this.behaviour == behaviour && View() == NewShard() && Valid()
    {
      this.behaviour := behaviour;
      engine := Engine({}, [], []);
      projection := map[];
      commandCache := map[];
      commandOrder := [];
      applied := [];
    }

    method HandleEvent(call: EngineCall) returns (status: Status)
      modifies `engine
      ensures engine == Handle(behaviour, old(engine), call)
      ensures status == StatusOf(behaviour, old(engine), call)
    {
      status := StatusOf(behaviour, engine, call);
      engine := Handle(behaviour, engine, call);
    }

    /** The stale clients in the order the hash map yields them. */
    method ListStale(room: Room, wanted: set<nat>) returns (order: seq<nat>)
      ensures Enumerates(order, StaleClients(projection, room, wanted))
    {
      var stale := StaleClients(projection, room, wanted);
      var left := stale;
      order := [];
      while left != {}
        invariant left <= stale
        invariant Enumerates(order, stale - left)
        decreases left
      {
        var c :| c in left;
        left := left - {c};
        order := order + [c];
        assert forall x | x in stale - left :: x == c || x in order[..|order| - 1];
      }
      assert stale - left == stale;
    }

    method SyncRoom(requestId: nat, room: Room, members: seq<MemberRef>, epoch: nat)
      returns (outcome: Result<Payload, ErrorCode>, ghost order: seq<nat>)
      modifies `engine, `projection
      ensures Enumerates(order, StaleClients(old(projection), room, Wanted(members).Keys))
      ensures Applied(WorkerView(), outcome) ==
              ApplySync(behaviour, old(WorkerView()), requestId, room, members, epoch, order)
    {
      var wanted := Wanted(members);
      var stale := ListStale(room, wanted.Keys);
      order := stale;
      ghost var start := WorkerView();
      var i := 0;
      while i < |stale|
        invariant 0 <= i <= |stale|
        invariant SyncLeaves(behaviour, WorkerView(), requestId, room, stale[i..]) ==
                  SyncLeaves(behaviour, start, requestId, room, stale)
      {
        assert stale[i..][1..] == stale[i + 1..];
        var status := HandleEvent(EngineLeave(requestId, Member(room, stale[i])));
        if status == Rejected {
          return Err(Internal), order;
        }
        projection := projection - {Member(room, stale[i])};
        i := i + 1;
      }
      ghost var left := WorkerView();
      i := 0;
      while i < |members|
        invariant 0 <= i <= |members|
        invariant SyncJoins(behaviour, WorkerView(), requestId, room, members[i..], epoch) ==
                  SyncJoins(behaviour, left, requestId, room, members, epoch)
      {
        assert members[i..][1..] == members[i + 1..];
        var key := Member(room, members[i].client);
        if key !in projection {
          var status := HandleEvent(EngineJoin(requestId, key));
          if status == Rejected {
            return Err(Internal), order;
          }
        }
        projection := projection[key := Stamp(members[i].lifecycle, epoch)];
        i := i + 1;
      }
      outcome := Ok(RoomSynced(room, epoch));
    }

    method Join(requestId: nat, key: Member, stamp: Stamp) returns (outcome: Result<Payload, ErrorCode>)
      modifies `engine, `projection
      ensures Applied(WorkerView(), outcome) == ApplyJoin(behaviour, old(WorkerView()), requestId, key, stamp)
    {
      if key in projection {
        return if projection[key] == stamp then Ok(MemberJoined(key, stamp)) else Err(StaleLifecycle);
      }
      var status := HandleEvent(EngineJoin(requestId, key));
      if status == Rejected {
        return Err(Internal);
      }
      projection := projection[key := stamp];
      return Ok(MemberJoined(key, stamp));
    }

    method Leave(requestId: nat, key: Member, stamp: Stamp) returns (outcome: Result<Payload, ErrorCode>)
      modifies `engine, `projection
      ensures Applied(WorkerView(), outcome) == ApplyLeave(behaviour, old(WorkerView()), requestId, key, stamp)
    {
      if key !in projection {
        return Ok(MemberLeft(key, stamp));
      }
      if projection[key].epoch != stamp.epoch {
        return Err(StaleAssignmentEpoch);
      }
      if projection[key].lifecycle != stamp.lifecycle {
        return Err(StaleLifecycle);
      }
      var status := HandleEvent(EngineLeave(requestId, key));
      if status == Rejected {
        return Err(Internal);
      }
      projection := projection - {key};
      return Ok(MemberLeft(key, stamp));
    }

    method Signal(requestId: nat, key: Member, stamp: Stamp, body: SignalBody, sdpRequestId: Option<nat>)
      returns (outcome: Result<Payload, ErrorCode>)
      modifies `engine
      ensures Applied(WorkerView(), outcome) ==
              ApplySignal(behaviour, old(WorkerView()), requestId, key, stamp, body, sdpRequestId)
    {
      if key !in projection || projection[key] != stamp {
        return Err(StaleLifecycle);
      }
      var call := SignalCall(requestId, key, body, sdpRequestId);
      if call.Err? {
        return Err(call.error);
      }
      if call.value.None? {
        return Ok(Acknowledged);
      }
      var status := HandleEvent(call.value.value);
      return if status == Done then Ok(Acknowledged) else Err(InvalidSignal);
    }

    method Apply(requestId: nat, command: Command)
      returns (outcome: Result<Payload, ErrorCode>, ghost order: seq<nat>)
      modifies `engine, `projection
      ensures OrderFits(old(WorkerView()), command, order) || outcome == Err(InvalidRequest)
      ensures Applied(WorkerView(), outcome) == ApplyCommand(behaviour, old(WorkerView()), requestId, command, order)
    {
      order := [];
      if requestId == 0 {
        return Err(InvalidRequest), order;
      }
      match command {
        case Drain => outcome := Ok(Acknowledged);
        case Missing => outcome := Err(InvalidRequest);
        case Join(room, client, stamp) =>
          if !IsRoomUuid(room) { return Err(InvalidRequest), order; }
          outcome := this.Join(requestId, Member(room, client), stamp);
        case Leave(room, client, stamp) =>
          if !IsRoomUuid(room) { return Err(InvalidRequest), order; }
          outcome := this.Leave(requestId, Member(room, client), stamp);
        case Signal(room, client, stamp, body, sdpRequestId) =>
          if !IsRoomUuid(room) { return Err(InvalidRequest), order; }
          outcome := this.Signal(requestId, Member(room, client), stamp, body, sdpRequestId);
        case SyncRoom(room, members, epoch) =>
          if !IsRoomUuid(room) { return Err(InvalidRequest), order; }
          outcome, order := this.SyncRoom(requestId, room, members, epoch);
      }
    }

    method CacheCommand(result: CommandResult)
      modifies `commandCache, `commandOrder, `applied
      ensures ReplayView() == SfuShard.CacheCommand(old(ReplayView()), result)
    {
      if result.requestId !in commandCache {
        commandOrder := commandOrder + [result.requestId];
      }
      commandCache := commandCache[result.requestId := result];
      applied := applied + [result];
      ghost var cache1, order1 := commandCache, commandOrder;
      while |commandOrder| > COMMAND_CACHE_CAPACITY
        invariant Evict(commandCache, commandOrder) == Evict(cache1, order1)
        invariant applied == old(applied) + [result]
      {
        commandCache := commandCache - {commandOrder[0]};
        commandOrder := commandOrder[1..];
      }
    }

    /** The command arm of the media loop. */
    method Execute(requestId: nat, command: Command) returns (result: CommandResult, ghost order: seq<nat>)
      modifies this
      ensures Executed(View(), result) == SfuShard.Execute(behaviour, old(View()), Request(requestId, command, order))
      ensures old(Valid()) ==> Valid()
    {
      ghost var before := View();
      order := [];
      if requestId in commandCache {
        result := commandCache[requestId];
      } else {
        var outcome;
        outcome, order := Apply(requestId, command);
        result := CommandResult(requestId, outcome);
        CacheCommand(result);
      }
      ExecutionKeeps(behaviour, before, Request(requestId, command, order));
    }

    /** The event loop of `drain_engine`. */
    method DrainEngine(open: Receiver) returns (sent: seq<Emitted>, receiver: Receiver)
      modifies `engine
      ensures Drained(sent, engine.queue, receiver) == DrainEvents(old(engine.queue), projection, open)
      ensures engine == old(engine).(queue := engine.queue)
      ensures old(Valid()) ==> Valid()
    {
      sent, receiver := [], open;
      ghost var queue := engine.queue;
      while engine.queue != []
        invariant engine == old(engine).(queue := engine.queue)
        invariant var rest := DrainEvents(engine.queue, projection, receiver);
                  rest.(sent := sent + rest.sent) == DrainEvents(queue, projection, open)
        decreases |engine.queue|
      {
        var event := engine.queue[0];
        engine := engine.(queue := engine.queue[1..]);
        var member := Reported(projection, event);
        if member.Some? {
          if receiver == ClosesAfter(0) {
            return;
          }
          sent := sent + [Emitted(member.value, projection[member.value], event)];
          receiver := if receiver.Open? then Open else ClosesAfter(receiver.sends - 1);
        }
      }
    }
  }

  lemma ExecutionKeeps(b: Behaviour, s: Shard, r: Request)
    ensures Agree(s.worker) ==> Agree(SfuShard.Execute(b, s, r).shard.worker)
    ensures ReplayInv(s.replay) ==> ReplayInv(SfuShard.Execute(b, s, r).shard.replay)
  {
    if Agree(s.worker) { CommandKeepsAgreement(b, s.worker, r.requestId, r.command, r.order); }
    if ReplayInv(s.replay) { ExecuteKeepsReplayInv(b, s, r); }
  }
}
