/**
 The command engine of an SFU worker shard: the media engine, the projection of its members, and the commands that
 change both.

 The media engine is a library. Its `Behaviour` is any function of the calls made so far: a successful join or leave
 adds or removes a member, a failed call leaves the members alone, and any call may raise events.
 */
module SfuCommands {
  import opened Options
  import opened Uuid

  type Room = seq<Byte>

  datatype Member = Member(room: Room, client: nat)

  /** The lifecycle and assignment epoch under which a member is projected. */
  datatype Stamp = Stamp(lifecycle: nat, epoch: nat)

  // ---------------------------------------------------------------- the media engine

  datatype EngineCall =
    | EngineJoin(requestId: nat, member: Member)
    | EngineLeave(requestId: nat, member: Member)
    | EngineSdp(requestId: nat, member: Member)
    | EngineIce(requestId: nat, member: Member)
    | EnginePacket
    | EngineTimeout
    | EnginePump

  /** An event the engine raises; the room and the client may be missing. */
  datatype EngineEvent =
    | RaisedSdp(who: Option<Member>, requestId: nat)
    | RaisedIce(who: Option<Member>)
    | RaisedError(who: Option<Member>, requestId: nat)
    | RaisedOther

  datatype Status = Done | Rejected

  datatype Reaction = Reaction(status: Status, events: seq<EngineEvent>)

  type Behaviour = (seq<EngineCall>, EngineCall) -> Reaction

  datatype Engine = Engine(members: set<Member>, queue: seq<EngineEvent>, calls: seq<EngineCall>)

  function MembersAfter(members: set<Member>, call: EngineCall): set<Member> {
    match call
    case EngineJoin(_, m) => members + {m}
    case EngineLeave(_, m) => members - {m}
    case _ => members
  }

  function StatusOf(b: Behaviour, e: Engine, call: EngineCall): Status {
    b(e.calls, call).status
  }

  /** `handle_event`, `handle_read`, `handle_timeout` and the pumping of `poll_read`/`poll_write`. */
  function Handle(b: Behaviour, e: Engine, call: EngineCall): Engine {
    var r := b(e.calls, call);
    Engine(if r.status.Done? then MembersAfter(e.members, call) else e.members, e.queue + r.events, e.calls + [call])
  }

  // ---------------------------------------------------------------- commands

  datatype MemberRef = MemberRef(client: nat, lifecycle: nat)

  datatype SignalBody =
    | OfferBody
    | AnswerBody(requestId: Option<nat>)
    | CandidateBody
    | EndOfCandidatesBody
    | ByeBody
    | UnknownBody
    | MalformedBody

  datatype Command =
    | Join(room: Room, client: nat, stamp: Stamp)
    | Leave(room: Room, client: nat, stamp: Stamp)
    | Signal(room: Room, client: nat, stamp: Stamp, body: SignalBody, sdpRequestId: Option<nat>)
    | SyncRoom(room: Room, members: seq<MemberRef>, epoch: nat)
    | Drain
    | Missing

  datatype ErrorCode =
    | InvalidRequest | InvalidSignal | StaleLifecycle | StaleAssignmentEpoch | WorkerUnavailable | Internal

  datatype Payload =
    | MemberJoined(member: Member, stamp: Stamp)
    | MemberLeft(member: Member, stamp: Stamp)
    | RoomSynced(room: Room, epoch: nat)
    | Acknowledged

  datatype CommandResult = CommandResult(requestId: nat, outcome: Result<Payload, ErrorCode>)

  /** `command_room_id`: the room a command is routed by. */
  function CommandRoom(c: Command): Option<Room> {
    if c.Drain? || c.Missing? then None else RoomIdFromBytes(c.room)
  }

  /** The engine and the projection of one shard. */
  datatype Worker = Worker(engine: Engine, projection: map<Member, Stamp>)

  function NewWorker(): Worker {
    Worker(Engine({}, [], []), map[])
  }

  /** A worker after a command, with the command's payload or error. */
  datatype Applied = Applied(worker: Worker, outcome: Result<Payload, ErrorCode>)

  function Call(b: Behaviour, w: Worker, call: EngineCall): Worker {
    w.(engine := Handle(b, w.engine, call))
  }

  function ApplyJoin(b: Behaviour, w: Worker, requestId: nat, m: Member, stamp: Stamp): Applied {
    if m in w.projection then
      if w.projection[m] == stamp then Applied(w, Ok(MemberJoined(m, stamp))) else Applied(w, Err(StaleLifecycle))
    else
      var call := EngineJoin(requestId, m);
      if StatusOf(b, w.engine, call).Done? then
        Applied(Worker(Handle(b, w.engine, call), w.projection[m := stamp]), Ok(MemberJoined(m, stamp)))
      else
        Applied(Call(b, w, call), Err(Internal))
  }

  function ApplyLeave(b: Behaviour, w: Worker, requestId: nat, m: Member, stamp: Stamp): Applied {
    if m !in w.projection then Applied(w, Ok(MemberLeft(m, stamp)))
    else if w.projection[m].epoch != stamp.epoch then Applied(w, Err(StaleAssignmentEpoch))
    else if w.projection[m].lifecycle != stamp.lifecycle then Applied(w, Err(StaleLifecycle))
    else
      var call := EngineLeave(requestId, m);
      if StatusOf(b, w.engine, call).Done? then
        Applied(Worker(Handle(b, w.engine, call), w.projection - {m}), Ok(MemberLeft(m, stamp)))
      else
        Applied(Call(b, w, call), Err(Internal))
  }

  /** The engine call `apply_signal` makes for a message, if the message asks for one. */
  function SignalCall(requestId: nat, m: Member, body: SignalBody, sdpRequestId: Option<nat>)
    : Result<Option<EngineCall>, ErrorCode>
  {
    match body
    case OfferBody => Ok(Some(EngineSdp(if sdpRequestId.Some? then sdpRequestId.value else requestId, m)))
    case AnswerBody(own) =>
      if own.Some? then Ok(Some(EngineSdp(own.value, m)))
      else if sdpRequestId.Some? then Ok(Some(EngineSdp(sdpRequestId.value, m)))
      else Err(InvalidSignal)
    case CandidateBody => Ok(Some(EngineIce(requestId, m)))
    case EndOfCandidatesBody => Ok(Some(EngineIce(requestId, m)))
    case ByeBody => Ok(None)
    case UnknownBody => Err(InvalidSignal)
    case MalformedBody => Err(InvalidSignal)
  }

  function ApplySignal(b: Behaviour, w: Worker, requestId: nat, m: Member, stamp: Stamp, body: SignalBody,
                       sdpRequestId: Option<nat>): Applied
  {
    if m !in w.projection || w.projection[m] != stamp then Applied(w, Err(StaleLifecycle))
    else
      match SignalCall(requestId, m, body, sdpRequestId)
      case Err(code) => Applied(w, Err(code))
      case Ok(None) => Applied(w, Ok(Acknowledged))
      case Ok(Some(call)) =>
        Applied(Call(b, w, call), if StatusOf(b, w.engine, call).Done? then Ok(Acknowledged) else Err(InvalidSignal))
  }

  // ---------------------------------------------------------------- room synchronisation

  /** The lifecycle wanted for a client; the last entry for a client wins. */
  function Wanted(members: seq<MemberRef>): map<nat, nat> {
    if members == [] then map[] else map[members[0].client := members[0].lifecycle] + Wanted(members[1..])
  }

  /** The projected clients of the room that the sync does not list. */
  function StaleClients(projection: map<Member, Stamp>, room: Room, wanted: set<nat>): set<nat> {
    set m | m in projection && m.room == room && m.client !in wanted :: m.client
  }

  /** The order in which the hash map yields the stale clients: each once. */
  predicate Enumerates(order: seq<nat>, s: set<nat>) {
    && (forall i | 0 <= i < |order| :: order[i] in s)
    && (forall i, j | 0 <= i < j < |order| :: order[i] != order[j])
    && (forall c | c in s :: c in order)
  }

  datatype Swept = Swept(worker: Worker, status: Status)

  /** The first loop of `sync_room`: stale members leave, until one cannot. */
  function SyncLeaves(b: Behaviour, w: Worker, requestId: nat, room: Room, order: seq<nat>): Swept
    decreases |order|
  {
    if order == [] then Swept(w, Done)
    else
      var m := Member(room, order[0]);
      var call := EngineLeave(requestId, m);
      if StatusOf(b, w.engine, call).Done? then
        SyncLeaves(b, Worker(Handle(b, w.engine, call), w.projection - {m}), requestId, room, order[1..])
      else
        Swept(Call(b, w, call), Rejected)
  }

  /** One round of the second loop: a new member joins, and every member is stamped. */
  function JoinOne(b: Behaviour, w: Worker, requestId: nat, room: Room, ref: MemberRef, epoch: nat): Swept {
    var m := Member(room, ref.client);
    var stamp := Stamp(ref.lifecycle, epoch);
    var call := EngineJoin(requestId, m);
    if m in w.projection then Swept(w.(projection := w.projection[m := stamp]), Done)
    else if StatusOf(b, w.engine, call).Done? then
      Swept(Worker(Handle(b, w.engine, call), w.projection[m := stamp]), Done)
    else Swept(Call(b, w, call), Rejected)
  }

  /** The second loop of `sync_room`, until a member cannot join. */
  function SyncJoins(b: Behaviour, w: Worker, requestId: nat, room: Room, members: seq<MemberRef>, epoch: nat): Swept
    decreases |members|
  {
    if members == [] then Swept(w, Done)
    else
      var one := JoinOne(b, w, requestId, room, members[0], epoch);
      if one.status.Done? then SyncJoins(b, one.worker, requestId, room, members[1..], epoch) else one
  }

  function ApplySync(b: Behaviour, w: Worker, requestId: nat, room: Room, members: seq<MemberRef>, epoch: nat,
                     order: seq<nat>): Applied
  {
    var left := SyncLeaves(b, w, requestId, room, order);
    if left.status.Rejected? then Applied(left.worker, Err(Internal))
    else
      var joined := SyncJoins(b, left.worker, requestId, room, members, epoch);
      if joined.status.Rejected? then Applied(joined.worker, Err(Internal))
      else Applied(joined.worker, Ok(RoomSynced(room, epoch)))
  }

  /** `apply_command`; `order` is how the hash map orders the stale members of a sync. */
  function ApplyCommand(b: Behaviour, w: Worker, requestId: nat, c: Command, order: seq<nat>): Applied {
    if requestId == 0 then Applied(w, Err(InvalidRequest))
    else
      match c
      case Drain => Applied(w, Ok(Acknowledged))
      case Missing => Applied(w, Err(InvalidRequest))
      case Join(room, client, stamp) =>
        if RoomIdFromBytes(room).None? then Applied(w, Err(InvalidRequest))
        else ApplyJoin(b, w, requestId, Member(room, client), stamp)
      case Leave(room, client, stamp) =>
        if RoomIdFromBytes(room).None? then Applied(w, Err(InvalidRequest))
        else ApplyLeave(b, w, requestId, Member(room, client), stamp)
      case Signal(room, client, stamp, body, sdpRequestId) =>
        if RoomIdFromBytes(room).None? then Applied(w, Err(InvalidRequest))
        else ApplySignal(b, w, requestId, Member(room, client), stamp, body, sdpRequestId)
      case SyncRoom(room, members, epoch) =>
        if RoomIdFromBytes(room).None? then Applied(w, Err(InvalidRequest))
        else ApplySync(b, w, requestId, room, members, epoch, order)
  }

  /** The hash map yields exactly the stale members of a sync. */
  predicate OrderFits(w: Worker, c: Command, order: seq<nat>) {
    c.SyncRoom? ==> Enumerates(order, StaleClients(w.projection, c.room, Wanted(c.members).Keys))
  }
}
