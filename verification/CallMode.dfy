/**
 The browser's mode machine: direct and relayed peer connections handed over make-before-break. One event of the page,
 with the promise reactions it triggers, is one step.
 */
module CallMode {
  import opened Options

  datatype Mode = P2p | Upgrading | Sfu | Downgrading

  /** What `params_.sfuMode` says, and what a client created under it is. */
  datatype Kind = Direct | Relayed

  /** What a client does when its ICE state changes; `Silenced` has no callback left but for errors. */
  datatype Handler = Plain | SfuHandler | DowngradeHandler | Silenced

  /** `Up` is connected or completed. */
  datatype Ice = Down | Up
  datatype Life = Open | Closed

  datatype PcClient = PcClient(kind: Kind, handler: Handler, ice: Ice, life: Life)

  /** `pcClient_`, `p2pPcClient_` and `sfuPcClient_`, by the number of the client. */
  datatype Slots = Slots(current: Option<nat>, p2p: Option<nat>, sfu: Option<nat>)

  /**
   `downgradeTimer_` and the timers the browser will fire. History: how many downgrades were started, and which were
   completed. The timer of a downgrade is named by its number.
   */
  datatype Clock = Clock(timer: Option<nat>, armed: set<nat>, started: nat, completed: seq<nat>)

  /** `createPcClientPromise_`. */
  datatype Creation = Unset | Resolved | Rejected

  datatype Presence = Absent | Present

  /** `frames` is history: the clients whose signaling messages went out, in order. */
  datatype Call = Call(
    mode: Mode, leg: Kind, slots: Slots, creation: Creation, clock: Clock, clients: seq<PcClient>,
    room: Presence, ui: Presence, frames: seq<nat>)

  // ---------------------------------------------------------------- clients

  function Closing(clients: seq<PcClient>, slot: Option<nat>): seq<PcClient> {
    if slot.Some? && slot.value < |clients| then clients[slot.value := clients[slot.value].(life := Closed)] else clients
  }

  function Silencing(clients: seq<PcClient>, slot: Option<nat>): seq<PcClient> {
    if slot.Some? && slot.value < |clients| then clients[slot.value := clients[slot.value].(handler := Silenced)]
    else clients
  }

  /** How an attempt to create and start a client goes. */
  datatype Start = Starts | CreationThrows | StartThrows

  function NewClient(mode: Mode, leg: Kind): PcClient {
    PcClient(leg, if leg.Relayed? then SfuHandler else if mode.Downgrading? then DowngradeHandler else Plain, Down, Open)
  }

  /** `maybeCreatePcClientAsync_`, on its synchronous branch. */
  function MaybeCreate(s: Call, start: Start): Call {
    if s.slots.current.Some? || !s.creation.Unset? then s
    else if start.CreationThrows? then s.(creation := Rejected)
    else
      s.(clients := s.clients + [NewClient(s.mode, s.leg)],
         slots := s.slots.(current := Some(|s.clients|)), creation := Resolved)
  }

  // ---------------------------------------------------------------- the transitions

  function ClearTimer(c: Clock): Clock {
    if c.timer.Some? then c.(timer := None, armed := c.armed - {c.timer.value}) else c
  }

  /** A downgrade starts: its timer replaces any older one. */
  function StartTimer(c: Clock): Clock {
    var cleared := ClearTimer(c);
    var n := c.started + 1;
    cleared.(timer := Some(n), armed := cleared.armed + {n}, started := n)
  }

  function ReleaseRetired(s: Call): Call {
    s.(clients := Closing(s.clients, s.slots.sfu), slots := s.slots.(sfu := None))
  }

  /** `finishSfuDowngrade_`; without a listener nobody else will release the retained client. */
  function FinishDowngrade(s: Call): Call {
    if !s.mode.Downgrading? then s
    else
      var c := ClearTimer(s.clock);
      var s1 := s.(clock := c.(completed := c.completed + [c.started]), mode := P2p);
      if s.ui.Present? then s1 else ReleaseRetired(s1)
  }

  function StartUpgrade(s: Call, start: Start): Call {
    if s.leg.Relayed? || s.mode.Upgrading? then s
    else
      MaybeCreate(s.(mode := Upgrading, leg := Relayed, slots := Slots(None, s.slots.current, s.slots.sfu),
                     creation := Unset), start)
  }

  /** The state when `startSfuDowngrade_` comes to create the direct client. */
  function DowngradeHandover(s: Call): Call {
    s.(mode := Downgrading, leg := Direct, slots := Slots(None, None, s.slots.current), creation := Unset,
       clients := Closing(Silencing(s.clients, s.slots.current), s.slots.p2p),
       clock := StartTimer(s.clock))
  }

  function StartDowngrade(s: Call, start: Start): Call {
    if s.mode.P2p? || s.mode.Downgrading? then s
    else
      var s1 := MaybeCreate(DowngradeHandover(s), start);
      if start.Starts? then s1 else FinishDowngrade(s1)
  }

  function CurrentIce(s: Call): Ice {
    if s.slots.current.Some? && s.slots.current.value < |s.clients| then s.clients[s.slots.current.value].ice else Down
  }

  /** What the handler of a client does; both look at the current client, whoever raised the event. */
  function HandleIce(s: Call, handler: Handler): Call {
    if CurrentIce(s).Down? then s
    else
      match handler
      case SfuHandler =>
        s.(mode := Sfu, clients := Closing(s.clients, s.slots.p2p), slots := s.slots.(p2p := None))
      case DowngradeHandler => FinishDowngrade(s)
      case _ => s
  }

  function FireTimer(s: Call, t: nat): Call {
    var s1 := s.(clock := s.clock.(timer := None, armed := s.clock.armed - {t}));
    if s.mode.Downgrading? then FinishDowngrade(s1) else s1
  }

  /** `onRemoteHangup`, also reached by the p2p-promote control. */
  function RemoteHangup(s: Call, start: Start): Call {
    var s1 := if s.slots.current.Some?
              then s.(clients := Closing(s.clients, s.slots.current), slots := s.slots.(current := None), creation := Unset)
              else s;
    MaybeCreate(s1, start)
  }

  /** The part of `hangup` that happens at once; without a room it does nothing. */
  function Hangup(s: Call): Call {
    if s.room.Absent? then s
    else
      var clients := Closing(Closing(Closing(s.clients, s.slots.current), s.slots.p2p), s.slots.sfu);
      s.(clients := clients, slots := Slots(None, None, None), clock := ClearTimer(s.clock),
         creation := if s.slots.current.Some? then Unset else s.creation)
  }

  /** A client has a message for the signaling channel. */
  function SendFrame(s: Call, i: nat): Call
    requires i < |s.clients|
  {
    if s.clients[i].handler.Silenced? then s else s.(frames := s.frames + [i])
  }

  // ---------------------------------------------------------------- events

  datatype Event =
    | UpgradeControl(start: Start)
    | DowngradeControl(start: Start)
    | IceChange(client: nat, ice: Ice)
    | FrameReady(client: nat)
    | TimerFires(timer: nat)
    | ReleaseRequest                 // the page has switched its layout
    | PeerLeft(start: Start)
    | SignalingMessage(start: Start) // creates the client if there is none
    | HangUp
    | LeaveSettled                   // the request that ends the hangup forgets the room

  predicate Enabled(s: Call, e: Event) {
    match e
    case IceChange(i, _) => i < |s.clients| && s.clients[i].life.Open?
    case FrameReady(i) => i < |s.clients| && s.clients[i].life.Open?
    case TimerFires(t) => t in s.clock.armed
    case _ => true
  }

  function Next(s: Call, e: Event): Call
    requires Enabled(s, e)
  {
    match e
    case UpgradeControl(start) => StartUpgrade(s, start)
    case DowngradeControl(start) => StartDowngrade(s, start)
    case IceChange(i, ice) => HandleIce(s.(clients := s.clients[i := s.clients[i].(ice := ice)]), s.clients[i].handler)
    case FrameReady(i) => SendFrame(s, i)
    case TimerFires(t) => FireTimer(s, t)
    case ReleaseRequest => ReleaseRetired(s)
    case PeerLeft(start) => RemoteHangup(s, start)
    case SignalingMessage(start) => MaybeCreate(s, start)
    case HangUp => Hangup(s)
    case LeaveSettled => s.(room := Absent)
  }

  predicate ValidRun(s: Call, events: seq<Event>)
    decreases |events|
  {
    events == [] || (Enabled(s, events[0]) && ValidRun(Next(s, events[0]), events[1..]))
  }

  function After(s: Call, events: seq<Event>): Call
    requires ValidRun(s, events)
    decreases |events|
  {
    if events == [] then s else After(Next(s, events[0]), events[1..])
  }

  // ---------------------------------------------------------------- joining a room

  function NewCall(ui: Presence): Call {
    Call(P2p, Direct, Slots(None, None, None), Unset, Clock(None, {}, 0, []), [], Absent, ui, [])
  }

  /** What the authority says a room is: in its join response, and again, perhaps, when the client registers. */
  datatype RoomMode = RoomP2p | RoomSfu

  /** `connectToRoom_` up to the point where signaling starts. */
  function Connected(s: Call, joined: RoomMode, registered: Option<RoomMode>): Call {
    var final := if registered.Some? then registered.value else joined;
    s.(room := Present,
       leg := if joined.RoomSfu? || final.RoomSfu? then Relayed else s.leg,
       mode := if final.RoomSfu? then Upgrading else P2p)
  }
}
