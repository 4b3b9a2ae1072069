/**
 The call's fields updated in place. Each method is proved against the function on values it implements. `Valid` says
 that a run of events after a join leads to the call, so that the theorems about runs hold of it; every handler keeps
 it, and joining establishes it exactly when the mode and `sfuMode` agree.
 */
module BrowserCall {
  import opened Options
  import opened CallMode
  import opened CallModeTheorems

  class Call {
    var mode: Mode
    var sfuMode: bool
    var pcClient: Option<nat>
    var p2pPcClient: Option<nat>
    var sfuPcClient: Option<nat>
    var createPcClientPromise: Creation
    var downgradeTimer: Option<nat>
    var roomId: Presence
    var onModeChange: Presence
    /** Every client ever created, by number. */
    var clients: seq<PcClient>
    /** The browser's side of `setTimeout`: how many timers were set, and which are armed. */
    var timersSet: nat
    var timersArmed: set<nat>
    ghost var completed: seq<nat>
    ghost var frames: seq<nat>

    ghost function ClockView(): Clock
      reads this
    {
      Clock(downgradeTimer, timersArmed, timersSet, completed)
    }

    ghost function View(): CallMode.Call
      reads this
    {
      CallMode.Call(mode, if sfuMode then Relayed else Direct, Slots(pcClient, p2pPcClient, sfuPcClient),
                    createPcClientPromise, ClockView(), clients, roomId, onModeChange, frames)
    }

    ghost predicate Valid()
      reads this
    {
      Reachable(View())
    }

    /** What the run theorems say in terms of the fields. */
    lemma KindsAgree()
      requires Valid()
      ensures sfuMode <==> mode == Upgrading || mode == Sfu
      ensures pcClient.Some? ==>
                && pcClient.value < |clients| && clients[pcClient.value].life.Open?
                && (clients[pcClient.value].kind.Relayed? <==> sfuMode)
      ensures timersArmed <= {timersSet}
    {
      ReachableInv(View());
    }

    constructor (listener: Presence)
      ensures View() == NewCall(listener)
    {
      mode, sfuMode := P2p, false;
      pcClient, p2pPcClient, sfuPcClient := None, None, None;
      createPcClientPromise, downgradeTimer := Unset, None;
      roomId, onModeChange := Absent, listener;
      clients, timersSet, timersArmed, completed, frames := [], 0, {}, [], [];
    }

    method Close(client: nat)
      modifies `clients
      ensures clients == Closing(old(clients), Some(client))
    {
      if client < |clients| { clients := clients[client := clients[client].(life := Closed)]; }
    }

    method CreatePcClient()
      modifies `clients, `pcClient
      ensures clients == old(clients) + [NewClient(mode, if sfuMode then Relayed else Direct)]
      ensures pcClient == Some(|old(clients)|)
    {
      var handler := Plain;
      if sfuMode {
        handler := SfuHandler;
      } else if mode == Downgrading {
        handler := DowngradeHandler;
      }
      clients := clients + [PcClient(if sfuMode then Relayed else Direct, handler, Down, Open)];
      pcClient := Some(|clients| - 1);
    }

    method MaybeCreatePcClient(start: Start)
      modifies `clients, `pcClient, `createPcClientPromise
      ensures View() == MaybeCreate(old(View()), start)
      ensures old(Valid()) ==> Valid()
    {
      StepKeepsReachable(View(), SignalingMessage(start));
      if pcClient.Some? || createPcClientPromise != Unset { return; }
      if start == CreationThrows {
        createPcClientPromise := Rejected;
      } else {
        CreatePcClient();
        createPcClientPromise := Resolved;
      }
    }

    method ClearDowngradeTimer()
      modifies `downgradeTimer, `timersArmed
      ensures ClockView() == ClearTimer(old(ClockView()))
    {
      if downgradeTimer.Some? {
        timersArmed := timersArmed - {downgradeTimer.value};
        downgradeTimer := None;
      }
    }

    method StartDowngradeTimer()
      modifies `downgradeTimer, `timersArmed, `timersSet
      ensures View() == old(View()).(clock := StartTimer(old(ClockView())))
    {
      ClearDowngradeTimer();
      timersSet := timersSet + 1;
      downgradeTimer := Some(timersSet);
      timersArmed := timersArmed + {timersSet};
    }

    method ReleaseRetiredSfuTransport()
      modifies `clients, `sfuPcClient
      ensures View() == ReleaseRetired(old(View()))
      ensures old(Valid()) ==> Valid()
    {
      StepKeepsReachable(View(), ReleaseRequest);
      if sfuPcClient.Some? {
        Close(sfuPcClient.value);
        sfuPcClient := None;
      }
    }

    method ClosePcClient()
      modifies `clients, `pcClient, `createPcClientPromise
      ensures pcClient == None && clients == Closing(old(clients), old(pcClient))
      ensures createPcClientPromise == if old(pcClient).Some? then Unset else old(createPcClientPromise)
    {
      if pcClient.Some? {
        Close(pcClient.value);
        pcClient := None;
        createPcClientPromise := Unset;
      }
    }

    method CloseP2pPcClient()
      modifies `clients, `p2pPcClient
      ensures clients == Closing(old(clients), old(p2pPcClient)) && p2pPcClient == None
    {
      if p2pPcClient.Some? {
        Close(p2pPcClient.value);
        p2pPcClient := None;
      }
    }

    method RetireSfuClientCallbacks()
      modifies `clients
      ensures clients == Silencing(old(clients), sfuPcClient)
    {
      if sfuPcClient.Some? && sfuPcClient.value < |clients| {
        clients := clients[sfuPcClient.value := clients[sfuPcClient.value].(handler := Silenced)];
      }
    }

    method CloseRetainedPcClients()
      modifies `clients, `p2pPcClient, `sfuPcClient, `downgradeTimer, `timersArmed
      ensures ClockView() == ClearTimer(old(ClockView()))
      ensures p2pPcClient == None && sfuPcClient == None
      ensures clients == Closing(Closing(old(clients), old(p2pPcClient)), old(sfuPcClient))
    {
      ClearDowngradeTimer();
      CloseP2pPcClient();
      ReleaseRetiredSfuTransport();
    }

    method FinishSfuDowngrade()
      modifies this
      ensures View() == FinishDowngrade(old(View()))
    {
      if mode != Downgrading { return; }
      ClearDowngradeTimer();
      mode := P2p;
      completed := completed + [timersSet];
      if onModeChange == Absent { ReleaseRetiredSfuTransport(); }
    }

    method StartSfuUpgrade(start: Start)
      modifies this
      ensures View() == StartUpgrade(old(View()), start)
      ensures old(Valid()) ==> Valid()
    {
      StepKeepsReachable(View(), UpgradeControl(start));
      if sfuMode || mode == Upgrading { return; }
      mode, sfuMode := Upgrading, true;
      p2pPcClient := pcClient;
      pcClient := None;
      createPcClientPromise := Unset;
      MaybeCreatePcClient(start);
    }

    method HandOverClients()
      modifies `clients, `pcClient, `p2pPcClient, `sfuPcClient
      ensures View() == old(View()).(slots := Slots(None, None, old(pcClient)),
                                     clients := Closing(Silencing(old(clients), old(pcClient)), old(p2pPcClient)))
    {
      sfuPcClient := pcClient;
      RetireSfuClientCallbacks();
      CloseP2pPcClient();
      pcClient := None;
    }

    /** The fields handed over, up to the timer. */
    method HandOver()
      modifies this
      ensures View() == DowngradeHandover(old(View()))
    {
      mode, sfuMode := Downgrading, false;
      HandOverClients();
      createPcClientPromise := Unset;
      StartDowngradeTimer();
    }

    method StartSfuDowngrade(start: Start)
      modifies this
      ensures View() == StartDowngrade(old(View()), start)
      ensures old(Valid()) ==> Valid()
    {
      StepKeepsReachable(View(), DowngradeControl(start));
      if mode == P2p || mode == Downgrading { return; }
      HandOver();
      MaybeCreatePcClient(start);
      if start != Starts { FinishSfuDowngrade(); }
    }

    method OnSfuIceConnectionStateChange()
      modifies this
      ensures View() == HandleIce(old(View()), SfuHandler)
    {
      if pcClient.None? || pcClient.value >= |clients| || clients[pcClient.value].ice == Down { return; }
      mode := Sfu;
      CloseP2pPcClient();
    }

    method OnDowngradeIceConnectionStateChange()
      modifies this
      ensures View() == HandleIce(old(View()), DowngradeHandler)
    {
      if pcClient.None? || pcClient.value >= |clients| || clients[pcClient.value].ice == Down { return; }
      FinishSfuDowngrade();
    }

    /** The browser reports an ICE state of a client, which calls whatever handler it has. */
    method OnIceConnectionStateChange(client: nat, ice: Ice)
      requires client < |clients| && clients[client].life.Open?
      modifies this
      ensures View() == Next(old(View()), IceChange(client, ice))
      ensures old(Valid()) ==> Valid()
    {
      StepKeepsReachable(View(), IceChange(client, ice));
      clients := clients[client := clients[client].(ice := ice)];
      match clients[client].handler {
        case SfuHandler => OnSfuIceConnectionStateChange();
        case DowngradeHandler => OnDowngradeIceConnectionStateChange();
        case _ =>
      }
    }

    /** A client calls `onsignalingmessage`, if it still has it. */
    method SendSignalingMessage(client: nat)
      requires client < |clients| && clients[client].life.Open?
      modifies `frames
      ensures View() == SendFrame(old(View()), client)
      ensures old(Valid()) ==> Valid()
    {
      StepKeepsReachable(View(), FrameReady(client));
      if clients[client].handler != Silenced { frames := frames + [client]; }
    }

    method OnDowngradeTimer(timer: nat)
      requires timer in timersArmed
      modifies this
      ensures View() == FireTimer(old(View()), timer)
      ensures old(Valid()) ==> Valid()
    {
      StepKeepsReachable(View(), TimerFires(timer));
      timersArmed := timersArmed - {timer};
      downgradeTimer := None;
      if mode == Downgrading { FinishSfuDowngrade(); }
    }

    method OnRemoteHangup(start: Start)
      modifies this
      ensures View() == RemoteHangup(old(View()), start)
      ensures old(Valid()) ==> Valid()
    {
      StepKeepsReachable(View(), PeerLeft(start));
      ClosePcClient();
      MaybeCreatePcClient(start);
    }

    method HangUp()
      modifies this
      ensures View() == Hangup(old(View()))
      ensures old(Valid()) ==> Valid()
    {
      StepKeepsReachable(View(), CallMode.HangUp);
      if roomId == Absent { return; }
      ClosePcClient();
      CloseRetainedPcClients();
    }

    method ConnectToRoom(joined: RoomMode, registered: Option<RoomMode>)
      modifies `roomId, `mode, `sfuMode
      ensures View() == Connected(old(View()), joined, registered)
      ensures old(View()) == NewCall(onModeChange) ==>
                (Valid() <==> (if registered.Some? then registered.value else joined).RoomSfu? || joined.RoomP2p?)
    {
      JoiningReachesIff(onModeChange, joined, registered);
      roomId := Present;
      if joined == RoomSfu { sfuMode := true; }
      var final := if registered.Some? then registered.value else joined;
      if final == RoomSfu { sfuMode := true; }
      mode := if final == RoomSfu then Upgrading else P2p;
    }

    /** The request that ends a hangup has settled. */
    method ForgetRoom()
      modifies `roomId
      ensures View() == old(View()).(room := Absent)
      ensures old(Valid()) ==> Valid()
    {
      StepKeepsReachable(View(), LeaveSettled);
      roomId := Absent;
    }

    /** Every event of the model has its method. */
    method Handle(e: Event)
      requires Enabled(View(), e)
      modifies this
      ensures View() == Next(old(View()), e)
      ensures old(Valid()) ==> Valid()
    {
      match e {
        case UpgradeControl(start) => StartSfuUpgrade(start);
        case DowngradeControl(start) => StartSfuDowngrade(start);
        case IceChange(client, ice) => OnIceConnectionStateChange(client, ice);
        case FrameReady(client) => SendSignalingMessage(client);
        case TimerFires(timer) => OnDowngradeTimer(timer);
        case ReleaseRequest => ReleaseRetiredSfuTransport();
        case PeerLeft(start) => OnRemoteHangup(start);
        case SignalingMessage(start) => MaybeCreatePcClient(start);
        case HangUp => this.HangUp();
        case LeaveSettled => ForgetRoom();
      }
    }

    /** So the methods play every run. */
    method Play(events: seq<Event>)
      requires ValidRun(View(), events)
      modifies this
      ensures View() == After(old(View()), events)
      ensures old(Valid()) ==> Valid()
    {
      var i := 0;
      while i < |events|
        invariant 0 <= i <= |events| && ValidRun(View(), events[i..])
        invariant After(View(), events[i..]) == After(old(View()), events)
        invariant old(Valid()) ==> Valid()
      {
        assert events[i..][1..] == events[i + 1..];
        Handle(events[i]);
        i := i + 1;
      }
    }
  }
}
