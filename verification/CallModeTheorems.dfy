/** What every run of the mode machine keeps. */
module CallModeTheorems {
  import opened Options
  import opened CallMode

  // ---------------------------------------------------------------- the invariant

  predicate Agrees(mode: Mode, leg: Kind) {
    leg.Relayed? <==> mode.Upgrading? || mode.Sfu?
  }

  predicate IsOpen(clients: seq<PcClient>, i: nat) {
    i < |clients| && clients[i].life.Open?
  }

  predicate ForDirect(h: Handler) {
    h.Plain? || h.DowngradeHandler?
  }

  /** The current client is of the kind the mode asks for, and its handler is the one for that kind. */
  predicate CurrentFits(mode: Mode, leg: Kind, current: Option<nat>, clients: seq<PcClient>) {
    current.Some? ==>
      && IsOpen(clients, current.value)
      && var c := clients[current.value];
         && c.kind == leg
         && (if leg.Relayed? then c.handler.SfuHandler? else ForDirect(c.handler))
         && (mode.Downgrading? ==> c.handler.DowngradeHandler?)
  }

  /** A direct client is retained only while upgrading; a retained relayed client is silent. */
  predicate RetainedFit(mode: Mode, slots: Slots, clients: seq<PcClient>) {
    && (slots.p2p.Some? ==>
          && mode.Upgrading? && IsOpen(clients, slots.p2p.value)
          && clients[slots.p2p.value].kind.Direct? && ForDirect(clients[slots.p2p.value].handler))
    && (slots.sfu.Some? ==>
          && IsOpen(clients, slots.sfu.value)
          && clients[slots.sfu.value].kind.Relayed? && clients[slots.sfu.value].handler.Silenced?)
  }

  /** Whatever else is open, without a slot to close it from, is silent. */
  ghost predicate OthersSilent(slots: Slots, clients: seq<PcClient>) {
    forall i: nat | IsOpen(clients, i) && slots.current != Some(i) && slots.p2p != Some(i) :: clients[i].handler.Silenced?
  }

  /**
   Only the timer of the latest downgrade can fire, and none after it completed; a downgrade under way has not been
   completed.
   */
  ghost predicate ClockInv(mode: Mode, c: Clock) {
    && c.armed == (if c.timer.Some? then {c.timer.value} else {})
    && (c.timer.Some? ==> c.timer.value == c.started && !mode.P2p?)
    && (forall k | 0 <= k < |c.completed| :: c.completed[k] <= c.started)
    && (mode.Downgrading? ==> forall k | 0 <= k < |c.completed| :: c.completed[k] < c.started)
    && forall j, k | 0 <= j < k < |c.completed| :: c.completed[j] < c.completed[k]
  }

  ghost predicate ClientsInv(s: Call) {
    && CurrentFits(s.mode, s.leg, s.slots.current, s.clients)
    && RetainedFit(s.mode, s.slots, s.clients)
    && OthersSilent(s.slots, s.clients)
    && (s.creation.Resolved? <==> s.slots.current.Some?)
  }

  ghost predicate Inv(s: Call) {
    Agrees(s.mode, s.leg) && ClientsInv(s) && ClockInv(s.mode, s.clock)
  }

  // ---------------------------------------------------------------- one step

  lemma CreateKeepsInv(s: Call, start: Start)
    requires Inv(s)
    ensures Inv(MaybeCreate(s, start))
  {
  }

  lemma FinishKeepsInv(s: Call)
    requires Inv(s)
    ensures Inv(FinishDowngrade(s))
  {
  }

  lemma UpgradeKeepsInv(s: Call, start: Start)
    requires Inv(s)
    ensures Inv(StartUpgrade(s, start))
  {
    if s.leg.Direct? {
      CreateKeepsInv(s.(mode := Upgrading, leg := Relayed, slots := Slots(None, s.slots.current, s.slots.sfu),
                        creation := Unset), start);
    }
  }

  lemma HandoverKeepsInv(s: Call)
    requires Inv(s) && s.leg.Relayed?
    ensures Inv(DowngradeHandover(s))
  {
  }

  lemma DowngradeKeepsInv(s: Call, start: Start)
    requires Inv(s)
    ensures Inv(StartDowngrade(s, start))
  {
    if s.leg.Relayed? {
      HandoverKeepsInv(s);
      CreateKeepsInv(DowngradeHandover(s), start);
      FinishKeepsInv(MaybeCreate(DowngradeHandover(s), start));
    }
  }

  lemma IceKeepsInv(s: Call, i: nat, ice: Ice)
    requires Inv(s) && Enabled(s, IceChange(i, ice))
    ensures Inv(Next(s, IceChange(i, ice)))
  {
    var s1 := s.(clients := s.clients[i := s.clients[i].(ice := ice)]);
    assert Inv(s1);
    FinishKeepsInv(s1);
  }

  lemma TimerKeepsInv(s: Call, t: nat)
    requires Inv(s) && t in s.clock.armed
    ensures Inv(FireTimer(s, t))
  {
    FinishKeepsInv(s.(clock := s.clock.(timer := None, armed := s.clock.armed - {t})));
  }

  lemma PeerLeftKeepsInv(s: Call, start: Start)
    requires Inv(s)
    ensures Inv(RemoteHangup(s, start))
  {
    if s.slots.current.Some? {
      CreateKeepsInv(s.(clients := Closing(s.clients, s.slots.current), slots := s.slots.(current := None),
                        creation := Unset), start);
    } else {
      CreateKeepsInv(s, start);
    }
  }

  lemma CloseKeepsInv(s: Call, e: Event)
    requires Inv(s) && (e.FrameReady? || e.ReleaseRequest? || e.HangUp? || e.LeaveSettled?)
    requires Enabled(s, e)
    ensures Inv(Next(s, e))
  {
  }

  lemma StepKeepsInv(s: Call, e: Event)
    requires Inv(s) && Enabled(s, e)
    ensures Inv(Next(s, e))
  {
    match e
    case UpgradeControl(start) => UpgradeKeepsInv(s, start);
    case DowngradeControl(start) => DowngradeKeepsInv(s, start);
    case IceChange(i, ice) => IceKeepsInv(s, i, ice);
    case TimerFires(t) => TimerKeepsInv(s, t);
    case PeerLeft(start) => PeerLeftKeepsInv(s, start);
    case SignalingMessage(start) => CreateKeepsInv(s, start);
    case _ => CloseKeepsInv(s, e);
  }

  lemma {:induction false} RunKeepsInv(s: Call, events: seq<Event>)
    requires Inv(s) && ValidRun(s, events)
    ensures Inv(After(s, events))
    decreases |events|
  {
    if events != [] {
      StepKeepsInv(s, events[0]);
      RunKeepsInv(Next(s, events[0]), events[1..]);
    }
  }

  // ---------------------------------------------------------------- joining

  /**
   Joining leaves `sfuMode` in agreement with the mode exactly when the room ends up relayed, or nothing ever said it
   was: the flag is set on the way but never cleared.
   */
  lemma JoiningAgreesIff(s: Call, joined: RoomMode, registered: Option<RoomMode>)
    ensures var s' := Connected(s, joined, registered);
            Agrees(s'.mode, s'.leg) <==>
            (if registered.Some? then registered.value else joined).RoomSfu? || (s.leg.Direct? && joined.RoomP2p?)
  {
  }

  /** A room that was relayed at admission and direct at registration: the client it creates is of the wrong kind. */
  lemma JoiningCanDisagree(ui: Presence)
    ensures var s := MaybeCreate(Connected(NewCall(ui), RoomSfu, Some(RoomP2p)), Starts);
            s.mode.P2p? && s.leg.Relayed? && s.clients == [PcClient(Relayed, SfuHandler, Down, Open)]
  {
  }

  /** The states from which a run starts: a first join whose two answers about the room agree. */
  predicate Joined(s: Call) {
    exists ui, room :: JoinedAs(s, ui, room)
  }

  predicate JoinedAs(s: Call, ui: Presence, room: RoomMode) {
    s == Connected(NewCall(ui), room, None) || s == Connected(NewCall(ui), room, Some(room))
  }

  lemma JoinedInv(s: Call)
    requires Joined(s)
    ensures Inv(s) && Bounded(s) && s.clients == []
  {
    var ui, room :| JoinedAs(s, ui, room);
    assert s == Connected(NewCall(ui), room, None);
  }

  /**
   In every run, `sfuMode` holds exactly when the mode is upgrading or sfu, the current client is open and of the kind
   `sfuMode` asks for, a direct client is retained only while upgrading, and whatever else is open is silent.
   */
  lemma ModesAgree(s: Call, events: seq<Event>)
    requires Joined(s) && ValidRun(s, events)
    ensures Inv(After(s, events))
  {
    JoinedInv(s);
    RunKeepsInv(s, events);
  }

  // ---------------------------------------------------------------- who can change the mode

  /** Mode sfu is entered only because the current client is relayed and its ICE has come up. */
  lemma SfuIsEnteredByItsClient(s: Call, e: Event)
    requires Inv(s) && Enabled(s, e) && !s.mode.Sfu? && Next(s, e).mode.Sfu?
    ensures s.mode.Upgrading? && e.IceChange? && e.ice.Up? && s.slots.current == Some(e.client)
    ensures s.clients[e.client].kind.Relayed?
    ensures Next(s, e).slots.p2p.None?
  {
    if e.IceChange? && s.slots.current != Some(e.client) { OtherClientsAreHarmless(s, e.client, e.ice); }
  }

  /** An event of any client but the current one changes nothing but that client's own ICE state. */
  lemma OtherClientsAreHarmless(s: Call, i: nat, ice: Ice)
    requires Inv(s) && Enabled(s, IceChange(i, ice)) && s.slots.current != Some(i)
    ensures Next(s, IceChange(i, ice)) == s.(clients := s.clients[i := s.clients[i].(ice := ice)])
  {
    assert IsOpen(s.clients, i);
  }

  /** The current client's ICE coming up completes the transition under way; anything else about it changes nothing. */
  lemma CurrentClientDecides(s: Call, i: nat, ice: Ice)
    requires Inv(s) && Enabled(s, IceChange(i, ice)) && s.slots.current == Some(i)
    ensures var s' := Next(s, IceChange(i, ice));
            && s'.leg == s.leg && s'.slots.current == s.slots.current && s'.creation == s.creation
            && s'.mode == (if ice.Down? then s.mode else if s.leg.Relayed? then Sfu else P2p)
            && (ice.Up? && s.slots.p2p.Some? ==>
                  s'.slots.p2p.None? && s'.clients[s.slots.p2p.value].life.Closed?)
            && (ice.Down? ==> s' == s.(clients := s.clients[i := s.clients[i].(ice := Down)]))
  {
  }

  /** In every run, mode sfu is entered only because the current, relayed client's ICE has come up. */
  lemma SfuIsOnlyEnteredByIce(s: Call, events: seq<Event>, e: Event)
    requires Joined(s) && ValidRun(s, events) && Enabled(After(s, events), e)
    requires !After(s, events).mode.Sfu? && Next(After(s, events), e).mode.Sfu?
    ensures var t := After(s, events);
            && t.mode.Upgrading? && e.IceChange? && e.ice.Up? && t.slots.current == Some(e.client)
            && t.clients[e.client].kind.Relayed? && Next(t, e).slots.p2p.None?
  {
    JoinedInv(s);
    RunKeepsInv(s, events);
    SfuIsEnteredByItsClient(After(s, events), e);
  }

  /** In every run, an event of a retained, lost or otherwise not current client moves nothing but its own ICE state. */
  lemma RetiredClientsAreHarmless(s: Call, events: seq<Event>, i: nat, ice: Ice)
    requires Joined(s) && ValidRun(s, events) && Enabled(After(s, events), IceChange(i, ice))
    requires After(s, events).slots.current != Some(i)
    ensures var t := After(s, events);
            Next(t, IceChange(i, ice)) == t.(clients := t.clients[i := t.clients[i].(ice := ice)])
  {
    JoinedInv(s);
    RunKeepsInv(s, events);
    OtherClientsAreHarmless(After(s, events), i, ice);
  }

  /**
   In every run, a signaling message goes out exactly if it comes from the current client or from the direct client
   retained during an upgrade: a relayed client that was retired sends no frame.
   */
  lemma FramesComeFromLiveClients(s: Call, events: seq<Event>, i: nat)
    requires Joined(s) && ValidRun(s, events) && Enabled(After(s, events), FrameReady(i))
    ensures var t := After(s, events);
            Next(t, FrameReady(i)) ==
            (if t.slots.current == Some(i) || t.slots.p2p == Some(i) then t.(frames := t.frames + [i]) else t)
  {
    JoinedInv(s);
    RunKeepsInv(s, events);
    assert IsOpen(After(s, events).clients, i);
  }

  // ---------------------------------------------------------------- completing a downgrade

  /** What may complete a downgrade: the current client's ICE, its own timer, or a client that could not be started. */
  predicate Completes(s: Call, e: Event) {
    match e
    case IceChange(i, ice) =>
      s.mode.Downgrading? && s.slots.current == Some(i) && ice.Up?
    case TimerFires(t) => s.mode.Downgrading? && t == s.clock.started
    case DowngradeControl(start) => s.leg.Relayed? && !start.Starts?
    case _ => false
  }

  lemma IceCompletions(s: Call, i: nat, ice: Ice)
    requires Inv(s) && Enabled(s, IceChange(i, ice))
    ensures Next(s, IceChange(i, ice)).clock.completed ==
            s.clock.completed + (if Completes(s, IceChange(i, ice)) then [s.clock.started] else [])
    ensures Next(s, IceChange(i, ice)).clock.started == s.clock.started
  {
    if s.slots.current != Some(i) { OtherClientsAreHarmless(s, i, ice); }
  }

  /** Each step completes at most the latest downgrade, and exactly for those reasons. */
  lemma CompletionsAreCurrent(s: Call, e: Event)
    requires Inv(s) && Enabled(s, e)
    ensures var c := Next(s, e).clock;
            c.completed == s.clock.completed + (if Completes(s, e) then [c.started] else [])
    ensures e.TimerFires? ==> e.timer == s.clock.started == Next(s, e).clock.started
    ensures Completes(s, e) ==> Next(s, e).mode.P2p? && (s.ui.Absent? ==> Next(s, e).slots.sfu.None?)
  {
    if e.IceChange? { IceCompletions(s, e.client, e.ice); }
  }

  /** In every run, a timer that completes a downgrade was armed for that very downgrade. */
  lemma TimersCompleteTheirOwn(s: Call, events: seq<Event>, t: nat)
    requires Joined(s) && ValidRun(s, events) && Enabled(After(s, events), TimerFires(t))
    ensures var c, c' := After(s, events).clock, Next(After(s, events), TimerFires(t)).clock;
            t == c.started && c'.completed == c.completed + (if After(s, events).mode.Downgrading? then [t] else [])
  {
    JoinedInv(s);
    RunKeepsInv(s, events);
    CompletionsAreCurrent(After(s, events), TimerFires(t));
  }

  /** In every run each downgrade completes at most once, and they complete in the order they were started. */
  lemma DowngradesCompleteOnce(s: Call, events: seq<Event>, j: nat, k: nat)
    requires Joined(s) && ValidRun(s, events)
    requires j < k < |After(s, events).clock.completed|
    ensures var c := After(s, events).clock; c.completed[j] < c.completed[k] <= c.started
  {
    JoinedInv(s);
    RunKeepsInv(s, events);
  }

  predicate Bounded(s: Call) {
    s.mode.Downgrading? ==> s.clock.timer == Some(s.clock.started)
  }

  lemma StepKeepsBound(s: Call, e: Event)
    requires Bounded(s) && Inv(s) && Enabled(s, e) && !e.HangUp?
    ensures Bounded(Next(s, e))
  {
  }

  /** Until the user hangs up, a downgrade under way always has its own timer armed, so it cannot last for ever. */
  lemma {:induction false} DowngradesAreBounded(s: Call, events: seq<Event>)
    requires Inv(s) && Bounded(s) && ValidRun(s, events) && forall e | e in events :: !e.HangUp?
    ensures Bounded(After(s, events))
    ensures var s' := After(s, events); s'.mode.Downgrading? ==> s'.clock.armed == {s'.clock.started}
    decreases |events|
  {
    RunKeepsInv(s, events);
    if events != [] {
      StepKeepsInv(s, events[0]);
      StepKeepsBound(s, events[0]);
      DowngradesAreBounded(Next(s, events[0]), events[1..]);
    }
  }

  // ---------------------------------------------------------------- no client is lost

  predicate InSlot(slots: Slots, i: nat) {
    slots.current == Some(i) || slots.p2p == Some(i) || slots.sfu == Some(i)
  }

  /** A client is lost when it is open and nothing refers to it any more. */
  predicate Lost(s: Call, i: nat) {
    IsOpen(s.clients, i) && !InSlot(s.slots, i)
  }

  /** A downgrade that starts while the last retained relayed client has not been released. */
  predicate Overwrites(s: Call, e: Event, i: nat) {
    e.DowngradeControl? && s.leg.Relayed? && s.slots.sfu == Some(i)
  }

  lemma SlotsAreApart(s: Call)
    requires ClientsInv(s) && Agrees(s.mode, s.leg)
    ensures var t := s.slots;
            && (t.current.Some? ==> t.current != t.p2p && t.current != t.sfu)
            && (t.p2p.Some? ==> t.p2p != t.sfu)
  {
  }

  lemma CreateLosesNothing(s: Call, start: Start, i: nat)
    requires Inv(s)
    ensures Lost(MaybeCreate(s, start), i) <==> Lost(s, i)
  {
  }

  lemma FinishLosesNothing(s: Call, i: nat)
    requires Inv(s)
    ensures Lost(FinishDowngrade(s), i) <==> Lost(s, i)
  {
    SlotsAreApart(s);
  }

  lemma DowngradeLoses(s: Call, start: Start, i: nat)
    requires Inv(s)
    ensures Lost(StartDowngrade(s, start), i) <==> Lost(s, i) || Overwrites(s, DowngradeControl(start), i)
  {
    SlotsAreApart(s);
    if s.leg.Relayed? {
      HandoverKeepsInv(s);
      assert Lost(DowngradeHandover(s), i) <==> Lost(s, i) || s.slots.sfu == Some(i);
      CreateKeepsInv(DowngradeHandover(s), start);
      CreateLosesNothing(DowngradeHandover(s), start, i);
      FinishLosesNothing(MaybeCreate(DowngradeHandover(s), start), i);
    }
  }

  lemma IceLosesNothing(s: Call, e: Event, i: nat)
    requires Inv(s) && Enabled(s, e) && e.IceChange?
    ensures Lost(Next(s, e), i) <==> Lost(s, i)
  {
    SlotsAreApart(s);
    var s1 := s.(clients := s.clients[e.client := s.clients[e.client].(ice := e.ice)]);
    assert Inv(s1);
    assert Lost(s1, i) <==> Lost(s, i);
    FinishLosesNothing(s1, i);
  }

  lemma UpgradeLosesNothing(s: Call, start: Start, i: nat)
    requires Inv(s)
    ensures Lost(StartUpgrade(s, start), i) <==> Lost(s, i)
  {
    if s.leg.Direct? {
      var s1 := s.(mode := Upgrading, leg := Relayed, slots := Slots(None, s.slots.current, s.slots.sfu), creation := Unset);
      assert Lost(s1, i) <==> Lost(s, i);
      CreateLosesNothing(s1, start, i);
    }
  }

  lemma PeerLeftLosesNothing(s: Call, start: Start, i: nat)
    requires Inv(s)
    ensures Lost(RemoteHangup(s, start), i) <==> Lost(s, i)
  {
    SlotsAreApart(s);
    if s.slots.current.Some? {
      var s1 := s.(clients := Closing(s.clients, s.slots.current), slots := s.slots.(current := None), creation := Unset);
      assert Lost(s1, i) <==> Lost(s, i);
      CreateLosesNothing(s1, start, i);
    } else {
      CreateLosesNothing(s, start, i);
    }
  }

  lemma CloseLosesNothing(s: Call, e: Event, i: nat)
    requires Inv(s) && Enabled(s, e) && (e.FrameReady? || e.TimerFires? || e.ReleaseRequest? || e.HangUp? || e.LeaveSettled?)
    ensures Lost(Next(s, e), i) <==> Lost(s, i)
  {
    SlotsAreApart(s);
    if e.TimerFires? {
      var s1 := s.(clock := s.clock.(timer := None, armed := s.clock.armed - {e.timer}));
      assert Inv(s1);
      FinishLosesNothing(s1, i);
    }
  }

  /** Exactly those steps lose a client, and exactly that client; what is lost stays lost. */
  lemma StepLoses(s: Call, e: Event, i: nat)
    requires Inv(s) && Enabled(s, e)
    ensures Lost(Next(s, e), i) <==> Lost(s, i) || Overwrites(s, e, i)
  {
    match e
    case UpgradeControl(start) => UpgradeLosesNothing(s, start, i);
    case DowngradeControl(start) => DowngradeLoses(s, start, i);
    case IceChange(_, _) => IceLosesNothing(s, e, i);
    case PeerLeft(start) => PeerLeftLosesNothing(s, start, i);
    case SignalingMessage(start) => CreateLosesNothing(s, start, i);
    case _ => CloseLosesNothing(s, e, i);
  }

  predicate OverwrittenIn(s: Call, events: seq<Event>, i: nat)
    requires ValidRun(s, events)
    decreases |events|
  {
    events != [] && (Overwrites(s, events[0], i) || OverwrittenIn(Next(s, events[0]), events[1..], i))
  }

  lemma {:induction false} RunLoses(s: Call, events: seq<Event>, i: nat)
    requires Inv(s) && ValidRun(s, events)
    ensures Lost(After(s, events), i) <==> Lost(s, i) || OverwrittenIn(s, events, i)
    decreases |events|
  {
    if events != [] {
      StepKeepsInv(s, events[0]);
      StepLoses(s, events[0], i);
      RunLoses(Next(s, events[0]), events[1..], i);
    }
  }

  /**
   In every run a client is current, in exactly one retained slot, or closed, if and only if no downgrade started over
   it while it was still in the slot for the retired relayed client.
   */
  lemma EveryClientIsAccountedFor(s: Call, events: seq<Event>, i: nat)
    requires Joined(s) && ValidRun(s, events) && i < |After(s, events).clients|
    ensures var s' := After(s, events);
            s'.clients[i].life.Closed? || InSlot(s'.slots, i) <==> !OverwrittenIn(s, events, i)
    ensures var t := After(s, events).slots;
            && (t.current.Some? ==> t.current != t.p2p && t.current != t.sfu)
            && (t.p2p.Some? ==> t.p2p != t.sfu)
  {
    JoinedInv(s);
    RunKeepsInv(s, events);
    RunLoses(s, events, i);
    SlotsAreApart(After(s, events));
  }

  /** Hanging up in a joined room closes a client exactly when it was not lost before. */
  lemma HangupClosesAll(s: Call, events: seq<Event>, i: nat)
    requires Joined(s) && ValidRun(s, events) && After(s, events).room.Present? && i < |After(s, events).clients|
    ensures var s' := After(s, events);
            && |Next(s', HangUp).clients| == |s'.clients|
            && (Next(s', HangUp).clients[i].life.Closed? <==> !OverwrittenIn(s, events, i))
            && Next(s', HangUp).clock.armed == {}
  {
    JoinedInv(s);
    RunKeepsInv(s, events);
    RunLoses(s, events, i);
    CloseLosesNothing(After(s, events), HangUp, i);
  }

  /** A client can be lost: relayed, direct, and relayed again before the page releases the first relayed client. */
  lemma ClientsCanBeLost()
    ensures var s := Connected(NewCall(Present), RoomSfu, None);
            var events := [SignalingMessage(Starts), DowngradeControl(Starts), UpgradeControl(Starts),
                           DowngradeControl(Starts)];
            ValidRun(s, events) && OverwrittenIn(s, events, 0)
  {
    var s0 := Connected(NewCall(Present), RoomSfu, None);
    var s1 := Next(s0, SignalingMessage(Starts));
    var s2 := Next(s1, DowngradeControl(Starts));
    var s3 := Next(s2, UpgradeControl(Starts));
    var rest := [DowngradeControl(Starts)];
    assert ValidRun(s3, rest) && OverwrittenIn(s3, rest, 0);
    var rest2 := [UpgradeControl(Starts)] + rest;
    assert rest2[1..] == rest;
    assert ValidRun(s2, rest2) && OverwrittenIn(s2, rest2, 0);
    var rest1 := [DowngradeControl(Starts)] + rest2;
    assert rest1[1..] == rest2;
    assert ValidRun(s1, rest1) && OverwrittenIn(s1, rest1, 0);
    var events := [SignalingMessage(Starts), DowngradeControl(Starts), UpgradeControl(Starts), DowngradeControl(Starts)];
    assert events[1..] == rest1;
  }

  // ---------------------------------------------------------------- reachable calls

  predicate Reaches(s: Call, events: seq<Event>, t: Call) {
    ValidRun(s, events) && t == After(s, events)
  }

  /** Some run after a join leads here, so every theorem about runs is about this call. */
  ghost predicate Reachable(t: Call) {
    exists s, events :: Joined(s) && Reaches(s, events, t)
  }

  lemma JoinedIsReachable(s: Call)
    requires Joined(s)
    ensures Reachable(s)
  {
    assert Reaches(s, [], s);
  }

  lemma {:induction false} RunGrows(s: Call, events: seq<Event>, e: Event)
    requires ValidRun(s, events) && Enabled(After(s, events), e)
    ensures ValidRun(s, events + [e]) && After(s, events + [e]) == Next(After(s, events), e)
    decreases |events|
  {
    if events == [] {
      assert events + [e] == [e];
      assert [e][1..] == [];
    } else {
      RunGrows(Next(s, events[0]), events[1..], e);
      assert (events + [e])[1..] == events[1..] + [e];
    }
  }

  lemma StepKeepsReachable(t: Call, e: Event)
    requires Enabled(t, e)
    ensures Reachable(t) ==> Reachable(Next(t, e))
  {
    if Reachable(t) {
      var s, events :| Joined(s) && Reaches(s, events, t);
      RunGrows(s, events, e);
      assert Reaches(s, events + [e], Next(t, e));
    }
  }

  lemma ReachableInv(t: Call)
    requires Reachable(t)
    ensures Inv(t)
  {
    var s, events :| Joined(s) && Reaches(s, events, t);
    ModesAgree(s, events);
  }

  /** A first join leads to a reachable call exactly when it leaves the flag in agreement with the mode. */
  lemma JoiningReachesIff(ui: Presence, joined: RoomMode, registered: Option<RoomMode>)
    ensures Reachable(Connected(NewCall(ui), joined, registered)) <==>
            (if registered.Some? then registered.value else joined).RoomSfu? || joined.RoomP2p?
  {
    var s := Connected(NewCall(ui), joined, registered);
    var room := if registered.Some? then registered.value else joined;
    JoiningAgreesIff(NewCall(ui), joined, registered);
    if room.RoomSfu? || joined.RoomP2p? {
      assert JoinedAs(s, ui, room);
      JoinedIsReachable(s);
    } else if Reachable(s) {
      ReachableInv(s);
    }
  }
}
