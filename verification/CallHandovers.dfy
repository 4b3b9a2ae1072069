/**
 What each event does to the clients of a call: which it creates, closes, silences and retains, and where it leaves the
 mode. Nothing here speaks of how the transitions are composed.
 */
module CallHandovers {
  import opened Options
  import opened CallMode
  import opened CallModeTheorems

  // ---------------------------------------------------------------- the handovers

  /** The event takes the call from the direct to the relayed leg, or back. */
  predicate Upgrades(s: Call, e: Event) { e.UpgradeControl? && s.leg.Direct? }
  predicate Downgrades(s: Call, e: Event) { e.DowngradeControl? && s.leg.Relayed? }

  /** The current client's ICE has come up. */
  predicate ComesUp(s: Call, e: Event) { e.IceChange? && e.ice.Up? && s.slots.current == Some(e.client) }

  predicate Ends(s: Call, e: Event) { e.HangUp? && s.room.Present? }

  /** A downgrade completes and no page is there to release the retained client. */
  predicate Abandons(s: Call, e: Event) { Completes(s, e) && s.ui.Absent? }

  // ---------------------------------------------------------------- creation

  /** The event asks for a new current client. */
  predicate Attempts(s: Call, e: Event) {
    || Upgrades(s, e)
    || Downgrades(s, e)
    || (e.PeerLeft? && !s.creation.Rejected?)
    || (e.SignalingMessage? && s.creation.Unset?)
  }

  predicate Throws(e: Event) {
    (e.UpgradeControl? || e.DowngradeControl? || e.PeerLeft? || e.SignalingMessage?) && e.start.CreationThrows?
  }

  predicate Creates(s: Call, e: Event) { Attempts(s, e) && !Throws(e) }

  /** The client an event creates, given the leg and the mode it is created in. */
  predicate IsNew(c: PcClient, leg: Kind, downgrading: bool) {
    && c.kind == leg && c.ice.Down? && c.life.Open?
    && (c.handler.SfuHandler? <==> leg.Relayed?)
    && (c.handler.DowngradeHandler? <==> leg.Direct? && downgrading)
    && !c.handler.Silenced?
  }

  /** A new client is the last and the current one, of the leg the event leaves; nothing else adds or removes any. */
  predicate MakesItsClient(s: Call, e: Event, s': Call) {
    && |s'.clients| == |s.clients| + (if Creates(s, e) then 1 else 0)
    && s'.slots.current ==
       (if Creates(s, e) then Some(|s.clients|)
        else if Attempts(s, e) || Ends(s, e) then None
        else s.slots.current)
    && (Creates(s, e) ==>
          IsNew(s'.clients[|s.clients|], s'.leg, s'.mode.Downgrading? || e.DowngradeControl?))
    && s'.creation ==
       (if Creates(s, e) then Resolved
        else if Attempts(s, e) then Rejected
        else if Ends(s, e) && s.slots.current.Some? then Unset
        else s.creation)
  }

  lemma ControlCreates(s: Call, e: Event)
    requires Inv(s) && (e.UpgradeControl? || e.DowngradeControl?)
    ensures MakesItsClient(s, e, Next(s, e))
  {
  }

  lemma StepCreates(s: Call, e: Event)
    requires Inv(s) && Enabled(s, e)
    ensures MakesItsClient(s, e, Next(s, e))
  {
    if e.UpgradeControl? || e.DowngradeControl? { ControlCreates(s, e); }
    if e.IceChange? && s.slots.current != Some(e.client) { OtherClientsAreHarmless(s, e.client, e.ice); }
  }

  // ---------------------------------------------------------------- the rest of a client's life

  predicate ClosedAt(clients: seq<PcClient>, i: nat) {
    i < |clients| && clients[i].life.Closed?
  }

  /** The event closes this client. */
  predicate Closes(s: Call, e: Event, i: nat) {
    || (s.slots.current == Some(i) && (e.PeerLeft? || Ends(s, e) || (Downgrades(s, e) && Abandons(s, e))))
    || (s.slots.p2p == Some(i) && (Downgrades(s, e) || ComesUp(s, e) || Ends(s, e)))
    || (s.slots.sfu == Some(i) &&
          (e.ReleaseRequest? || Ends(s, e) || (!Downgrades(s, e) && Abandons(s, e))))
  }

  /** What the event makes of this client. */
  predicate LivesOn(s: Call, e: Event, i: nat, c: PcClient, c': PcClient) {
    && (c'.life.Closed? <==> c.life.Closed? || Closes(s, e, i))
    && c'.kind == c.kind
    && c'.handler == (if Downgrades(s, e) && s.slots.current == Some(i) then Silenced else c.handler)
    && c'.ice == (if e.IceChange? && e.client == i then e.ice else c.ice)
  }

  lemma HandoverCloses(s: Call, i: nat)
    requires Inv(s) && s.leg.Relayed? && i < |s.clients|
    ensures var c := s.clients[i];
            var h := DowngradeHandover(s).clients;
            && |h| == |s.clients|
            && h[i] == PcClient(c.kind, if s.slots.current == Some(i) then Silenced else c.handler, c.ice,
                                if s.slots.p2p == Some(i) then Closed else c.life)
  {
    SlotsAreApart(s);
  }

  lemma DowngradeCloses(s: Call, e: Event, i: nat)
    requires Inv(s) && Downgrades(s, e) && i < |s.clients| && |s.clients| <= |Next(s, e).clients|
    ensures LivesOn(s, e, i, s.clients[i], Next(s, e).clients[i])
  {
    HandoverCloses(s, i);
    SlotsAreApart(s);
  }

  lemma IceCloses(s: Call, e: Event, i: nat)
    requires Inv(s) && e.IceChange? && Enabled(s, e) && i < |s.clients| && |s.clients| <= |Next(s, e).clients|
    ensures LivesOn(s, e, i, s.clients[i], Next(s, e).clients[i])
  {
    SlotsAreApart(s);
    if s.slots.current != Some(e.client) { OtherClientsAreHarmless(s, e.client, e.ice); }
  }

  lemma EndingCloses(s: Call, e: Event, i: nat)
    requires Inv(s) && Enabled(s, e) && (e.TimerFires? || e.ReleaseRequest? || e.HangUp?)
    requires i < |s.clients| && |s.clients| <= |Next(s, e).clients|
    ensures LivesOn(s, e, i, s.clients[i], Next(s, e).clients[i])
  {
    SlotsAreApart(s);
  }

  lemma OtherEventCloses(s: Call, e: Event, i: nat)
    requires Inv(s) && Enabled(s, e) && !Downgrades(s, e)
    requires !e.IceChange? && !e.TimerFires? && !e.ReleaseRequest? && !e.HangUp?
    requires i < |s.clients| && |s.clients| <= |Next(s, e).clients|
    ensures LivesOn(s, e, i, s.clients[i], Next(s, e).clients[i])
  {
    SlotsAreApart(s);
  }

  /**
   A client is closed exactly by those events, silenced exactly when a downgrade retires it, has the ICE state the
   browser last reported, and never changes its kind.
   */
  lemma StepCloses(s: Call, e: Event, i: nat)
    requires Inv(s) && Enabled(s, e) && i < |s.clients|
    ensures |s.clients| <= |Next(s, e).clients| && LivesOn(s, e, i, s.clients[i], Next(s, e).clients[i])
  {
    StepCreates(s, e);
    if Downgrades(s, e) {
      DowngradeCloses(s, e, i);
    } else if e.IceChange? {
      IceCloses(s, e, i);
    } else if e.TimerFires? || e.ReleaseRequest? || e.HangUp? {
      EndingCloses(s, e, i);
    } else {
      OtherEventCloses(s, e, i);
    }
  }

  // ---------------------------------------------------------------- the retained clients

  /**
   An upgrade retains the direct client until the relayed one is up; a downgrade retains the relayed client until the
   page releases it. Nothing else touches the two slots.
   */
  lemma StepRetains(s: Call, e: Event)
    requires Inv(s) && Enabled(s, e)
    ensures var t, t' := s.slots, Next(s, e).slots;
            && t'.p2p == (if Upgrades(s, e) then t.current
                          else if Downgrades(s, e) || ComesUp(s, e) || Ends(s, e) then None
                          else t.p2p)
            && t'.sfu == (if Abandons(s, e) || Ends(s, e) || e.ReleaseRequest? then None
                          else if Downgrades(s, e) then t.current
                          else t.sfu)
  {
    if e.IceChange? && s.slots.current != Some(e.client) { OtherClientsAreHarmless(s, e.client, e.ice); }
  }

  /** Where an event leaves the mode, and with it `sfuMode`. */
  lemma StepLeads(s: Call, e: Event)
    requires Inv(s) && Enabled(s, e)
    ensures var s' := Next(s, e);
            && s'.mode == (if Upgrades(s, e) then Upgrading
                           else if Completes(s, e) then P2p
                           else if Downgrades(s, e) then Downgrading
                           else if ComesUp(s, e) && s.leg.Relayed? then Sfu
                           else s.mode)
            && s'.leg == (if Upgrades(s, e) then Relayed else if Downgrades(s, e) then Direct else s.leg)
            && s'.clock.started == s.clock.started + (if Downgrades(s, e) then 1 else 0)
            && s'.room == (if e.LeaveSettled? then Absent else s.room)
            && s'.ui == s.ui
            && (!e.FrameReady? ==> s'.frames == s.frames)
  {
    if e.IceChange? && s.slots.current != Some(e.client) { OtherClientsAreHarmless(s, e.client, e.ice); }
  }

  // ---------------------------------------------------------------- the handovers in every run

  /** The first client after a join is relayed, in mode upgrading, exactly in a relayed room. */
  lemma FirstClientFits(ui: Presence, room: RoomMode, registered: Option<RoomMode>)
    requires registered.Some? ==> registered.value == room
    ensures var s := Connected(NewCall(ui), room, registered);
            var s' := Next(s, SignalingMessage(Starts));
            && Joined(s) && s.room.Present?
            && s'.mode == (if room.RoomSfu? then Upgrading else P2p)
            && s'.clients == [if room.RoomSfu? then PcClient(Relayed, SfuHandler, Down, Open)
                              else PcClient(Direct, Plain, Down, Open)]
            && s'.slots == Slots(Some(0), None, None)
  {
    assert JoinedAs(Connected(NewCall(ui), room, registered), ui, room);
  }

  /**
   In every run, an upgrade of a direct call makes a relayed client current and keeps the old one, open, beside it; only
   a client that could not be made leaves none current. On a relayed leg the control does nothing.
   */
  lemma UpgradeHandsOver(s: Call, events: seq<Event>, start: Start)
    requires Joined(s) && ValidRun(s, events)
    ensures var t, t' := After(s, events), Next(After(s, events), UpgradeControl(start));
            if t.leg.Relayed? then t' == t
            else
              && t'.mode.Upgrading? && t'.leg.Relayed?
              && t'.slots ==
                 Slots(if start.CreationThrows? then None else Some(|t.clients|), t.slots.current, t.slots.sfu)
              && t'.clients ==
                 t.clients + (if start.CreationThrows? then [] else [PcClient(Relayed, SfuHandler, Down, Open)])
              && t'.creation == (if start.CreationThrows? then Rejected else Resolved)
              && t'.clock == t.clock
  {
    ModesAgree(s, events);
  }

  /**
   In every run, a downgrade of a relayed call makes a direct client current and retains the old one, silenced, in the
   slot of the retired client; the direct client an unfinished upgrade kept is closed. If the new client cannot be made
   or started, the downgrade completes at once, and without a page the retired client is closed too.
   */
  lemma DowngradeHandsOver(s: Call, events: seq<Event>, start: Start)
    requires Joined(s) && ValidRun(s, events)
    ensures var t, t' := After(s, events), Next(After(s, events), DowngradeControl(start));
            var kept := start.Starts? || t.ui.Present?;
            if t.leg.Direct? then t' == t
            else
              && t'.mode == (if start.Starts? then Downgrading else P2p) && t'.leg.Direct?
              && t'.slots == Slots(if start.CreationThrows? then None else Some(|t.clients|), None,
                                   if kept then t.slots.current else None)
              && |t'.clients| == |t.clients| + (if start.CreationThrows? then 0 else 1)
              && (!start.CreationThrows? ==> t'.clients[|t.clients|] == PcClient(Direct, DowngradeHandler, Down, Open))
              && (t.slots.p2p.Some? ==> ClosedAt(t'.clients, t.slots.p2p.value))
              && (t.slots.current.Some? ==>
                    && t.slots.current.value < |t.clients|
                    && t'.clients[t.slots.current.value].handler.Silenced?
                    && (t'.clients[t.slots.current.value].life.Open? <==> kept))
  {
    ModesAgree(s, events);
    var t := After(s, events);
    var e := DowngradeControl(start);
    StepCreates(t, e);
    StepRetains(t, e);
    StepLeads(t, e);
    if t.slots.p2p.Some? { StepCloses(t, e, t.slots.p2p.value); }
    if t.slots.current.Some? { SlotsAreApart(t); StepCloses(t, e, t.slots.current.value); }
  }

  /**
   In every run, the peer leaving closes the current client and makes a new one current, of the same leg. Without a
   current client one is made unless an attempt has failed, as it is for an arriving message.
   */
  lemma PeerLeftReplaces(s: Call, events: seq<Event>, start: Start)
    requires Joined(s) && ValidRun(s, events)
    ensures var t, t' := After(s, events), Next(After(s, events), PeerLeft(start));
            && (t.slots.current.Some? ==>
                  && ClosedAt(t'.clients, t.slots.current.value)
                  && t'.slots == t.slots.(current := if start.CreationThrows? then None else Some(|t.clients|)))
            && (t.slots.current.None? ==> t' == Next(t, SignalingMessage(start)))
            && (t'.slots.current == Some(|t.clients|) <==> !t.creation.Rejected? && !start.CreationThrows?)
            && (t'.slots.current.Some? ==>
                  t'.slots.current.value < |t'.clients| && t'.clients[t'.slots.current.value].kind == t.leg)
            && t'.mode == t.mode && t'.leg == t.leg
  {
    ModesAgree(s, events);
    var t := After(s, events);
    var e := PeerLeft(start);
    StepCreates(t, e);
    StepRetains(t, e);
    StepLeads(t, e);
    if t.slots.current.Some? { StepCloses(t, e, t.slots.current.value); }
  }

  // ---------------------------------------------------------------- the life of a client

  predicate ClosedIn(s: Call, events: seq<Event>, i: nat)
    requires ValidRun(s, events)
    decreases |events|
  {
    events != [] && (Closes(s, events[0], i) || ClosedIn(Next(s, events[0]), events[1..], i))
  }

  function CreatedIn(s: Call, events: seq<Event>): nat
    requires ValidRun(s, events)
    decreases |events|
  {
    if events == [] then 0
    else (if Creates(s, events[0]) then 1 else 0) + CreatedIn(Next(s, events[0]), events[1..])
  }

  lemma {:induction false} RunCreates(s: Call, events: seq<Event>)
    requires Inv(s) && ValidRun(s, events)
    ensures |After(s, events).clients| == |s.clients| + CreatedIn(s, events)
    decreases |events|
  {
    if events != [] {
      StepKeepsInv(s, events[0]);
      StepCreates(s, events[0]);
      RunCreates(Next(s, events[0]), events[1..]);
    }
  }

  /** No event closes a client that is not there. */
  lemma ClosesItsOwn(s: Call, e: Event, i: nat)
    requires Inv(s) && Closes(s, e, i)
    ensures i < |s.clients|
  {
  }

  lemma StepClosesIff(s: Call, e: Event, i: nat)
    requires Inv(s) && Enabled(s, e)
    ensures ClosedAt(Next(s, e).clients, i) <==> ClosedAt(s.clients, i) || Closes(s, e, i)
  {
    if i < |s.clients| {
      StepCloses(s, e, i);
    } else {
      StepCreates(s, e);
      if Closes(s, e, i) { ClosesItsOwn(s, e, i); }
    }
  }

  lemma {:induction false} RunCloses(s: Call, events: seq<Event>, i: nat)
    requires Inv(s) && ValidRun(s, events)
    ensures ClosedAt(After(s, events).clients, i) <==> ClosedAt(s.clients, i) || ClosedIn(s, events, i)
    decreases |events|
  {
    if events != [] {
      StepKeepsInv(s, events[0]);
      StepClosesIff(s, events[0], i);
      RunCloses(Next(s, events[0]), events[1..], i);
    }
  }

  /** In every run there are as many clients as events that made one, and one is closed exactly if an event closed it. */
  lemma ClientsLiveUntilClosed(s: Call, events: seq<Event>, i: nat)
    requires Joined(s) && ValidRun(s, events)
    ensures |After(s, events).clients| == CreatedIn(s, events)
    ensures ClosedAt(After(s, events).clients, i) <==> ClosedIn(s, events, i)
  {
    JoinedInv(s);
    RunCreates(s, events);
    RunCloses(s, events, i);
  }

  // ---------------------------------------------------------------- make before break

  /** The relayed client is up, or the upgrade is given up. */
  predicate LetsDirectGo(s: Call, e: Event) { ComesUp(s, e) || Downgrades(s, e) || Ends(s, e) }

  predicate DirectLetGoIn(s: Call, events: seq<Event>)
    requires ValidRun(s, events)
    decreases |events|
  {
    events != [] && (LetsDirectGo(s, events[0]) || DirectLetGoIn(Next(s, events[0]), events[1..]))
  }

  /** The page releases the retired client, or there is no page, or the user hangs up. */
  predicate LetsRelayedGo(s: Call, e: Event) {
    e.ReleaseRequest? || Ends(s, e) || (!Downgrades(s, e) && Abandons(s, e))
  }

  /** Some event does so before another downgrade takes the slot. */
  predicate RelayedLetGoIn(s: Call, events: seq<Event>)
    requires ValidRun(s, events)
    decreases |events|
  {
    events != [] &&
    (LetsRelayedGo(s, events[0]) || (!Downgrades(s, events[0]) && RelayedLetGoIn(Next(s, events[0]), events[1..])))
  }

  lemma ClosedStaysClosed(s: Call, events: seq<Event>, i: nat)
    requires Inv(s) && ValidRun(s, events) && ClosedAt(s.clients, i)
    ensures ClosedAt(After(s, events).clients, i)
  {
    RunCloses(s, events, i);
  }

  lemma {:induction false} DirectIsKept(s: Call, events: seq<Event>, i: nat)
    requires Inv(s) && ValidRun(s, events) && s.slots.p2p == Some(i)
    ensures ClosedAt(After(s, events).clients, i) <==> DirectLetGoIn(s, events)
    ensures !DirectLetGoIn(s, events) ==> After(s, events).slots.p2p == Some(i)
    decreases |events|
  {
    if events != [] {
      var e := events[0];
      StepKeepsInv(s, e);
      StepRetains(s, e);
      StepCloses(s, e, i);
      if LetsDirectGo(s, e) {
        ClosedStaysClosed(Next(s, e), events[1..], i);
      } else {
        DirectIsKept(Next(s, e), events[1..], i);
      }
    }
  }

  lemma {:induction false} LostStaysOpen(s: Call, events: seq<Event>, i: nat)
    requires Inv(s) && ValidRun(s, events) && Lost(s, i)
    ensures !ClosedAt(After(s, events).clients, i)
  {
    RunLoses(s, events, i);
  }

  lemma {:induction false} RelayedIsKept(s: Call, events: seq<Event>, i: nat)
    requires Inv(s) && ValidRun(s, events) && s.slots.sfu == Some(i)
    ensures ClosedAt(After(s, events).clients, i) <==> RelayedLetGoIn(s, events)
    decreases |events|
  {
    if events != [] {
      var e := events[0];
      StepKeepsInv(s, e);
      StepRetains(s, e);
      StepCloses(s, e, i);
      SlotsAreApart(s);
      if LetsRelayedGo(s, e) {
        ClosedStaysClosed(Next(s, e), events[1..], i);
      } else if Downgrades(s, e) {
        StepLoses(s, e, i);
        LostStaysOpen(Next(s, e), events[1..], i);
      } else {
        RelayedIsKept(Next(s, e), events[1..], i);
      }
    }
  }

  /**
   Make before break: in every run, the direct client an upgrade hands over is closed exactly when, later on, the relayed
   client comes up, the call is downgraded again, or the user hangs up. Until then it keeps its slot.
   */
  lemma DirectOutlivesTheUpgradeIff(s: Call, events: seq<Event>, start: Start, more: seq<Event>)
    requires Joined(s) && ValidRun(s, events) && ValidRun(Next(After(s, events), UpgradeControl(start)), more)
    requires After(s, events).leg.Direct? && After(s, events).slots.current.Some?
    ensures var t := After(s, events);
            var t' := Next(t, UpgradeControl(start));
            && (ClosedAt(After(t', more).clients, t.slots.current.value) <==> DirectLetGoIn(t', more))
            && (!DirectLetGoIn(t', more) ==> After(t', more).slots.p2p == t.slots.current)
  {
    ModesAgree(s, events);
    StepKeepsInv(After(s, events), UpgradeControl(start));
    UpgradeHandsOver(s, events, start);
    DirectIsKept(Next(After(s, events), UpgradeControl(start)), more, After(s, events).slots.current.value);
  }

  /**
   In every run, the relayed client a downgrade retires is closed exactly when, later on and before the next downgrade,
   the page releases it, the downgrade completes without a page, or the user hangs up.
   */
  lemma RelayedOutlivesTheDowngradeIff(s: Call, events: seq<Event>, more: seq<Event>)
    requires Joined(s) && ValidRun(s, events) && ValidRun(Next(After(s, events), DowngradeControl(Starts)), more)
    requires After(s, events).leg.Relayed? && After(s, events).slots.current.Some?
    ensures var t := After(s, events);
            var t' := Next(t, DowngradeControl(Starts));
            ClosedAt(After(t', more).clients, t.slots.current.value) <==> RelayedLetGoIn(t', more)
  {
    ModesAgree(s, events);
    StepKeepsInv(After(s, events), DowngradeControl(Starts));
    DowngradeHandsOver(s, events, Starts);
    RelayedIsKept(Next(After(s, events), DowngradeControl(Starts)), more, After(s, events).slots.current.value);
  }
}
