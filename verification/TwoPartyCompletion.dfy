/** A two-party session in which nothing is rejected completes: when it comes to rest, both sides have negotiated. */
module TwoPartyCompletion {
  import opened Options
  import opened Negotiation
  import opened NegotiationInvariants
  import opened NegotiationTheorems
  import opened NegotiationProgress
  import opened NegotiationFates
  import opened TwoPartyNegotiation

  predicate SmoothMove(m: Move) {
    match m
    case CallerMoves(e, _) => Smooth(e)
    case CalleeMoves(e, _) => Smooth(e)
    case _ => true
  }

  // ---------------------------------------------------------------- the caller

  /** A started caller has its offer on the way, or has sent it. */
  predicate CallerDue(c: Client, offers: nat) {
    c.role.Caller? ==> offers == 1 || c.task == Creating(1, Clear) || c.task == Applying(1, Accepted)
  }

  /** Once the answer is applied the caller is stable. */
  predicate CallerClosed(c: Client) {
    && (Begun(c.inbox) >= 1 || (PastReady(c.inbox) && c.inbox.drain.stage != AwaitRemote(Refused)) ==> c.signaling.Stable?)
    && (InDescription(c.inbox) && (c.inbox.drain.stage.AwaitReady? || c.inbox.drain.stage.AwaitFinally?) ==>
          c.inbox.drain.stage.outcome.Accepted?)
  }

  // ---------------------------------------------------------------- the callee

  /** Every description the callee is done with has been answered. */
  predicate CalleeDue(i: Inbox, answers: nat) {
    && answers == Begun(i) + (if InDescription(i) && i.drain.stage.AwaitFinally? then 1 else 0)
    && (InDescription(i) && (i.drain.stage.AwaitReady? || i.drain.stage.AwaitFinally?) ==>
          i.drain.stage.outcome.Accepted?)
  }

  /** The callee is stable but for the time between the offer and its answer. */
  predicate CalleeClosed(c: Client) {
    || c.signaling.Stable?
    || (InDescription(c.inbox) && (c.inbox.drain.stage.AwaitRemote? || c.inbox.drain.stage.AwaitAnswer? ||
                                   c.inbox.drain.stage == AwaitLocalAnswer(Refused)))
  }

  // ---------------------------------------------------------------- either side

  /** A client that has heard a description knows it, and drains its queue once it is started. */
  ghost predicate Attentive(c: Client) {
    Listening(c.inbox) && !Stuck(c)
  }

  ghost predicate CallerCompletes(c: Client, toCaller: seq<Message>, offers: nat) {
    CallerDue(c, offers) && CallerClosed(c) && Attentive(c) && AllQueued(toCaller)
  }

  ghost predicate CalleeCompletes(c: Client, toCallee: seq<Message>, answers: nat) {
    CalleeDue(c.inbox, answers) && CalleeClosed(c) && Attentive(c) && AllQueued(toCallee)
  }

  ghost predicate Completing(s: Session) {
    CallerCompletes(s.caller, s.toCaller, s.offers) && CalleeCompletes(s.callee, s.toCallee, s.answers)
  }

  lemma CallerOfferKeeps(c: Client, toCaller: seq<Message>, offers: nat, answers: nat, e: Event, sdp: string)
    requires CallerInv(c, toCaller, offers, answers) && Inv(c) && CallerDue(c, offers)
    requires Enabled(c, e) && OfferSide(e) && Smooth(e)
    ensures CallerDue(Step(c, e), offers + |Outgoing(e, sdp)|)
  {
  }

  lemma {:induction false} AnyMeans(ms: seq<Message>)
    ensures AnyDescription(ms) <==> Descriptions(ms) > 0
    decreases |ms|
  {
    if ms != [] {
      var init := ms[..|ms| - 1];
      AnyMeans(init);
      if AnyDescription(init) {
        var k :| 0 <= k < |init| && IsDescription(init[k]);
        assert IsDescription(ms[k]);
      }
      if AnyDescription(ms) {
        var k :| 0 <= k < |ms| && IsDescription(ms[k]);
        if k < |init| { assert IsDescription(init[k]); }
      }
    }
  }

  /** A caller that has not sent its offer has seen no description. */
  lemma CallerUnheard(c: Client, toCaller: seq<Message>, offers: nat, answers: nat)
    requires CallerInv(c, toCaller, offers, answers) && Books(c.inbox) && offers == 0
    ensures Begun(c.inbox) == 0 && !InDescription(c.inbox) && Descriptions(c.inbox.arrived) == 0
  {
    DescriptionsOfInbox(c.inbox);
  }

  lemma CallerOfferCloses(c: Client, toCaller: seq<Message>, offers: nat, answers: nat, e: Event)
    requires CallerInv(c, toCaller, offers, answers) && Books(c.inbox) && CallerClosed(c)
    requires Enabled(c, e) && OfferSide(e)
    ensures CallerClosed(Step(c, e))
  {
    OfferSideKeepsInbox(c, e);
    if offers == 0 { CallerUnheard(c, toCaller, offers, answers); }
  }

  lemma CallerNextCloses(c: Client, toCaller: seq<Message>, offers: nat, answers: nat, willing: bool)
    requires CallerInv(c, toCaller, offers, answers) && Books(c.inbox) && Shape(c.inbox) && CallerClosed(c)
    requires Enabled(c, ProcessNext(willing))
    ensures CallerClosed(ProcessSignalingMessage(c, willing))
  {
    assert c.inbox.arrived[|c.inbox.settled|] == c.inbox.drain.rest[0];
  }

  lemma CallerMiddleCloses(c: Client, toCaller: seq<Message>, offers: nat, answers: nat, e: Event)
    requires CallerInv(c, toCaller, offers, answers) && Books(c.inbox) && Shape(c.inbox) && CallerClosed(c)
    requires Enabled(c, e) && MiddleSide(e) && Smooth(e)
    ensures CallerClosed(Step(c, e))
  {
    assert c.inbox.arrived[|c.inbox.settled|] == c.inbox.drain.current;
  }

  lemma CallerEndCloses(c: Client, e: Event)
    requires Shape(c.inbox) && CallerClosed(c) && Peaceful(c) && Enabled(c, e) && ClosingSide(e) && Smooth(e)
    ensures CallerClosed(Step(c, e))
  {
    if !e.BatchStep? { DescriptionsInAppend(c.inbox.settled, Settled(c.inbox.drain.current, Processed)); }
  }

  lemma CallerStepCompletes(c: Client, toCaller: seq<Message>, offers: nat, answers: nat, e: Event, sdp: string)
    requires CallerInv(c, toCaller, offers, answers) && Inv(c) && CallerDue(c, offers) && CallerClosed(c)
    requires Enabled(c, e) && !ArrivalSide(e) && Smooth(e)
    ensures CallerDue(Step(c, e), offers + |Outgoing(e, sdp)|) && CallerClosed(Step(c, e))
  {
    if OfferSide(e) {
      CallerOfferKeeps(c, toCaller, offers, answers, e, sdp);
      CallerOfferCloses(c, toCaller, offers, answers, e);
    } else {
      CallerStepKeeps(c, toCaller, offers, answers, e, sdp);
      CallerTaskStays(c, e);
      if MiddleSide(e) { CallerMiddleCloses(c, toCaller, offers, answers, e); }
      else if ClosingSide(e) { CallerEndCloses(c, e); }
      else { CallerNextCloses(c, toCaller, offers, answers, e.willing); }
    }
  }

  lemma CallerTaskStays(c: Client, e: Event)
    requires Peaceful(c) && Enabled(c, e) && !OfferSide(e) && !ArrivalSide(e)
    ensures Step(c, e).task == c.task && Step(c, e).role == c.role
  {
  }

  // ---------------------------------------------------------------- the callee's steps

  lemma CalleeNextCompletes(c: Client, toCallee: seq<Message>, offers: nat, answers: nat, willing: bool)
    requires CalleeInv(c, toCallee, offers, answers) && Books(c.inbox) && Shape(c.inbox)
    requires CalleeDue(c.inbox, answers) && CalleeClosed(c) && Enabled(c, ProcessNext(willing))
    ensures CalleeDue(ProcessSignalingMessage(c, willing).inbox, answers) && CalleeClosed(ProcessSignalingMessage(c, willing))
  {
    assert c.inbox.arrived[|c.inbox.settled|] == c.inbox.drain.rest[0];
  }

  lemma CalleeMiddleCompletes(c: Client, toCallee: seq<Message>, offers: nat, answers: nat, e: Event, sdp: string)
    requires CalleeInv(c, toCallee, offers, answers) && Books(c.inbox) && Shape(c.inbox)
    requires CalleeDue(c.inbox, answers) && CalleeClosed(c) && Enabled(c, e) && MiddleSide(e) && Smooth(e)
    ensures CalleeDue(Step(c, e).inbox, answers + |Outgoing(e, sdp)|) && CalleeClosed(Step(c, e))
  {
    assert c.inbox.arrived[|c.inbox.settled|] == c.inbox.drain.current;
  }

  lemma CalleeEndCompletes(c: Client, answers: nat, e: Event)
    requires CalleeDue(c.inbox, answers) && CalleeClosed(c) && Peaceful(c) && Shape(c.inbox)
    requires Enabled(c, e) && ClosingSide(e) && Smooth(e)
    ensures CalleeDue(Step(c, e).inbox, answers) && CalleeClosed(Step(c, e))
  {
    if !e.BatchStep? { DescriptionsInAppend(c.inbox.settled, Settled(c.inbox.drain.current, Processed)); }
  }

  lemma CalleeStepCompletes(c: Client, toCallee: seq<Message>, offers: nat, answers: nat, e: Event, sdp: string)
    requires CalleeInv(c, toCallee, offers, answers) && Inv(c) && CalleeDue(c.inbox, answers) && CalleeClosed(c)
    requires Enabled(c, e) && !ArrivalSide(e) && !e.CallerStarts? && Smooth(e)
    ensures CalleeDue(Step(c, e).inbox, answers + |Outgoing(e, sdp)|) && CalleeClosed(Step(c, e))
  {
    if OfferSide(e) { CalleeOfferSide(c, toCallee, offers, answers, e); }
    else if MiddleSide(e) { CalleeMiddleCompletes(c, toCallee, offers, answers, e, sdp); }
    else if ClosingSide(e) { CalleeEndCompletes(c, answers, e); }
    else { CalleeNextCompletes(c, toCallee, offers, answers, e.willing); }
  }

  // ---------------------------------------------------------------- arrivals

  lemma StepKeepsAttentive(c: Client, e: Event)
    requires Attentive(c) && Enabled(c, e)
    requires BlindStart(e) && c.role.NotStarted? ==> c.inbox.hasRemoteSdp.Off?
    ensures Attentive(Step(c, e))
  {
    StepBrings(c, e);
    OnlyBlindStartsStrandMessages(c, e);
  }

  lemma CallerStartIsNotBlind(c: Client, toCaller: seq<Message>, offers: nat, answers: nat)
    requires CallerInv(c, toCaller, offers, answers) && Books(c.inbox) && Listening(c.inbox) && c.role.NotStarted?
    ensures c.inbox.hasRemoteSdp.Off?
  {
    CallerUnheard(c, toCaller, offers, answers);
    AnyMeans(c.inbox.arrived);
  }

  /** Messages arrive without disturbing what is in progress. */
  lemma HearingDisturbsNothing(c: Client, i: Inbox, offers: nat, answers: nat)
    requires i.settled == c.inbox.settled && (i.drain == c.inbox.drain || (c.inbox.drain.Idle? && i.drain.Between?))
    ensures CallerDue(c, offers) ==> CallerDue(c.(inbox := i), offers)
    ensures CallerClosed(c) ==> CallerClosed(c.(inbox := i))
    ensures CalleeDue(c.inbox, answers) ==> CalleeDue(i, answers)
    ensures CalleeClosed(c) ==> CalleeClosed(c.(inbox := i))
  {
  }

  lemma ReceiveDisturbsNothing(c: Client, m: Message, offers: nat, answers: nat)
    ensures var c' := ReceiveSignalingMessage(c, m);
            && (CallerDue(c, offers) ==> CallerDue(c', offers)) && (CallerClosed(c) ==> CallerClosed(c'))
            && (CalleeDue(c.inbox, answers) ==> CalleeDue(c'.inbox, answers)) && (CalleeClosed(c) ==> CalleeClosed(c'))
  {
    ReceiveKeepsBusy(c.role, c.inbox, m);
    HearingDisturbsNothing(c, Receive(c.role, c.inbox, m), offers, answers);
  }

  lemma StartDisturbsNothing(c: Client, ms: seq<Message>, answers: nat)
    requires CalleeDue(c.inbox, answers) && CalleeClosed(c) && c.role.NotStarted?
    ensures CalleeDue(StartAsCallee(c, ms).inbox, answers) && CalleeClosed(StartAsCallee(c, ms))
  {
    ReceiveAllKeepsBusy(c.inbox, ms);
    ReceiveAllKeepsSettled(c.inbox, ms);
    HearingDisturbsNothing(c, StartAsCallee(c, ms).inbox, 0, answers);
  }

  // ---------------------------------------------------------------- the session

  lemma CallerMoveCompletes(c: Client, toCaller: seq<Message>, offers: nat, answers: nat, e: Event, sdp: string)
    requires CallerInv(c, toCaller, offers, answers) && Inv(c) && CallerCompletes(c, toCaller, offers)
    requires Enabled(c, e) && !ArrivalSide(e) && Smooth(e)
    ensures CallerCompletes(Step(c, e), toCaller, offers + |Outgoing(e, sdp)|)
  {
    CallerStepCompletes(c, toCaller, offers, answers, e, sdp);
    if e.CallerStarts? && c.role.NotStarted? { CallerStartIsNotBlind(c, toCaller, offers, answers); }
    StepKeepsAttentive(c, e);
  }

  lemma CalleeMoveCompletes(c: Client, toCallee: seq<Message>, offers: nat, answers: nat, e: Event, sdp: string)
    requires CalleeInv(c, toCallee, offers, answers) && Inv(c) && CalleeCompletes(c, toCallee, answers)
    requires Enabled(c, e) && !ArrivalSide(e) && !e.CallerStarts? && Smooth(e)
    ensures CalleeCompletes(Step(c, e), toCallee, answers + |Outgoing(e, sdp)|)
  {
    CalleeStepCompletes(c, toCallee, offers, answers, e, sdp);
    StepKeepsAttentive(c, e);
  }

  lemma CallerHearingCompletes(c: Client, toCaller: seq<Message>, offers: nat)
    requires CallerCompletes(c, toCaller, offers) && toCaller != []
    ensures CallerCompletes(ReceiveSignalingMessage(c, toCaller[0]), toCaller[1..], offers)
  {
    ReceiveDisturbsNothing(c, toCaller[0], offers, 0);
    StepKeepsAttentive(c, Receives(toCaller[0]));
  }

  lemma CalleeHearingCompletes(c: Client, toCallee: seq<Message>, answers: nat)
    requires CalleeCompletes(c, toCallee, answers) && toCallee != []
    ensures CalleeCompletes(ReceiveSignalingMessage(c, toCallee[0]), toCallee[1..], answers)
  {
    ReceiveDisturbsNothing(c, toCallee[0], 0, answers);
    StepKeepsAttentive(c, Receives(toCallee[0]));
  }

  lemma BeginningCompletes(c: Client, ms: seq<Message>, rest: seq<Message>, answers: nat)
    requires CalleeCompletes(c, ms + rest, answers)
    ensures CalleeCompletes(StartAsCallee(c, ms), if c.role.NotStarted? then rest else ms + rest, answers)
  {
    if ms != [] { assert IsQueued((ms + rest)[0]) && ms[0] == (ms + rest)[0]; }
    forall k | 0 <= k < |rest| ensures IsQueued(rest[k]) { assert rest[k] == (ms + rest)[|ms| + k]; }
    StepKeepsAttentive(c, CalleeStarts(ms));
    if c.role.NotStarted? { StartDisturbsNothing(c, ms, answers); }
  }

  lemma ChannelGrows(channel: seq<Message>, more: seq<Message>)
    requires AllQueued(channel) && AllQueued(more)
    ensures AllQueued(channel + more)
  {
  }

  lemma OwnMoveCompletes(s: Session, m: Move)
    requires SessionInv(s) && Completing(s) && CanMove(s, m) && SmoothMove(m) && (m.CallerMoves? || m.CalleeMoves?)
    ensures Completing(MoveOn(s, m))
  {
    if m.CallerMoves? {
      CallerMoveCompletes(s.caller, s.toCaller, s.offers, s.answers, m.event, m.sdp);
      ChannelGrows(s.toCallee, Outgoing(m.event, m.sdp));
    } else {
      CalleeMoveCompletes(s.callee, s.toCallee, s.offers, s.answers, m.event, m.sdp);
      ChannelGrows(s.toCaller, Outgoing(m.event, m.sdp));
    }
  }

  lemma ChannelMoveCompletes(s: Session, m: Move)
    requires Completing(s) && CanMove(s, m) && !m.CallerMoves? && !m.CalleeMoves?
    ensures Completing(MoveOn(s, m))
  {
    match m
    case CallerHears => CallerHearingCompletes(s.caller, s.toCaller, s.offers);
    case CalleeHears => CalleeHearingCompletes(s.callee, s.toCallee, s.answers);
    case CalleeBegins(heard) =>
      assert s.toCallee[..heard] + s.toCallee[heard..] == s.toCallee;
      BeginningCompletes(s.callee, s.toCallee[..heard], s.toCallee[heard..], s.answers);
    case CallerTrickles(c) => ChannelGrows(s.toCallee, [c]);
    case CalleeTrickles(c) => ChannelGrows(s.toCaller, [c]);
  }

  lemma MoveCompletes(s: Session, m: Move)
    requires SessionInv(s) && Completing(s) && CanMove(s, m) && SmoothMove(m)
    ensures Completing(MoveOn(s, m))
  {
    if m.CallerMoves? || m.CalleeMoves? { OwnMoveCompletes(s, m); } else { ChannelMoveCompletes(s, m); }
  }

  lemma {:induction false} PlayCompletes(s: Session, ms: seq<Move>)
    requires SessionInv(s) && Completing(s) && ValidMoves(s, ms) && forall k | 0 <= k < |ms| :: SmoothMove(ms[k])
    ensures SessionInv(Played(s, ms)) && Completing(Played(s, ms))
    decreases |ms|
  {
    if ms != [] {
      MoveKeepsSession(s, ms[0]);
      MoveCompletes(s, ms[0]);
      PlayCompletes(MoveOn(s, ms[0]), ms[1..]);
    }
  }

  lemma OpeningCompletes()
    ensures Completing(Opening())
  {
  }

  /** A started client at rest has settled all that arrived, or has heard no description. */
  lemma RestIsDone(c: Client)
    requires Attentive(c) && Books(c.inbox) && AtRest(c) && !c.role.NotStarted?
    ensures Descriptions(c.inbox.arrived) > 0 ==> Begun(c.inbox) == Descriptions(c.inbox.arrived)
  {
    AnyMeans(c.inbox.arrived);
    DescriptionsOfInbox(c.inbox);
  }

  lemma RestCompletes(s: Session)
    requires SessionInv(s) && Completing(s) && AtRest(s.caller) && AtRest(s.callee) && s.toCaller == [] && s.toCallee == []
    requires s.caller.role.Caller? && s.callee.role.Callee?
    ensures s.offers == 1 && s.answers == 1 && s.caller.signaling.Stable? && s.callee.signaling.Stable?
  {
    RestIsDone(s.callee);
    RestIsDone(s.caller);
  }

  /**
   Over FIFO channels, every interleaving of a fresh P2P caller and callee in which nothing is rejected and that comes
   to rest with both started and both channels empty has completed: one offer was sent, one answer came back, and both
   sides are stable.
   */
  lemma TwoPartiesComplete(ms: seq<Move>)
    requires ValidMoves(Opening(), ms) && forall k | 0 <= k < |ms| :: SmoothMove(ms[k])
    requires var s := Played(Opening(), ms);
             && AtRest(s.caller) && AtRest(s.callee) && s.toCaller == [] && s.toCallee == []
             && s.caller.role.Caller? && s.callee.role.Callee?
    ensures var s := Played(Opening(), ms);
            s.offers == 1 && s.answers == 1 && s.caller.signaling.Stable? && s.callee.signaling.Stable?
  {
    OpeningInv();
    OpeningCompletes();
    PlayCompletes(Opening(), ms);
    RestCompletes(Played(Opening(), ms));
  }
}
