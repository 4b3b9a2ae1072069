/**
 A fresh caller and a fresh callee in P2P mode, joined by two FIFO channels. Either side may take any of its steps at
 any time, promises settle in any way, and candidates are trickled whenever the browser finds them.
 */
module TwoPartyNegotiation {
  import opened Options
  import opened Negotiation
  import opened NegotiationInvariants

  /** Both clients, both channels, and how many offers and answers were ever put on them. */
  datatype Session = Session(
    caller: Client,
    callee: Client,
    toCallee: seq<Message>,
    toCaller: seq<Message>,
    offers: nat,
    answers: nat)

  function Opening(): Session {
    Session(Fresh(P2p), Fresh(P2p), [], [], 0, 0)
  }

  /** What a step of a client puts on its outgoing channel, with the SDP the browser wrote. */
  function Outgoing(e: Event, sdp: string): seq<Message> {
    match e
    case OfferAppliedStep(ok) => if ok then [Offer(sdp, None)] else []
    case LocalAnswerStep(ok) => if ok then [Answer(sdp)] else []
    case _ => []
  }

  datatype Move =
    | CallerMoves(event: Event, sdp: string)
    | CalleeMoves(event: Event, sdp: string)
    | CallerTrickles(candidate: Message)
    | CalleeTrickles(candidate: Message)
    | CallerHears
    | CalleeHears
    | CalleeBegins(heard: nat)   // started with what the room server kept of the caller's messages

  predicate Trickled(m: Message) {
    m.Candidate? || m.EndOfCandidates?
  }

  predicate CanMove(s: Session, m: Move) {
    match m
    case CallerMoves(e, _) => Enabled(s.caller, e) && !e.Receives? && !e.CalleeStarts?
    case CalleeMoves(e, _) =>
      Enabled(s.callee, e) && !ArrivalSide(e) && !e.CallerStarts?
    case CallerTrickles(c) => Trickled(c)
    case CalleeTrickles(c) => Trickled(c)
    case CallerHears => s.toCaller != []
    case CalleeHears => s.toCallee != []
    case CalleeBegins(heard) => heard <= |s.toCallee|
  }

  function MoveOn(s: Session, m: Move): Session
    requires CanMove(s, m)
  {
    match m
    case CallerMoves(e, sdp) => s.(caller := Step(s.caller, e), toCallee := s.toCallee + Outgoing(e, sdp),
                                offers := s.offers + |Outgoing(e, sdp)|)
    case CalleeMoves(e, sdp) => s.(callee := Step(s.callee, e), toCaller := s.toCaller + Outgoing(e, sdp),
                                answers := s.answers + |Outgoing(e, sdp)|)
    case CallerTrickles(c) => s.(toCallee := s.toCallee + [c])
    case CalleeTrickles(c) => s.(toCaller := s.toCaller + [c])
    case CallerHears =>
      s.(caller := ReceiveSignalingMessage(s.caller, s.toCaller[0]), toCaller := s.toCaller[1..])
    case CalleeHears =>
      s.(callee := ReceiveSignalingMessage(s.callee, s.toCallee[0]), toCallee := s.toCallee[1..])
    case CalleeBegins(heard) =>
      // A client that was started before takes none of the messages.
      s.(callee := StartAsCallee(s.callee, s.toCallee[..heard]),
         toCallee := if s.callee.role.NotStarted? then s.toCallee[heard..] else s.toCallee)
  }

  predicate ValidMoves(s: Session, ms: seq<Move>)
    decreases |ms|
  {
    ms == [] || (CanMove(s, ms[0]) && ValidMoves(MoveOn(s, ms[0]), ms[1..]))
  }

  function Played(s: Session, ms: seq<Move>): Session
    requires ValidMoves(s, ms)
    decreases |ms|
  {
    if ms == [] then s else Played(MoveOn(s, ms[0]), ms[1..])
  }

  // ---------------------------------------------------------------- counting

  function Descriptions(ms: seq<Message>): nat {
    if ms == [] then 0 else (if IsDescription(ms[|ms| - 1]) then 1 else 0) + Descriptions(ms[..|ms| - 1])
  }

  lemma {:induction false} DescriptionsAppend(a: seq<Message>, b: seq<Message>)
    ensures Descriptions(a + b) == Descriptions(a) + Descriptions(b)
    decreases |b|
  {
    if b == [] {
      assert a + b == a;
    } else {
      var n := |b| - 1;
      DescriptionsAppend(a, b[..n]);
      assert (a + b)[..|a + b| - 1] == a + b[..n];
    }
  }

  predicate NoCollision(log: seq<Entry>) {
    forall k | 0 <= k < |log| :: !log[k].Collision?
  }

  // ---------------------------------------------------------------- either side

  predicate NoOffers(ms: seq<Message>) {
    forall k | 0 <= k < |ms| :: !ms[k].Offer?
  }

  predicate NoAnswers(ms: seq<Message>) {
    forall k | 0 <= k < |ms| :: !ms[k].Answer?
  }

  function DescriptionsIn(s: seq<Settled>): nat {
    if s == [] then 0 else (if IsDescription(s[|s| - 1].message) then 1 else 0) + DescriptionsIn(s[..|s| - 1])
  }

  /** The descriptions that have left their batch. */
  function Begun(i: Inbox): nat {
    DescriptionsIn(i.settled)
  }

  /** The message being processed is the description whose processing has passed `setRemoteDescription`'s call. */
  predicate PastReady(i: Inbox) {
    InDescription(i) && !i.drain.stage.AwaitReady?
  }

  /** No description has reached the peer connection. */
  predicate Untouched(i: Inbox) {
    Begun(i) == 0 && !PastReady(i)
  }

  /** The browser has accepted the local offer, or it was even sent. */
  predicate OfferOut(c: Client, offers: nat) {
    offers == 1 || (c.task.Applying? && c.task.outcome.Accepted?)
  }

  predicate Peaceful(c: Client) {
    c.mode.P2p? && c.renegotiationPending.Off? && c.ignoreOffer.Off? && NoCollision(c.log)
  }

  predicate CallerInv(c: Client, toCaller: seq<Message>, offers: nat, answers: nat) {
    && Peaceful(c) && !c.role.Callee?
    && c.offerRevision == (if c.role.NotStarted? then 0 else 1)
    && (c.role.NotStarted? ==> c.task.NoOffer? && offers == 0)
    && NoOffers(c.inbox.arrived) && NoOffers(toCaller)
    && Descriptions(c.inbox.arrived) + Descriptions(toCaller) == answers
    && answers <= offers <= 1
    && (offers == 1 ==> !c.task.Creating? && !c.task.Applying?)
    && (Untouched(c.inbox) && OfferOut(c, offers) ==> c.signaling.HaveLocalOffer?)
  }

  predicate CalleeInv(c: Client, toCallee: seq<Message>, offers: nat, answers: nat) {
    && Peaceful(c) && !c.role.Caller?
    && c.offerRevision == 0 && c.task.NoOffer?
    && NoAnswers(c.inbox.arrived) && NoAnswers(toCallee)
    && Descriptions(c.inbox.arrived) + Descriptions(toCallee) == offers <= 1
    && (Untouched(c.inbox) ==> c.signaling.Stable?)
    && answers <= Begun(c.inbox) + if PastReady(c.inbox) && c.inbox.drain.stage.AwaitFinally? then 1 else 0
  }

  ghost predicate SessionInv(s: Session) {
    && Inv(s.caller) && Inv(s.callee)
    && CallerInv(s.caller, s.toCaller, s.offers, s.answers)
    && CalleeInv(s.callee, s.toCallee, s.offers, s.answers)
  }

  /** The descriptions of an inbox: those begun, the current one, and those still waiting. */
  lemma DescriptionsOfInbox(i: Inbox)
    requires Books(i)
    ensures Descriptions(i.arrived) == Begun(i) + (if InDescription(i) then 1 else 0) +
                                       Descriptions(Rest(i)) + Descriptions(i.messageQueue)
  {
    var settled := MessagesOf(i.settled);
    DescriptionsInMessages(i.settled);
    DescriptionsAppend(settled + Current(i) + Rest(i), i.messageQueue);
    DescriptionsAppend(settled + Current(i), Rest(i));
    DescriptionsAppend(settled, Current(i));
    assert Current(i) != [] ==> Current(i)[..0] == [];
  }

  lemma DescriptionsOfRest(rest: seq<Message>)
    requires rest != []
    ensures Descriptions(rest) == (if IsDescription(rest[0]) then 1 else 0) + Descriptions(rest[1..])
  {
    assert rest == [rest[0]] + rest[1..];
    DescriptionsAppend([rest[0]], rest[1..]);
    assert [rest[0]][..0] == [];
  }

  lemma {:induction false} DescriptionsInMessages(s: seq<Settled>)
    ensures DescriptionsIn(s) == Descriptions(MessagesOf(s))
  {
    if s != [] {
      DescriptionsInMessages(s[..|s| - 1]);
      assert MessagesOf(s)[..|s| - 1] == MessagesOf(s[..|s| - 1]);
    }
  }

  lemma DescriptionsInAppend(s: seq<Settled>, x: Settled)
    ensures DescriptionsIn(s + [x]) == DescriptionsIn(s) + if IsDescription(x.message) then 1 else 0
  {
    assert (s + [x])[..|s|] == s;
  }

  lemma {:induction false} DescriptionsInGrows(s: seq<Settled>, t: seq<Settled>)
    ensures DescriptionsIn(s) <= DescriptionsIn(s + t)
    decreases |t|
  {
    if t == [] {
      assert s + t == s;
    } else {
      DescriptionsInGrows(s, t[..|t| - 1]);
      assert (s + t)[..|s + t| - 1] == s + t[..|t| - 1];
    }
  }

  /** Moving a message from the channel to the queue neither adds nor loses a description. */
  lemma HearingCounts(role: Role, i: Inbox, channel: seq<Message>)
    requires channel != []
    ensures var i' := Receive(role, i, channel[0]);
            && i'.settled == i.settled
            && (i'.arrived == i.arrived || i'.arrived == i.arrived + [channel[0]])
            && Descriptions(i'.arrived) + Descriptions(channel[1..]) == Descriptions(i.arrived) + Descriptions(channel)
  {
    DescriptionsOfRest(channel);
    DescriptionsAppend(i.arrived, [channel[0]]);
    assert [channel[0]][..0] == [];
  }

  // ---------------------------------------------------------------- the caller

  lemma CallerOfferSide(c: Client, toCaller: seq<Message>, offers: nat, answers: nat, e: Event, sdp: string)
    requires CallerInv(c, toCaller, offers, answers) && Enabled(c, e) && OfferSide(e)
    ensures CallerInv(Step(c, e), toCaller, offers + |Outgoing(e, sdp)|, answers)
  {
    OfferSideKeepsInbox(c, e);
  }

  lemma CallerWithInbox(c: Client, i: Inbox, toCaller: seq<Message>, toCaller': seq<Message>, offers: nat, answers: nat)
    requires CallerInv(c, toCaller, offers, answers)
    requires i.settled == c.inbox.settled && (i.drain == c.inbox.drain || (c.inbox.drain.Idle? && i.drain.Between?))
    requires NoOffers(i.arrived) && NoOffers(toCaller')
    requires Descriptions(i.arrived) + Descriptions(toCaller') == answers
    ensures CallerInv(c.(inbox := i), toCaller', offers, answers)
  {
  }

  /** A message moves from the channel to the queue. */
  lemma CallerHearsOne(c: Client, toCaller: seq<Message>, offers: nat, answers: nat)
    requires CallerInv(c, toCaller, offers, answers) && toCaller != []
    ensures CallerInv(ReceiveSignalingMessage(c, toCaller[0]), toCaller[1..], offers, answers)
  {
    ReceiveKeepsBusy(c.role, c.inbox, toCaller[0]);
    HearingCounts(c.role, c.inbox, toCaller);
    CallerWithInbox(c, Receive(c.role, c.inbox, toCaller[0]), toCaller, toCaller[1..], offers, answers);
  }

  lemma CallerIsSent(c: Client, toCaller: seq<Message>, offers: nat, answers: nat, m: Message)
    requires CallerInv(c, toCaller, offers, answers) && !m.Offer?
    requires m.Answer? ==> answers < offers
    ensures CallerInv(c, toCaller + [m], offers, answers + if m.Answer? then 1 else 0)
  {
    DescriptionsAppend(toCaller, [m]);
    assert [m][..0] == [];
  }

  /** The next message was merely taken up: nothing else about the client changed, but for a candidate in the log. */
  predicate TakenUp(c: Client, c': Client) {
    && c'.mode == c.mode && c'.role == c.role && c'.signaling == c.signaling
    && c'.offerRevision == c.offerRevision && c'.task == c.task
    && c'.renegotiationPending == c.renegotiationPending && c'.ignoreOffer.Off?
    && c'.inbox.arrived == c.inbox.arrived && c'.inbox.settled == c.inbox.settled
    && !PastReady(c'.inbox)
    && (c'.log == c.log || c'.log == c.log + [AddCandidate(|c.inbox.settled|)])
  }

  lemma NextIsTakenUp(c: Client, willing: bool)
    requires c.ignoreOffer.Off? && Enabled(c, ProcessNext(willing)) && !OfferCollision(c, c.inbox.drain.rest[0])
    requires AllQueued(Rest(c.inbox))
    ensures TakenUp(c, ProcessSignalingMessage(c, willing))
  {
    assert IsQueued(c.inbox.drain.rest[0]);
  }

  lemma CallerProcessNext(c: Client, toCaller: seq<Message>, offers: nat, answers: nat, willing: bool)
    requires CallerInv(c, toCaller, offers, answers) && Books(c.inbox) && AllQueued(Rest(c.inbox))
    requires Enabled(c, ProcessNext(willing))
    ensures CallerInv(ProcessSignalingMessage(c, willing), toCaller, offers, answers)
  {
    assert c.inbox.arrived[|c.inbox.settled|] == c.inbox.drain.rest[0];
    NextIsTakenUp(c, willing);
  }

  lemma CallerMiddleSide(c: Client, toCaller: seq<Message>, offers: nat, answers: nat, e: Event)
    requires CallerInv(c, toCaller, offers, answers) && Books(c.inbox) && Shape(c.inbox)
    requires Enabled(c, e) && MiddleSide(e)
    ensures CallerInv(Step(c, e), toCaller, offers, answers)
    ensures !e.LocalAnswerStep?
  {
    assert c.inbox.arrived[|c.inbox.settled|] == c.inbox.drain.current;
  }

  /** A message is finished: its descriptions now count as begun. */
  lemma FinishCounts(i: Inbox, outcome: Outcome)
    requires i.drain.Busy?
    ensures Begun(FinishCurrent(i, outcome)) >= Begun(i) + if InDescription(i) then 1 else 0
  {
    DescriptionsInAppend(i.settled, Settled(i.drain.current, Processed));
    var failed := i.settled + [Settled(i.drain.current, Failed)];
    DescriptionsInAppend(i.settled, Settled(i.drain.current, Failed));
    DescriptionsInGrows(failed, SkipAll(i.drain.rest));
    assert failed + SkipAll(i.drain.rest) == i.settled + ([Settled(i.drain.current, Failed)] + SkipAll(i.drain.rest));
  }

  lemma CallerClosingSide(c: Client, toCaller: seq<Message>, offers: nat, answers: nat, e: Event)
    requires CallerInv(c, toCaller, offers, answers) && Shape(c.inbox) && Enabled(c, e) && ClosingSide(e)
    ensures CallerInv(Step(c, e), toCaller, offers, answers)
  {
    if !e.BatchStep? {
      FinishCounts(c.inbox, Accepted);
      FinishCounts(c.inbox, Refused);
    }
  }

  // ---------------------------------------------------------------- the callee

  lemma CalleeHearsOne(c: Client, toCallee: seq<Message>, offers: nat, answers: nat)
    requires CalleeInv(c, toCallee, offers, answers) && toCallee != []
    ensures CalleeInv(ReceiveSignalingMessage(c, toCallee[0]), toCallee[1..], offers, answers)
  {
    ReceiveKeepsBusy(c.role, c.inbox, toCallee[0]);
    HearingCounts(c.role, c.inbox, toCallee);
  }

  lemma CalleeIsSent(c: Client, toCallee: seq<Message>, offers: nat, answers: nat, m: Message)
    requires CalleeInv(c, toCallee, offers, answers) && !m.Answer?
    requires m.Offer? ==> offers == 0
    ensures CalleeInv(c, toCallee + [m], offers + if m.Offer? then 1 else 0, answers)
  {
    DescriptionsAppend(toCallee, [m]);
    assert [m][..0] == [];
  }

  lemma {:induction false} CalleeHearsAll(c: Client, ms: seq<Message>, rest: seq<Message>, offers: nat, answers: nat)
    requires CalleeInv(c, ms + rest, offers, answers) && c.role.Callee?
    ensures CalleeInv(c.(inbox := ReceiveAll(Callee, c.inbox, ms)), rest, offers, answers)
    decreases |ms|
  {
    if ms == [] {
      assert ms + rest == rest;
    } else {
      CalleeHearsOne(c, ms + rest, offers, answers);
      assert (ms + rest)[1..] == ms[1..] + rest;
      CalleeHearsAll(ReceiveSignalingMessage(c, ms[0]), ms[1..], rest, offers, answers);
    }
  }

  lemma CalleeBecomes(c: Client, toCallee: seq<Message>, offers: nat, answers: nat)
    requires CalleeInv(c, toCallee, offers, answers)
    ensures CalleeInv(c.(role := Callee), toCallee, offers, answers)
  {
  }

  lemma CalleeDrains(c: Client, toCallee: seq<Message>, offers: nat, answers: nat)
    requires CalleeInv(c, toCallee, offers, answers)
    ensures CalleeInv(c.(inbox := DrainMessageQueue(c.role, c.inbox)), toCallee, offers, answers)
  {
  }

  lemma CalleeStarting(c: Client, ms: seq<Message>, rest: seq<Message>, offers: nat, answers: nat)
    requires CalleeInv(c, ms + rest, offers, answers) && c.role.NotStarted?
    ensures CalleeInv(StartAsCallee(c, ms), rest, offers, answers)
  {
    var c1 := c.(role := Callee);
    CalleeBecomes(c, ms + rest, offers, answers);
    if ms != [] {
      CalleeHearsAll(c1, ms, rest, offers, answers);
    } else {
      assert ms + rest == rest;
      CalleeDrains(c1, rest, offers, answers);
    }
  }

  lemma CalleeOfferSide(c: Client, toCallee: seq<Message>, offers: nat, answers: nat, e: Event)
    requires CalleeInv(c, toCallee, offers, answers) && Enabled(c, e) && OfferSide(e) && !e.CallerStarts?
    ensures Step(c, e) == c && e.NegotiationNeeded?
  {
  }

  lemma CalleeProcessNext(c: Client, toCallee: seq<Message>, offers: nat, answers: nat, willing: bool)
    requires CalleeInv(c, toCallee, offers, answers) && Books(c.inbox) && AllQueued(Rest(c.inbox))
    requires Enabled(c, ProcessNext(willing))
    ensures CalleeInv(ProcessSignalingMessage(c, willing), toCallee, offers, answers)
  {
    assert c.inbox.arrived[|c.inbox.settled|] == c.inbox.drain.rest[0];
    DescriptionsOfInbox(c.inbox);
    DescriptionsOfRest(c.inbox.drain.rest);
    NextIsTakenUp(c, willing);
  }

  lemma CalleeMiddleSide(c: Client, toCallee: seq<Message>, offers: nat, answers: nat, e: Event, sdp: string)
    requires CalleeInv(c, toCallee, offers, answers) && Books(c.inbox) && Shape(c.inbox)
    requires Enabled(c, e) && MiddleSide(e)
    ensures CalleeInv(Step(c, e), toCallee, offers, answers + |Outgoing(e, sdp)|)
    ensures answers + |Outgoing(e, sdp)| <= offers
  {
    DescriptionsOfInbox(c.inbox);
  }

  lemma CalleeClosingSide(c: Client, toCallee: seq<Message>, offers: nat, answers: nat, e: Event)
    requires CalleeInv(c, toCallee, offers, answers) && Shape(c.inbox) && Enabled(c, e) && ClosingSide(e)
    ensures CalleeInv(Step(c, e), toCallee, offers, answers)
  {
    if !e.BatchStep? {
      FinishCounts(c.inbox, Accepted);
      FinishCounts(c.inbox, Refused);
    }
  }

  // ---------------------------------------------------------------- the session

  lemma CallerStepKeeps(c: Client, toCaller: seq<Message>, offers: nat, answers: nat, e: Event, sdp: string)
    requires CallerInv(c, toCaller, offers, answers) && Shape(c.inbox) && Books(c.inbox)
    requires Enabled(c, e) && !ArrivalSide(e)
    ensures CallerInv(Step(c, e), toCaller, offers + |Outgoing(e, sdp)|, answers)
    ensures Outgoing(e, sdp) == [] || (Outgoing(e, sdp) == [Offer(sdp, None)] && offers == 0)
  {
    if OfferSide(e) { CallerOfferSide(c, toCaller, offers, answers, e, sdp); }
    else if MiddleSide(e) { CallerMiddleSide(c, toCaller, offers, answers, e); }
    else if ClosingSide(e) { CallerClosingSide(c, toCaller, offers, answers, e); }
    else { CallerProcessNext(c, toCaller, offers, answers, e.willing); }
  }

  lemma CalleeStepKeeps(c: Client, toCallee: seq<Message>, offers: nat, answers: nat, e: Event, sdp: string)
    requires CalleeInv(c, toCallee, offers, answers) && Shape(c.inbox) && Books(c.inbox)
    requires Enabled(c, e) && !ArrivalSide(e) && !e.CallerStarts?
    ensures CalleeInv(Step(c, e), toCallee, offers, answers + |Outgoing(e, sdp)|)
    ensures Outgoing(e, sdp) == [] || (Outgoing(e, sdp) == [Answer(sdp)] && answers < offers)
  {
    if OfferSide(e) { CalleeOfferSide(c, toCallee, offers, answers, e); }
    else if MiddleSide(e) { CalleeMiddleSide(c, toCallee, offers, answers, e, sdp); }
    else if ClosingSide(e) { CalleeClosingSide(c, toCallee, offers, answers, e); }
    else { CalleeProcessNext(c, toCallee, offers, answers, e.willing); }
  }

  lemma CallerMoveKeepsSession(s: Session, e: Event, sdp: string)
    requires SessionInv(s) && CanMove(s, CallerMoves(e, sdp))
    ensures SessionInv(MoveOn(s, CallerMoves(e, sdp)))
  {
    StepKeepsInv(s.caller, e);
    CallerStepKeeps(s.caller, s.toCaller, s.offers, s.answers, e, sdp);
    if Outgoing(e, sdp) == [] {
      assert s.toCallee + [] == s.toCallee;
    } else {
      CalleeIsSent(s.callee, s.toCallee, s.offers, s.answers, Offer(sdp, None));
    }
  }

  lemma CalleeMoveKeepsSession(s: Session, e: Event, sdp: string)
    requires SessionInv(s) && CanMove(s, CalleeMoves(e, sdp))
    ensures SessionInv(MoveOn(s, CalleeMoves(e, sdp)))
  {
    StepKeepsInv(s.callee, e);
    CalleeStepKeeps(s.callee, s.toCallee, s.offers, s.answers, e, sdp);
    if Outgoing(e, sdp) == [] {
      assert s.toCaller + [] == s.toCaller;
    } else {
      CallerIsSent(s.caller, s.toCaller, s.offers, s.answers, Answer(sdp));
    }
  }

  lemma CalleeBeginningKeepsSession(s: Session, heard: nat)
    requires SessionInv(s) && CanMove(s, CalleeBegins(heard))
    ensures SessionInv(MoveOn(s, CalleeBegins(heard)))
  {
    var ms, rest := s.toCallee[..heard], s.toCallee[heard..];
    StepKeepsInv(s.callee, CalleeStarts(ms));
    assert ms + rest == s.toCallee;
    if s.callee.role.NotStarted? { CalleeStarting(s.callee, ms, rest, s.offers, s.answers); }
  }

  lemma MoveKeepsSession(s: Session, m: Move)
    requires SessionInv(s) && CanMove(s, m)
    ensures SessionInv(MoveOn(s, m))
  {
    match m
    case CallerMoves(e, sdp) => CallerMoveKeepsSession(s, e, sdp);
    case CalleeMoves(e, sdp) => CalleeMoveKeepsSession(s, e, sdp);
    case CallerTrickles(c) => CalleeIsSent(s.callee, s.toCallee, s.offers, s.answers, c);
    case CalleeTrickles(c) => CallerIsSent(s.caller, s.toCaller, s.offers, s.answers, c);
    case CallerHears =>
      StepKeepsInv(s.caller, Receives(s.toCaller[0]));
      CallerHearsOne(s.caller, s.toCaller, s.offers, s.answers);
    case CalleeHears =>
      StepKeepsInv(s.callee, Receives(s.toCallee[0]));
      CalleeHearsOne(s.callee, s.toCallee, s.offers, s.answers);
    case CalleeBegins(heard) => CalleeBeginningKeepsSession(s, heard);
  }

  lemma {:induction false} PlayKeepsSession(s: Session, ms: seq<Move>)
    requires SessionInv(s) && ValidMoves(s, ms)
    ensures SessionInv(Played(s, ms))
    decreases |ms|
  {
    if ms != [] {
      MoveKeepsSession(s, ms[0]);
      PlayKeepsSession(MoveOn(s, ms[0]), ms[1..]);
    }
  }

  lemma CallerMeetsAnswer(c: Client, toCaller: seq<Message>, offers: nat, answers: nat)
    requires CallerInv(c, toCaller, offers, answers) && Books(c.inbox) && AboutToApply(c)
    ensures c.inbox.drain.current.Answer? && c.signaling.HaveLocalOffer?
  {
    assert c.inbox.arrived[|c.inbox.settled|] == c.inbox.drain.current;
    DescriptionsOfInbox(c.inbox);
  }

  lemma CalleeMeetsOffer(c: Client, toCallee: seq<Message>, offers: nat, answers: nat)
    requires CalleeInv(c, toCallee, offers, answers) && Books(c.inbox) && AboutToApply(c)
    ensures c.inbox.drain.current.Offer? && c.signaling.Stable?
  {
    assert c.inbox.arrived[|c.inbox.settled|] == c.inbox.drain.current;
    DescriptionsOfInbox(c.inbox);
  }

  /** A description is about to be set as the remote description. */
  predicate AboutToApply(c: Client) {
    InDescription(c.inbox) && c.inbox.drain.stage.AwaitReady?
  }

  /**
   The caller sends at most one offer, the callee sends no offer and at most one answer, and only after the offer;
   neither side has seen a collision or ignored an offer; the offer meets the callee in the stable state, and the
   answer meets the caller in the have-local-offer state.
   */
  predicate Orderly(s: Session) {
    && s.answers <= s.offers <= 1
    && s.callee.offerRevision == 0 && s.caller.offerRevision <= 1
    && NoCollision(s.caller.log) && NoCollision(s.callee.log)
    && s.caller.ignoreOffer.Off? && s.callee.ignoreOffer.Off?
    && (AboutToApply(s.caller) ==> s.caller.inbox.drain.current.Answer? && s.caller.signaling.HaveLocalOffer?)
    && (AboutToApply(s.callee) ==> s.callee.inbox.drain.current.Offer? && s.callee.signaling.Stable?)
  }

  lemma SessionIsOrderly(s: Session)
    requires SessionInv(s)
    ensures Orderly(s)
  {
    if AboutToApply(s.caller) { CallerMeetsAnswer(s.caller, s.toCaller, s.offers, s.answers); }
    if AboutToApply(s.callee) { CalleeMeetsOffer(s.callee, s.toCallee, s.offers, s.answers); }
  }

  lemma FreshCaller()
    ensures CallerInv(Fresh(P2p), [], 0, 0)
  {
  }

  lemma FreshCallee()
    ensures CalleeInv(Fresh(P2p), [], 0, 0)
  {
  }

  lemma OpeningInv()
    ensures SessionInv(Opening())
  {
    FreshInv(P2p);
    FreshCaller();
    FreshCallee();
  }

  /** Every interleaving of a fresh caller and a fresh callee is orderly at every point. */
  lemma TwoPartiesNeverCollide(ms: seq<Move>)
    requires ValidMoves(Opening(), ms)
    ensures Orderly(Played(Opening(), ms))
  {
    OpeningInv();
    PlayKeepsSession(Opening(), ms);
    SessionIsOrderly(Played(Opening(), ms));
  }
}
