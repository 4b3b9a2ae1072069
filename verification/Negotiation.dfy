/**
 The V2 ("perfect negotiation") part of `PeerConnectionClient`, as functions on values.

 A `Client` is one client together with the continuations it has registered on pending promises: at most one
 offer in the making (`OfferTask`) and at most one message batch being drained (`Drain`). Each `.then` or
 `.finally` body of the source is one atomic step, and an `Event` says which body runs and how the promise before
 it settled, so a sequence of events is one interleaving.

 The browser decides whether it accepts a description at the moment it is set: an accepted description changes the
 signaling state at once, a refused one leaves it alone, and only an accepted description can fulfil its promise.
 A description that RFC 8829 section 3.2 does not allow in the current state is always refused.

 `PeerConnectionClient.dfy` holds the same code as methods that update fields; here are the functions those methods
 are proved against.
 */
module Negotiation {
  import opened Options

  datatype SignalingState = Stable | HaveLocalOffer | HaveRemoteOffer

  datatype Description = LocalOffer | LocalAnswer | Rollback | RemoteOffer | RemoteAnswer

  /** RFC 8829 section 3.2, with rollback (section 5.7) and the implicit rollback of a remote offer. */
  predicate Allowed(state: SignalingState, d: Description) {
    match d
    case LocalOffer => !state.HaveRemoteOffer?
    case LocalAnswer => state.HaveRemoteOffer?
    case Rollback => !state.Stable?
    case RemoteOffer => true
    case RemoteAnswer => state.HaveLocalOffer?
  }

  function Target(d: Description): SignalingState {
    match d
    case LocalOffer => HaveLocalOffer
    case RemoteOffer => HaveRemoteOffer
    case _ => Stable
  }

  /** `Malformed` is text that `parseJSON` makes nothing of; `Unknown` parses, but has no known type. */
  datatype Message =
    | Offer(sdp: string, requestId: Option<string>)
    | Answer(sdp: string)
    | Candidate(text: string)
    | EndOfCandidates
    | Bye
    | Unknown
    | Malformed

  predicate IsDescription(m: Message) {
    m.Offer? || m.Answer?
  }

  /** The messages `receiveSignalingMessage` puts on the queue of a V2 client. */
  predicate IsQueued(m: Message) {
    IsDescription(m) || m.Candidate? || m.EndOfCandidates?
  }

  /** A boolean field of the source. */
  datatype Flag = Off | On

  datatype Mode = P2p | Sfu

  /** Whether the client was started, and how. */
  datatype Role = NotStarted | Caller | Callee

  /** Whether the browser accepted a description; the promise on a refused one is rejected. */
  datatype Outcome = Accepted | Refused

  /** Whether an accepted remote offer was waiting to be set when the local offer was made; this is history. */
  datatype Occasion = Clear | Waiting

  /** The one `makeOffer_` in progress, by the promise it waits for. */
  datatype OfferTask =
    | NoOffer
    | Creating(revision: nat, occasion: Occasion)
    | Applying(revision: nat, outcome: Outcome)
    | Finishing

  /** How far the processing of one message has come. */
  datatype Stage =
    | AwaitReady(outcome: Outcome)
    | AwaitRemote(outcome: Outcome)
    | AwaitAnswer
    | AwaitLocalAnswer(outcome: Outcome)
    | AwaitFinally(outcome: Outcome)
    | AwaitCandidate

  /** The batch taken from the message queue by `drainMessageQueue_`. */
  datatype Drain =
    | Idle
    | Between(rest: seq<Message>)
    | Busy(current: Message, stage: Stage, rest: seq<Message>)

  /** What became of a message that left the batch. */
  datatype Fate = Processed | Ignored | Failed | Skipped

  datatype Settled = Settled(message: Message, fate: Fate)

  /**
   Why a local offer came to nothing: one of its promises was rejected, a collision voided it, or the connection was no
   longer stable, because a remote offer that had been waiting went first or for another reason.
   */
  datatype Reason = CreationRejected | SettingRejected | Superseded | Preempted | Displaced

  /** What an observer of the client, of the peer connection and of the signaling channel sees. */
  datatype Entry =
    | CreateOffer(revision: nat)
    | Collision(revision: nat)
    | ApplyOffer(revision: nat, at: SignalingState)
    | SendOffer(revision: nat)
    | Abandon(revision: nat, why: Reason)
    | ApplyRemote(position: nat, from: SignalingState)
    | AddCandidate(position: nat)
    | SendAnswer(position: nat, requestId: Option<string>)

  /**
   The fields around `drainMessageQueue_`. The last two are history: what was ever queued, and what became of the
   messages that left their batch.
   */
  datatype Inbox = Inbox(
    hasRemoteSdp: Flag,
    messageQueue: seq<Message>,
    drain: Drain,
    arrived: seq<Message>,
    settled: seq<Settled>)

  /** The log is history: the observable actions in order. */
  datatype Client = Client(
    mode: Mode,
    role: Role,
    signaling: SignalingState,
    offerRevision: nat,
    renegotiationPending: Flag,
    task: OfferTask,
    ignoreOffer: Flag,
    pendingRemoteRequestId: Option<string>,
    inbox: Inbox,
    log: seq<Entry>)

  /** A V2 client as the constructor leaves it. */
  function Fresh(mode: Mode): Client {
    Client(mode, NotStarted, Stable, 0, Off, NoOffer, Off, None, Inbox(Off, [], Idle, [], []), [])
  }

  /** The flag `makingOffer_`. */
  predicate MakingOffer(c: Client) {
    !c.task.NoOffer?
  }

  /** The flag `polite_`: a browser yields to the SFU, and the callee yields to the caller. */
  predicate Polite(c: Client) {
    c.role.Callee? || (c.role.Caller? && c.mode.Sfu?)
  }

  predicate InDescription(i: Inbox) {
    i.drain.Busy? && IsDescription(i.drain.current)
  }

  /** The flag `isSettingRemoteAnswerPending_`. */
  predicate SettingRemoteAnswer(i: Inbox) {
    i.drain.Busy? && i.drain.current.Answer?
  }

  /** Hand a description to the browser, which may refuse it. */
  function Offered(state: SignalingState, d: Description, willing: bool): Outcome {
    if willing && Allowed(state, d) then Accepted else Refused
  }

  function SetDescription(state: SignalingState, d: Description, willing: bool): SignalingState {
    if willing && Allowed(state, d) then Target(d) else state
  }

  // ---------------------------------------------------------------- offers

  /** An accepted remote offer waits for its `setRemoteDescription`. */
  predicate OfferWaits(d: Drain) {
    d.Busy? && d.current.Offer? && d.stage.AwaitReady? && d.stage.outcome.Accepted?
  }

  function OccasionOf(d: Drain): Occasion {
    if OfferWaits(d) then Waiting else Clear
  }

  /** `makeOffer_`, up to the promise of `createOffer`. */
  function MakeOffer(c: Client): Client {
    if MakingOffer(c) then c
    else
      c.(offerRevision := c.offerRevision + 1, task := Creating(c.offerRevision + 1, OccasionOf(c.inbox.drain)),
         log := c.log + [CreateOffer(c.offerRevision + 1)])
  }

  function MaybeRenegotiate(c: Client): Client {
    if c.renegotiationPending.On? && !MakingOffer(c) && c.signaling.Stable? then
      MakeOffer(c.(renegotiationPending := Off))
    else
      c
  }

  function OnNegotiationNeeded(c: Client): Client {
    if c.mode.Sfu? && !c.role.NotStarted? && c.signaling.Stable? then MakeOffer(c) else c
  }

  /** `createOffer` settled: discard a superseded offer, or set it as the local description. */
  function OfferCreated(c: Client, ok: bool, willing: bool): Client
    requires c.task.Creating?
  {
    var revision := c.task.revision;
    if ok && revision == c.offerRevision && c.signaling.Stable? then
      c.(task := Applying(revision, Offered(c.signaling, LocalOffer, willing)),
         signaling := SetDescription(c.signaling, LocalOffer, willing),
         log := c.log + [ApplyOffer(revision, c.signaling)])
    else
      c.(task := Finishing, log := c.log + [Abandon(revision, WhyDiscarded(c, ok))])
  }

  function WhyDiscarded(c: Client, ok: bool): Reason
    requires c.task.Creating?
  {
    if !ok then CreationRejected
    else if c.task.revision != c.offerRevision then Superseded
    else if c.task.occasion.Waiting? then Preempted
    else Displaced
  }

  /** `setLocalDescription(offer)` settled: send the offer unless it was rejected. */
  function OfferApplied(c: Client, ok: bool): Client
    requires c.task.Applying?
  {
    c.(task := Finishing,
       log := c.log + [if ok then SendOffer(c.task.revision) else Abandon(c.task.revision, SettingRejected)])
  }

  /** The `finally` of `makeOffer_`. */
  function OfferFinally(c: Client): Client {
    MaybeRenegotiate(c.(task := NoOffer))
  }

  // ---------------------------------------------------------------- incoming messages

  function DrainMessageQueue(role: Role, i: Inbox): Inbox {
    if !role.NotStarted? && i.hasRemoteSdp.On? && i.drain.Idle? then
      i.(drain := Between(i.messageQueue), messageQueue := [])
    else
      i
  }

  /** What a message adds to the queue; a bye is only reported to the owner of the client. */
  function Queued(i: Inbox, m: Message): Inbox {
    if IsQueued(m) then
      i.(hasRemoteSdp := if IsDescription(m) then On else i.hasRemoteSdp,
         messageQueue := i.messageQueue + [m],
         arrived := i.arrived + [m])
    else i
  }

  /** `receiveSignalingMessage`, which returns at once from a message that does not parse. */
  function Receive(role: Role, i: Inbox, m: Message): Inbox {
    if m.Malformed? then i else DrainMessageQueue(role, Queued(i, m))
  }

  function ReceiveAll(role: Role, i: Inbox, ms: seq<Message>): Inbox
    decreases |ms|
  {
    if ms == [] then i else ReceiveAll(role, Receive(role, i, ms[0]), ms[1..])
  }

  function ReceiveSignalingMessage(c: Client, m: Message): Client {
    c.(inbox := Receive(c.role, c.inbox, m))
  }

  function StartAsCaller(c: Client): Client {
    if c.role.NotStarted? then MakeOffer(c.(role := Caller)) else c
  }

  function StartAsCallee(c: Client, initialMessages: seq<Message>): Client {
    if !c.role.NotStarted? then c
    else if initialMessages != [] then
      c.(role := Callee, inbox := ReceiveAll(Callee, c.inbox, initialMessages))
    else if c.inbox.messageQueue != [] then
      c.(role := Callee, inbox := DrainMessageQueue(Callee, c.inbox))
    else
      c.(role := Callee)
  }

  /** The offer arrives while this client is not ready for one. */
  predicate OfferCollision(c: Client, m: Message) {
    m.Offer? && (MakingOffer(c) || !(c.signaling.Stable? || SettingRemoteAnswer(c.inbox)))
  }

  /** The next message leaves the batch without having been given to the peer connection. */
  function Ignore(i: Inbox, m: Message, rest: seq<Message>): Inbox {
    i.(drain := Between(rest), settled := i.settled + [Settled(m, Ignored)])
  }

  function Begin(i: Inbox, m: Message, stage: Stage, rest: seq<Message>): Inbox {
    i.(drain := Busy(m, stage, rest))
  }

  /** A polite client takes a colliding offer: pending local offers are void, and the SFU is owed a publish. */
  function Collide(c: Client): Client {
    c.(offerRevision := c.offerRevision + 1,
       renegotiationPending := if c.mode.Sfu? then On else c.renegotiationPending,
       log := c.log + [Collision(c.offerRevision + 1)])
  }

  function RequestIdOf(c: Client, m: Message): Option<string> {
    if c.mode.Sfu? && m.Offer? then m.requestId else c.pendingRemoteRequestId
  }

  /** The state after the rollback that a collision needs outside stable. */
  function RolledBack(state: SignalingState, willing: bool): SignalingState {
    if state.Stable? then Stable else SetDescription(state, Rollback, willing)
  }

  function RollbackOutcome(state: SignalingState, willing: bool): Outcome {
    if state.Stable? then Accepted else Offered(state, Rollback, willing)
  }

  /** A description is taken up: its request id is noted and its promises are chained behind `ready`. */
  function TakeUp(c: Client, m: Message, ready: Outcome, rest: seq<Message>): Client {
    c.(ignoreOffer := Off, pendingRemoteRequestId := RequestIdOf(c, m),
       inbox := Begin(c.inbox, m, AwaitReady(ready), rest))
  }

  /** `processV2Description_`, up to the promise it returns. */
  function ProcessV2Description(c: Client, m: Message, rest: seq<Message>, willing: bool): Client {
    if !OfferCollision(c, m) then
      TakeUp(c, m, Accepted, rest)
    else if !Polite(c) then
      c.(ignoreOffer := On, inbox := Ignore(c.inbox, m, rest))
    else
      TakeUp(Collide(c).(signaling := RolledBack(c.signaling, willing)), m, RollbackOutcome(c.signaling, willing), rest)
  }

  /** `processSignalingMessage_` on the next message of the batch. */
  function ProcessSignalingMessage(c: Client, willing: bool): Client
    requires c.inbox.drain.Between? && c.inbox.drain.rest != []
  {
    var m, rest := c.inbox.drain.rest[0], c.inbox.drain.rest[1..];
    if IsDescription(m) then ProcessV2Description(c, m, rest, willing)
    else if c.ignoreOffer.On? then c.(inbox := Ignore(c.inbox, m, rest))
    else
      c.(inbox := Begin(c.inbox, m, AwaitCandidate, rest), log := c.log + [AddCandidate(|c.inbox.settled|)])
  }

  function At(i: Inbox, stage: Stage): Inbox
    requires i.drain.Busy?
  {
    i.(drain := Busy(i.drain.current, stage, i.drain.rest))
  }

  function RemoteKind(m: Message): Description {
    if m.Offer? then RemoteOffer else RemoteAnswer
  }

  /** The rollback, if one was needed, settled: set the remote description. */
  function ReadySettled(c: Client, willing: bool): Client
    requires c.inbox.drain.Busy? && c.inbox.drain.stage.AwaitReady?
  {
    if c.inbox.drain.stage.outcome.Refused? then
      c.(inbox := At(c.inbox, AwaitFinally(Refused)))
    else if willing && Allowed(c.signaling, RemoteKind(c.inbox.drain.current)) then
      c.(inbox := At(c.inbox, AwaitRemote(Accepted)),
         signaling := Target(RemoteKind(c.inbox.drain.current)),
         log := c.log + [ApplyRemote(|c.inbox.settled|, c.signaling)])
    else
      c.(inbox := At(c.inbox, AwaitRemote(Refused)))
  }

  /** `setRemoteDescription` settled: an offer is answered, an answer is done. */
  function RemoteSettled(c: Client, ok: bool): Client
    requires c.inbox.drain.Busy? && c.inbox.drain.stage.AwaitRemote?
  {
    if !ok then c.(inbox := At(c.inbox, AwaitFinally(Refused)))
    else if c.inbox.drain.current.Offer? then c.(ignoreOffer := Off, inbox := At(c.inbox, AwaitAnswer))
    else c.(ignoreOffer := Off, inbox := At(c.inbox, AwaitFinally(Accepted)))
  }

  /** `createAnswer` settled: set the answer as the local description. */
  function AnswerCreated(c: Client, ok: bool, willing: bool): Client
    requires c.inbox.drain.Busy? && c.inbox.drain.stage.AwaitAnswer?
  {
    if !ok then c.(inbox := At(c.inbox, AwaitFinally(Refused)))
    else
      c.(signaling := SetDescription(c.signaling, LocalAnswer, willing),
         inbox := At(c.inbox, AwaitLocalAnswer(Offered(c.signaling, LocalAnswer, willing))))
  }

  /** `setLocalDescription(answer)` settled: send the answer with the pending request id. */
  function LocalAnswerSettled(c: Client, ok: bool): Client
    requires c.inbox.drain.Busy? && c.inbox.drain.stage.AwaitLocalAnswer?
  {
    if !ok then c.(inbox := At(c.inbox, AwaitFinally(Refused)))
    else
      c.(pendingRemoteRequestId := None,
         inbox := At(c.inbox, AwaitFinally(Accepted)),
         log := c.log + [SendAnswer(|c.inbox.settled|, c.pendingRemoteRequestId)])
  }

  function SkipAll(ms: seq<Message>): (r: seq<Settled>)
    ensures |r| == |ms|
    ensures forall i | 0 <= i < |ms| :: r[i] == Settled(ms[i], Skipped)
  {
    seq(|ms|, i requires 0 <= i < |ms| => Settled(ms[i], Skipped))
  }

  /** The current message leaves the batch; a rejection takes the rest of the batch with it. */
  function FinishCurrent(i: Inbox, outcome: Outcome): Inbox
    requires i.drain.Busy?
  {
    if outcome.Accepted? then
      i.(drain := Between(i.drain.rest), settled := i.settled + [Settled(i.drain.current, Processed)])
    else
      i.(drain := Between([]), settled := i.settled + ([Settled(i.drain.current, Failed)] + SkipAll(i.drain.rest)))
  }

  /** The `finally` of `processV2Description_`, and the step of the batch after it. */
  function ProcessFinally(c: Client): Client
    requires c.inbox.drain.Busy? && c.inbox.drain.stage.AwaitFinally?
  {
    MaybeRenegotiate(c.(inbox := FinishCurrent(c.inbox, c.inbox.drain.stage.outcome)))
  }

  /** The whole batch settled: take the next one if messages arrived meanwhile. */
  function BatchSettled(role: Role, i: Inbox): Inbox
  {
    if i.messageQueue != [] then DrainMessageQueue(role, i.(drain := Idle)) else i.(drain := Idle)
  }

  // ---------------------------------------------------------------- interleavings

  datatype Event =
    | CallerStarts
    | CalleeStarts(initialMessages: seq<Message>)
    | Receives(message: Message)
    | NegotiationNeeded
    | OfferCreatedStep(ok: bool, willing: bool)
    | OfferAppliedStep(ok: bool)
    | OfferFinallyStep
    | ProcessNext(willing: bool)
    | ReadyStep(willing: bool)
    | RemoteStep(ok: bool)
    | AnswerCreatedStep(ok: bool, willing: bool)
    | LocalAnswerStep(ok: bool)
    | ProcessFinallyStep
    | CandidateStep(ok: bool)
    | BatchStep

  /** Which continuations can run; a promise on a refused description cannot be fulfilled. */
  predicate Enabled(c: Client, e: Event) {
    match e
    case CallerStarts => true
    case CalleeStarts(_) => true
    case Receives(_) => true
    case NegotiationNeeded => true
    case OfferCreatedStep(_, _) => c.task.Creating?
    case OfferAppliedStep(ok) => c.task.Applying? && (ok ==> c.task.outcome.Accepted?)
    case OfferFinallyStep => c.task.Finishing?
    case ProcessNext(_) => c.inbox.drain.Between? && c.inbox.drain.rest != []
    case ReadyStep(_) => c.inbox.drain.Busy? && c.inbox.drain.stage.AwaitReady?
    case RemoteStep(ok) =>
      c.inbox.drain.Busy? && c.inbox.drain.stage.AwaitRemote? && (ok ==> c.inbox.drain.stage.outcome.Accepted?)
    case AnswerCreatedStep(_, _) => c.inbox.drain.Busy? && c.inbox.drain.stage.AwaitAnswer?
    case LocalAnswerStep(ok) =>
      c.inbox.drain.Busy? && c.inbox.drain.stage.AwaitLocalAnswer? && (ok ==> c.inbox.drain.stage.outcome.Accepted?)
    case ProcessFinallyStep => c.inbox.drain.Busy? && c.inbox.drain.stage.AwaitFinally?
    case CandidateStep(_) => c.inbox.drain.Busy? && c.inbox.drain.stage.AwaitCandidate?
    case BatchStep => c.inbox.drain == Between([])
  }

  function Step(c: Client, e: Event): Client
    requires Enabled(c, e)
  {
    match e
    case CallerStarts => StartAsCaller(c)
    case CalleeStarts(ms) => StartAsCallee(c, ms)
    case Receives(m) => ReceiveSignalingMessage(c, m)
    case NegotiationNeeded => OnNegotiationNeeded(c)
    case OfferCreatedStep(ok, willing) => OfferCreated(c, ok, willing)
    case OfferAppliedStep(ok) => OfferApplied(c, ok)
    case OfferFinallyStep => OfferFinally(c)
    case ProcessNext(willing) => ProcessSignalingMessage(c, willing)
    case ReadyStep(willing) => ReadySettled(c, willing)
    case RemoteStep(ok) => RemoteSettled(c, ok)
    case AnswerCreatedStep(ok, willing) => AnswerCreated(c, ok, willing)
    case LocalAnswerStep(ok) => LocalAnswerSettled(c, ok)
    case ProcessFinallyStep => ProcessFinally(c)
    case CandidateStep(ok) => c.(inbox := FinishCurrent(c.inbox, if ok then Accepted else Refused))
    case BatchStep => c.(inbox := BatchSettled(c.role, c.inbox))
  }

  /** Every event of the sequence can happen when its turn comes. */
  predicate ValidRun(c: Client, es: seq<Event>)
    decreases |es|
  {
    es == [] || (Enabled(c, es[0]) && ValidRun(Step(c, es[0]), es[1..]))
  }

  function After(c: Client, es: seq<Event>): Client
    requires ValidRun(c, es)
    decreases |es|
  {
    if es == [] then c else After(Step(c, es[0]), es[1..])
  }
}
