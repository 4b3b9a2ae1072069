/**
 `PeerConnectionClient` with its fields, updated in place by the bodies of its methods and of its promise
 continuations. Every method is proved against the function of `Negotiation` of the same name; `Wired` says that the
 flags of the source (`makingOffer_`, `polite_`, `isDrainingMessages_`, `isSettingRemoteAnswerPending_`) mean what the
 tasks of the model mean, and `Valid` that a run of events leads to the client, so that the theorems about runs hold of
 it. Every body that the browser or the page calls keeps `Valid`; the parts of such bodies keep `Wired`.
 */
module PeerConnection {
  import opened Options
  import opened Negotiation
  import opened NegotiationTheorems

  function Switch(b: bool): Flag {
    if b then On else Off
  }

  class PeerConnectionClient {
    const sfuMode: bool
    var started: bool
    var isInitiator: bool
    var polite: bool
    var makingOffer: bool
    var ignoreOffer: bool
    var isSettingRemoteAnswerPending: bool
    var offerRevision: nat
    var renegotiationPending: bool
    var pendingRemoteRequestId: Option<string>
    var hasRemoteSdp: bool
    var isDrainingMessages: bool
    var messageQueue: seq<Message>

    // The peer connection, and the continuations registered on its promises.
    var signalingState: SignalingState
    var offerTask: OfferTask
    var drain: Drain

    ghost var arrived: seq<Message>
    ghost var settled: seq<Settled>
    ghost var log: seq<Entry>

    /** The flags say what the tasks say. */
    ghost predicate Wired()
      reads this
    {
      && (makingOffer <==> !offerTask.NoOffer?)
      && (isDrainingMessages <==> !drain.Idle?)
      && (isSettingRemoteAnswerPending <==> drain.Busy? && drain.current.Answer?)
      && (started ==> (polite <==> !isInitiator || sfuMode))
      && (!started ==> !polite)
    }

    /** The client is where some run of events takes a new one. */
    ghost predicate Valid()
      reads this
    {
      Wired() && Reachable(View())
    }

    ghost function Mailbox(): Inbox
      reads this
    {
      Inbox(Switch(hasRemoteSdp), messageQueue, drain, arrived, settled)
    }

    ghost function View(): Client
      reads this
    {
      Client(
        if sfuMode then Sfu else P2p,
        if !started then NotStarted else if isInitiator then Caller else Callee,
        signalingState, offerRevision, Switch(renegotiationPending), offerTask,
        Switch(ignoreOffer), pendingRemoteRequestId, Mailbox(), log)
    }

    constructor (sfuMode: bool)
      ensures Valid() && View() == Fresh(if sfuMode then Sfu else P2p)
    {
      this.sfuMode := sfuMode;
      started, isInitiator, polite := false, false, false;
      makingOffer, ignoreOffer, isSettingRemoteAnswerPending := false, false, false;
      offerRevision, renegotiationPending, pendingRemoteRequestId := 0, false, None;
      hasRemoteSdp, isDrainingMessages, messageQueue := false, false, [];
      signalingState, offerTask, drain := Stable, NoOffer, Idle;
      arrived, settled, log := [], [], [];
      FreshIsReachable(if sfuMode then Sfu else P2p);
    }

    /** What the run theorems say in terms of the fields: with nothing in progress in stable, no publish is owed. */
    lemma NothingIsOwed()
      requires Valid() && !makingOffer && !isDrainingMessages && signalingState.Stable?
      ensures !renegotiationPending
    {
      ReachableKeeps(View());
    }

    /** `setLocalDescription` or `setRemoteDescription`: the browser takes the description or refuses it. */
    method Set(d: Description, willing: bool) returns (outcome: Outcome)
      requires Wired()
      modifies `signalingState
      ensures Wired() && View() == old(View()).(signaling := SetDescription(old(signalingState), d, willing))
      ensures outcome == Offered(old(signalingState), d, willing)
    {
      outcome := Offered(signalingState, d, willing);
      signalingState := SetDescription(signalingState, d, willing);
    }

    /** The next message of the batch is now the one in progress. */
    method Start(message: Message, stage: Stage, rest: seq<Message>)
      requires Wired() && drain.Between?
      modifies `drain, `isSettingRemoteAnswerPending
      ensures Wired() && View() == old(View()).(inbox := Begin(old(Mailbox()), message, stage, rest))
    {
      isSettingRemoteAnswerPending := message.Answer?;
      drain := Busy(message, stage, rest);
    }

    /** The message in progress comes to wait for another promise. */
    method Await(stage: Stage)
      requires Wired() && drain.Busy?
      modifies `drain
      ensures Wired() && View() == old(View()).(inbox := At(old(Mailbox()), stage))
    {
      drain := Busy(drain.current, stage, drain.rest);
    }

    /** The message in progress leaves its batch, and takes the rest with it if it was rejected. */
    method Leave(outcome: Outcome)
      requires Wired() && drain.Busy?
      modifies `drain, `settled, `isSettingRemoteAnswerPending
      ensures Wired() && View() == old(View()).(inbox := FinishCurrent(old(Mailbox()), outcome))
    {
      isSettingRemoteAnswerPending := false;
      if outcome == Refused {
        settled := settled + ([Settled(drain.current, Failed)] + SkipAll(drain.rest));
        drain := Between([]);
      } else {
        settled := settled + [Settled(drain.current, Processed)];
        drain := Between(drain.rest);
      }
    }

    /** The next message leaves the batch without having been given to the peer connection. */
    method Skip(message: Message, rest: seq<Message>)
      requires Wired() && drain.Between?
      modifies `drain, `settled
      ensures Wired() && View() == old(View()).(inbox := Ignore(old(Mailbox()), message, rest))
    {
      settled := settled + [Settled(message, Ignored)];
      drain := Between(rest);
    }

    /** The offer in the making comes to wait for another promise. */
    method Continue(task: OfferTask)
      requires Wired() && !offerTask.NoOffer? && !task.NoOffer?
      modifies `offerTask
      ensures Wired() && View() == old(View()).(task := task)
    {
      offerTask := task;
    }

    method MakeOffer()
      requires Wired()
      modifies this
      ensures Wired() && View() == Negotiation.MakeOffer(old(View()))
    {
      if makingOffer {
        return;
      }
      makingOffer := true;
      offerRevision := offerRevision + 1;
      offerTask := Creating(offerRevision, OccasionOf(drain));
      log := log + [CreateOffer(offerRevision)];
    }

    method MaybeRenegotiate()
      requires Wired()
      modifies this
      ensures Wired() && View() == Negotiation.MaybeRenegotiate(old(View()))
    {
      if !renegotiationPending || makingOffer || signalingState != Stable {
        return;
      }
      renegotiationPending := false;
      MakeOffer();
    }

    method OnNegotiationNeeded()
      requires Valid()
      modifies this
      ensures Valid() && View() == Negotiation.OnNegotiationNeeded(old(View()))
    {
      StepKeepsReachable(View(), NegotiationNeeded);
      if !sfuMode || !started || signalingState != Stable || makingOffer {
        return;
      }
      MakeOffer();
    }

    /** The `then` of `createOffer`, or its rejection. */
    method OfferCreated(ok: bool, willing: bool)
      requires Valid() && offerTask.Creating?
      modifies this
      ensures Valid() && View() == Negotiation.OfferCreated(old(View()), ok, willing)
    {
      StepKeepsReachable(View(), OfferCreatedStep(ok, willing));
      var revision := offerTask.revision;
      if !ok || revision != offerRevision || signalingState != Stable {
        log := log + [Abandon(revision, WhyDiscarded(View(), ok))];
        Continue(Finishing);
        return;
      }
      log := log + [ApplyOffer(revision, signalingState)];
      var outcome := Set(LocalOffer, willing);
      Continue(Applying(revision, outcome));
    }

    /** The `then` of `setLocalDescription(offer)`, or its rejection. */
    method OfferApplied(ok: bool)
      requires Valid() && offerTask.Applying? && (ok ==> offerTask.outcome.Accepted?)
      modifies this
      ensures Valid() && View() == Negotiation.OfferApplied(old(View()), ok)
    {
      StepKeepsReachable(View(), OfferAppliedStep(ok));
      log := log + [if ok then SendOffer(offerTask.revision) else Abandon(offerTask.revision, SettingRejected)];
      Continue(Finishing);
    }

    /** The `finally` of `makeOffer_`. */
    method OfferFinally()
      requires Valid() && offerTask.Finishing?
      modifies this
      ensures Valid() && View() == Negotiation.OfferFinally(old(View()))
    {
      StepKeepsReachable(View(), OfferFinallyStep);
      makingOffer := false;
      offerTask := NoOffer;
      MaybeRenegotiate();
    }

    method DrainMessageQueue()
      requires Wired()
      modifies `isDrainingMessages, `drain, `messageQueue
      ensures Wired()
      ensures Mailbox() == Negotiation.DrainMessageQueue(old(View()).role, old(Mailbox()))
      ensures View() == old(View()).(inbox := Mailbox())
    {
      if !started || !hasRemoteSdp || isDrainingMessages {
        return;
      }
      isDrainingMessages := true;
      drain := Between(messageQueue);
      messageQueue := [];
    }

    /** The part of `receiveSignalingMessage` before the queue is drained. */
    method Enqueue(message: Message)
      requires Wired()
      modifies `hasRemoteSdp, `messageQueue, `arrived
      ensures Wired() && View() == old(View()).(inbox := Mailbox())
      ensures Mailbox() == Queued(old(Mailbox()), message)
    {
      if message.Offer? || message.Answer? {
        hasRemoteSdp := true;
        messageQueue := messageQueue + [message];
        arrived := arrived + [message];
      } else if message.Candidate? || message.EndOfCandidates? {
        messageQueue := messageQueue + [message];
        arrived := arrived + [message];
      }
    }

    method ReceiveSignalingMessage(message: Message)
      requires Wired()
      modifies `hasRemoteSdp, `messageQueue, `arrived, `isDrainingMessages, `drain
      ensures Wired() && View() == Negotiation.ReceiveSignalingMessage(old(View()), message)
      ensures old(Valid()) ==> Valid()
    {
      if Reachable(View()) { StepKeepsReachable(View(), Receives(message)); }
      if message.Malformed? {
        return;
      }
      Enqueue(message);
      DrainMessageQueue();
    }

    method StartAsCaller() returns (first: bool)
      requires Valid()
      modifies this
      ensures Valid() && View() == Negotiation.StartAsCaller(old(View()))
      ensures first == !old(started)
    {
      StepKeepsReachable(View(), CallerStarts);
      if started {
        return false;
      }
      isInitiator := true;
      started := true;
      polite := sfuMode;
      MakeOffer();
      return true;
    }

    method StartAsCallee(initialMessages: seq<Message>) returns (first: bool)
      requires Valid()
      modifies this
      ensures Valid() && View() == Negotiation.StartAsCallee(old(View()), initialMessages)
      ensures first == !old(started)
    {
      StepKeepsReachable(View(), CalleeStarts(initialMessages));
      if started {
        return false;
      }
      isInitiator := false;
      started := true;
      polite := true;
      if |initialMessages| > 0 {
        ghost var begun := View();
        var i := 0;
        while i < |initialMessages|
          invariant 0 <= i <= |initialMessages| && Wired() && started && !isInitiator
          invariant View() == begun.(inbox := Mailbox())
          invariant ReceiveAll(Callee, Mailbox(), initialMessages[i..]) == ReceiveAll(Callee, begun.inbox, initialMessages)
        {
          assert initialMessages[i..][1..] == initialMessages[i + 1..];
          ReceiveSignalingMessage(initialMessages[i]);
          i := i + 1;
        }
        return true;
      }
      if |messageQueue| > 0 {
        DrainMessageQueue();
      }
      return true;
    }

    /** The branch of `processV2Description_` that voids pending offers and notes the owed publish. */
    method AcceptCollision()
      requires Wired()
      modifies `offerRevision, `log, `renegotiationPending
      ensures Wired() && View() == Collide(old(View()))
    {
      offerRevision := offerRevision + 1;
      log := log + [Collision(offerRevision)];
      if sfuMode {
        renegotiationPending := true;
      }
    }

    /** `setLocalDescription({type: 'rollback'})` when the colliding offer finds a negotiation under way. */
    method RollBack(willing: bool) returns (ready: Outcome)
      requires Wired()
      modifies `signalingState
      ensures Wired() && View() == old(View()).(signaling := RolledBack(old(signalingState), willing))
      ensures ready == RollbackOutcome(old(signalingState), willing)
    {
      ready := Accepted;
      if signalingState != Stable {
        ready := Set(Rollback, willing);
      }
    }

    method NoteRequestId(message: Message)
      requires Wired()
      modifies `pendingRemoteRequestId
      ensures Wired() && View() == old(View()).(pendingRemoteRequestId := RequestIdOf(old(View()), message))
    {
      if sfuMode && message.Offer? {
        pendingRemoteRequestId := message.requestId;
      }
    }

    /** The end of `processV2Description_`: the request id, and the promise that follows. */
    method BeginDescription(message: Message, ready: Outcome, rest: seq<Message>)
      requires Wired() && drain.Between?
      modifies `ignoreOffer, `pendingRemoteRequestId, `isSettingRemoteAnswerPending, `drain
      ensures Wired() && View() == TakeUp(old(View()), message, ready, rest)
    {
      ignoreOffer := false;
      NoteRequestId(message);
      Start(message, AwaitReady(ready), rest);
    }

    /** `processV2Description_` when this client yields to a colliding offer. */
    method YieldToCollision(message: Message, rest: seq<Message>, willing: bool)
      requires Wired() && drain.Between? && OfferCollision(View(), message) && polite
      modifies `ignoreOffer, `offerRevision, `log, `renegotiationPending, `signalingState, `pendingRemoteRequestId,
               `isSettingRemoteAnswerPending, `drain
      ensures Wired() && View() == Negotiation.ProcessV2Description(old(View()), message, rest, willing)
    {
      AcceptCollision();
      var ready := RollBack(willing);
      BeginDescription(message, ready, rest);
    }

    /** `processV2Description_` on the next message of the batch, up to the promise it returns. */
    method ProcessV2Description(message: Message, rest: seq<Message>, willing: bool)
      requires Wired() && IsDescription(message) && drain.Between?
      modifies this
      ensures Wired() && View() == Negotiation.ProcessV2Description(old(View()), message, rest, willing)
    {
      var isOffer := message.Offer?;
      var readyForOffer := !makingOffer && (signalingState == Stable || isSettingRemoteAnswerPending);
      var offerCollision := isOffer && !readyForOffer;
      assert offerCollision == OfferCollision(View(), message);
      if !offerCollision {
        BeginDescription(message, Accepted, rest);
      } else if !polite {
        ignoreOffer := true;
        Skip(message, rest);
      } else {
        YieldToCollision(message, rest, willing);
      }
    }

    method ProcessSignalingMessage(willing: bool)
      requires Valid() && drain.Between? && drain.rest != []
      modifies this
      ensures Valid() && View() == Negotiation.ProcessSignalingMessage(old(View()), willing)
    {
      StepKeepsReachable(View(), ProcessNext(willing));
      var message, rest := drain.rest[0], drain.rest[1..];
      if IsDescription(message) {
        ProcessV2Description(message, rest, willing);
      } else if ignoreOffer {
        Skip(message, rest);
      } else {
        log := log + [AddCandidate(|settled|)];
        Start(message, AwaitCandidate, rest);
      }
    }

    /** The `then` of the rollback, or its rejection. */
    method ReadySettled(willing: bool)
      requires Valid() && drain.Busy? && drain.stage.AwaitReady?
      modifies this
      ensures Valid() && View() == Negotiation.ReadySettled(old(View()), willing)
    {
      StepKeepsReachable(View(), ReadyStep(willing));
      if drain.stage.outcome == Refused {
        Await(AwaitFinally(Refused));
        return;
      }
      var kind := RemoteKind(drain.current);
      ghost var from := signalingState;
      var outcome := Set(kind, willing);
      if outcome == Accepted {
        log := log + [ApplyRemote(|settled|, from)];
      }
      Await(AwaitRemote(outcome));
    }

    /** The `then` of `setRemoteDescription`, or its rejection. */
    method RemoteSettled(ok: bool)
      requires Valid() && drain.Busy? && drain.stage.AwaitRemote? && (ok ==> drain.stage.outcome.Accepted?)
      modifies this
      ensures Valid() && View() == Negotiation.RemoteSettled(old(View()), ok)
    {
      StepKeepsReachable(View(), RemoteStep(ok));
      if !ok {
        Await(AwaitFinally(Refused));
        return;
      }
      ignoreOffer := false;
      Await(if drain.current.Offer? then AwaitAnswer else AwaitFinally(Accepted));
    }

    /** The `then` of `createAnswer`, or its rejection. */
    method AnswerCreated(ok: bool, willing: bool)
      requires Valid() && drain.Busy? && drain.stage.AwaitAnswer?
      modifies this
      ensures Valid() && View() == Negotiation.AnswerCreated(old(View()), ok, willing)
    {
      StepKeepsReachable(View(), AnswerCreatedStep(ok, willing));
      if !ok {
        Await(AwaitFinally(Refused));
        return;
      }
      var outcome := Set(LocalAnswer, willing);
      Await(AwaitLocalAnswer(outcome));
    }

    method SendAnswer()
      requires Wired()
      modifies `log, `pendingRemoteRequestId
      ensures Wired()
      ensures View() == old(View()).(log := old(log) + [Entry.SendAnswer(|settled|, old(pendingRemoteRequestId))],
                                     pendingRemoteRequestId := None)
    {
      log := log + [Entry.SendAnswer(|settled|, pendingRemoteRequestId)];
      pendingRemoteRequestId := None;
    }

    /** The `then` of `setLocalDescription(answer)`, or its rejection. */
    method LocalAnswerSettled(ok: bool)
      requires Valid() && drain.Busy? && drain.stage.AwaitLocalAnswer? && (ok ==> drain.stage.outcome.Accepted?)
      modifies this
      ensures Valid() && View() == Negotiation.LocalAnswerSettled(old(View()), ok)
    {
      StepKeepsReachable(View(), LocalAnswerStep(ok));
      if !ok {
        Await(AwaitFinally(Refused));
        return;
      }
      SendAnswer();
      Await(AwaitFinally(Accepted));
    }

    /** The `finally` of `processV2Description_`. */
    method ProcessFinally()
      requires Valid() && drain.Busy? && drain.stage.AwaitFinally?
      modifies this
      ensures Valid() && View() == Negotiation.ProcessFinally(old(View()))
    {
      StepKeepsReachable(View(), ProcessFinallyStep);
      Leave(drain.stage.outcome);
      MaybeRenegotiate();
    }

    /** `addIceCandidate` settled. */
    method CandidateSettled(ok: bool)
      requires Valid() && drain.Busy? && drain.stage.AwaitCandidate?
      modifies this
      ensures Valid()
      ensures View() == old(View()).(inbox := FinishCurrent(old(Mailbox()), if ok then Accepted else Refused))
    {
      StepKeepsReachable(View(), CandidateStep(ok));
      Leave(if ok then Accepted else Refused);
    }

    /** The last `then` of `drainMessageQueue_`. */
    method BatchSettled()
      requires Valid() && drain == Between([])
      modifies `isDrainingMessages, `drain, `messageQueue
      ensures Valid()
      ensures View() == old(View()).(inbox := Negotiation.BatchSettled(old(View()).role, old(Mailbox())))
    {
      StepKeepsReachable(View(), BatchStep);
      isDrainingMessages := false;
      drain := Idle;
      if |messageQueue| > 0 {
        DrainMessageQueue();
      }
    }

    /** Every event of the model has its method, and the methods take the client where the event takes the value. */
    method Handle(e: Event)
      requires Valid() && Enabled(View(), e)
      modifies this
      ensures Valid() && View() == Step(old(View()), e)
    {
      match e {
        case CallerStarts => var _ := StartAsCaller();
        case CalleeStarts(ms) => var _ := StartAsCallee(ms);
        case Receives(m) => ReceiveSignalingMessage(m);
        case NegotiationNeeded => OnNegotiationNeeded();
        case OfferCreatedStep(ok, willing) => OfferCreated(ok, willing);
        case OfferAppliedStep(ok) => OfferApplied(ok);
        case OfferFinallyStep => OfferFinally();
        case ProcessNext(willing) => ProcessSignalingMessage(willing);
        case ReadyStep(willing) => ReadySettled(willing);
        case RemoteStep(ok) => RemoteSettled(ok);
        case AnswerCreatedStep(ok, willing) => AnswerCreated(ok, willing);
        case LocalAnswerStep(ok) => LocalAnswerSettled(ok);
        case ProcessFinallyStep => ProcessFinally();
        case CandidateStep(ok) => CandidateSettled(ok);
        case BatchStep => BatchSettled();
      }
    }

    /** So the methods play every run. */
    method Play(es: seq<Event>)
      requires Valid() && ValidRun(View(), es)
      modifies this
      ensures Valid() && View() == After(old(View()), es)
    {
      var i := 0;
      while i < |es|
        invariant 0 <= i <= |es| && Valid() && ValidRun(View(), es[i..])
        invariant After(View(), es[i..]) == After(old(View()), es)
      {
        assert es[i..][1..] == es[i + 1..];
        Handle(es[i]);
        i := i + 1;
      }
    }
  }
}
