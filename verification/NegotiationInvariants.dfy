/**
 What every interleaving of a V2 client keeps: the shape of its tasks, the revision fence around local offers, the
 debt of a displaced publish offer, the ledger of incoming messages, and the request id an answer carries.
 */
module NegotiationInvariants {
  import opened Options
  import opened Negotiation

  // ---------------------------------------------------------------- shape

  function Current(i: Inbox): seq<Message> {
    if i.drain.Busy? then [i.drain.current] else []
  }

  function Rest(i: Inbox): seq<Message> {
    if i.drain.Idle? then [] else i.drain.rest
  }

  predicate AllQueued(ms: seq<Message>) {
    forall k | 0 <= k < |ms| :: IsQueued(ms[k])
  }

  predicate Shape(i: Inbox) {
    && (i.drain.Busy? ==>
          && IsQueued(i.drain.current)
          && (i.drain.stage.AwaitCandidate? <==> !IsDescription(i.drain.current))
          && (i.drain.stage.AwaitAnswer? || i.drain.stage.AwaitLocalAnswer? ==> i.drain.current.Offer?))
    && AllQueued(Rest(i))
    && AllQueued(i.messageQueue)
  }

  /** The steps of `makeOffer_` and of its callers. */
  predicate OfferSide(e: Event) {
    e.CallerStarts? || e.NegotiationNeeded? || e.OfferCreatedStep? || e.OfferAppliedStep? || e.OfferFinallyStep?
  }

  /** The arrival of messages. */
  predicate ArrivalSide(e: Event) {
    e.CalleeStarts? || e.Receives?
  }

  /** The steps between the first look at a message and its end. */
  predicate MiddleSide(e: Event) {
    e.ReadyStep? || e.RemoteStep? || e.AnswerCreatedStep? || e.LocalAnswerStep?
  }

  /** The end of a message and of its batch. */
  predicate ClosingSide(e: Event) {
    e.ProcessFinallyStep? || e.CandidateStep? || e.BatchStep?
  }

  lemma ReceiveKeepsShape(role: Role, i: Inbox, m: Message)
    requires Shape(i)
    ensures Shape(Receive(role, i, m))
  {
  }

  lemma ReceiveAllKeepsShape(i: Inbox, ms: seq<Message>)
    requires Shape(i)
    ensures Shape(ReceiveAll(Callee, i, ms))
    decreases |ms|
  {
    if ms != [] {
      ReceiveKeepsShape(Callee, i, ms[0]);
      ReceiveAllKeepsShape(Receive(Callee, i, ms[0]), ms[1..]);
    }
  }

  lemma OfferSideKeepsInbox(c: Client, e: Event)
    requires Enabled(c, e) && OfferSide(e)
    ensures Step(c, e).inbox == c.inbox && Step(c, e).mode == c.mode
    ensures Step(c, e).pendingRemoteRequestId == c.pendingRemoteRequestId
  {
  }

  lemma ArrivalSideKeepsShape(c: Client, e: Event)
    requires Shape(c.inbox) && Enabled(c, e) && ArrivalSide(e)
    ensures Shape(Step(c, e).inbox)
  {
    match e
    case Receives(m) => ReceiveKeepsShape(c.role, c.inbox, m);
    case CalleeStarts(ms) => ReceiveAllKeepsShape(c.inbox, ms);
  }

  lemma StepKeepsShape(c: Client, e: Event)
    requires Shape(c.inbox) && Enabled(c, e)
    ensures Shape(Step(c, e).inbox)
  {
    if OfferSide(e) { OfferSideKeepsInbox(c, e); }
    else if ArrivalSide(e) { ArrivalSideKeepsShape(c, e); }
  }

  // ---------------------------------------------------------------- the revision fence

  /** The revision of the last `createOffer` or accepted collision. */
  function LastRevision(log: seq<Entry>): nat {
    if log == [] then 0
    else
      var e := log[|log| - 1];
      if e.CreateOffer? || e.Collision? then e.revision else LastRevision(log[..|log| - 1])
  }

  /** The revision an entry about a local offer names; 0 for any other entry. */
  function RevisionOf(e: Entry): nat {
    if e.CreateOffer? || e.Collision? || e.ApplyOffer? || e.SendOffer? then e.revision else 0
  }

  /** What the entries before an entry about a local offer must say. */
  ghost predicate EntryFenced(before: seq<Entry>, e: Entry) {
    match e
    case CreateOffer(r) => r == LastRevision(before) + 1
    case Collision(r) => r == LastRevision(before) + 1
    case ApplyOffer(r, at) =>
      at.Stable? && r == LastRevision(before) && CreateOffer(r) in before && ApplyOffer(r, Stable) !in before
    case SendOffer(r) => ApplyOffer(r, Stable) in before && SendOffer(r) !in before
    case _ => true
  }

  ghost predicate Fenced(log: seq<Entry>) {
    forall k | 0 <= k < |log| :: EntryFenced(log[..k], log[k])
  }

  ghost predicate Bounded(log: seq<Entry>, revision: nat) {
    forall k | 0 <= k < |log| :: RevisionOf(log[k]) <= revision
  }

  ghost predicate TaskFenced(log: seq<Entry>, task: OfferTask) {
    match task
    case Creating(r, _) => CreateOffer(r) in log && ApplyOffer(r, Stable) !in log && SendOffer(r) !in log
    case Applying(r, _) => ApplyOffer(r, Stable) in log && SendOffer(r) !in log
    case _ => true
  }

  ghost predicate Fence(c: Client) {
    && Fenced(c.log)
    && c.offerRevision == LastRevision(c.log)
    && Bounded(c.log, c.offerRevision)
    && TaskFenced(c.log, c.task)
  }

  /** Some collision has not been followed by a fresh offer. */
  function Owed(log: seq<Entry>): bool {
    log != [] &&
    var e := log[|log| - 1];
    e.Collision? || (!e.CreateOffer? && Owed(log[..|log| - 1]))
  }

  lemma Append(log: seq<Entry>, e: Entry)
    ensures LastRevision(log + [e]) == if e.CreateOffer? || e.Collision? then e.revision else LastRevision(log)
    ensures Owed(log + [e]) == (e.Collision? || (!e.CreateOffer? && Owed(log)))
  {
    assert (log + [e])[..|log|] == log;
  }

  lemma AppendFenced(log: seq<Entry>, e: Entry)
    requires Fenced(log) && EntryFenced(log, e)
    ensures Fenced(log + [e])
  {
    var log' := log + [e];
    forall k | 0 <= k < |log'| ensures EntryFenced(log'[..k], log'[k]) {
      assert log'[..k] == if k < |log| then log[..k] else log;
    }
  }

  /** One entry more, whatever the rest of the client does. */
  lemma FenceGrows(c: Client, e: Entry, c': Client)
    requires Fence(c) && EntryFenced(c.log, e) && RevisionOf(e) <= c'.offerRevision
    requires c'.log == c.log + [e]
    requires c'.offerRevision == if e.CreateOffer? || e.Collision? then e.revision else c.offerRevision
    requires TaskFenced(c'.log, c'.task)
    ensures Fence(c')
  {
    Append(c.log, e);
    AppendFenced(c.log, e);
  }

  lemma MakeOfferKeepsFence(c: Client)
    requires Fence(c)
    ensures Fence(MakeOffer(c))
  {
    if !MakingOffer(c) {
      FenceGrows(c, CreateOffer(c.offerRevision + 1), MakeOffer(c));
    }
  }

  lemma MaybeRenegotiateKeepsFence(c: Client)
    requires Fence(c)
    ensures Fence(MaybeRenegotiate(c))
  {
    MakeOfferKeepsFence(c.(renegotiationPending := Off));
  }

  lemma OfferSideKeepsFence(c: Client, e: Event)
    requires Fence(c) && Enabled(c, e) && OfferSide(e)
    ensures Fence(Step(c, e))
  {
    match e
    case CallerStarts => MakeOfferKeepsFence(c.(role := Caller));
    case NegotiationNeeded => MakeOfferKeepsFence(c);
    case OfferCreatedStep(ok, willing) =>
      if ok && c.task.revision == c.offerRevision && c.signaling.Stable? {
        FenceGrows(c, ApplyOffer(c.task.revision, Stable), Step(c, e));
      } else {
        FenceGrows(c, Abandon(c.task.revision, WhyDiscarded(c, ok)), Step(c, e));
      }
    case OfferAppliedStep(ok) => FenceGrows(c, Step(c, e).log[|c.log|], Step(c, e));
    case OfferFinallyStep => MaybeRenegotiateKeepsFence(c.(task := NoOffer));
  }

  lemma ProcessNextKeepsFence(c: Client, willing: bool)
    requires Fence(c) && Enabled(c, ProcessNext(willing))
    ensures Fence(ProcessSignalingMessage(c, willing))
  {
    var c' := ProcessSignalingMessage(c, willing);
    if c'.log != c.log {
      var e := c'.log[|c.log|];
      FenceGrows(c, e, c');
    }
  }

  lemma MiddleSideKeepsFence(c: Client, e: Event)
    requires Fence(c) && Enabled(c, e) && MiddleSide(e)
    ensures Fence(Step(c, e))
  {
    var c' := Step(c, e);
    if c'.log != c.log {
      FenceGrows(c, c'.log[|c.log|], c');
    }
  }

  lemma StepKeepsFence(c: Client, e: Event)
    requires Fence(c) && Enabled(c, e)
    ensures Fence(Step(c, e))
  {
    if OfferSide(e) { OfferSideKeepsFence(c, e); }
    else if MiddleSide(e) { MiddleSideKeepsFence(c, e); }
    else if e.ProcessNext? { ProcessNextKeepsFence(c, e.willing); }
    else if e.ProcessFinallyStep? {
      MaybeRenegotiateKeepsFence(c.(inbox := FinishCurrent(c.inbox, c.inbox.drain.stage.outcome)));
    }
  }

  // ---------------------------------------------------------------- the owed publish

  ghost predicate Debt(c: Client) {
    && (c.renegotiationPending.On? ==>
          c.mode.Sfu? && (MakingOffer(c) || InDescription(c.inbox) || !c.signaling.Stable?))
    && (c.mode.Sfu? && Owed(c.log) ==> c.renegotiationPending.On?)
  }

  lemma ReceiveKeepsBusy(role: Role, i: Inbox, m: Message)
    ensures Receive(role, i, m).drain == i.drain || (i.drain.Idle? && Receive(role, i, m).drain.Between?)
  {
  }

  lemma ReceiveAllKeepsBusy(i: Inbox, ms: seq<Message>)
    ensures ReceiveAll(Callee, i, ms).drain == i.drain || (i.drain.Idle? && ReceiveAll(Callee, i, ms).drain.Between?)
    decreases |ms|
  {
    if ms != [] {
      ReceiveKeepsBusy(Callee, i, ms[0]);
      ReceiveAllKeepsBusy(Receive(Callee, i, ms[0]), ms[1..]);
    }
  }

  /** `maybeRenegotiate_` pays the debt, or leaves it to whoever still holds the negotiation. */
  lemma MaybeRenegotiatePays(c: Client)
    requires c.renegotiationPending.On? ==> c.mode.Sfu?
    requires c.mode.Sfu? && Owed(c.log) ==> c.renegotiationPending.On?
    ensures Debt(MaybeRenegotiate(c))
  {
    if !MakingOffer(c) { Append(c.log, CreateOffer(c.offerRevision + 1)); }
  }

  lemma OfferSideKeepsDebt(c: Client, e: Event)
    requires Debt(c) && Enabled(c, e) && OfferSide(e)
    ensures Debt(Step(c, e))
  {
    match e
    case CallerStarts => Append(c.log, CreateOffer(c.offerRevision + 1));
    case NegotiationNeeded => Append(c.log, CreateOffer(c.offerRevision + 1));
    case OfferCreatedStep(ok, _) =>
      Append(c.log, ApplyOffer(c.task.revision, c.signaling));
      Append(c.log, Abandon(c.task.revision, WhyDiscarded(c, ok)));
    case OfferAppliedStep(_) =>
      Append(c.log, SendOffer(c.task.revision));
      Append(c.log, Abandon(c.task.revision, SettingRejected));
    case OfferFinallyStep => MaybeRenegotiatePays(c.(task := NoOffer));
  }

  lemma StepKeepsDebt(c: Client, e: Event)
    requires Debt(c) && Shape(c.inbox) && Enabled(c, e)
    ensures Debt(Step(c, e))
  {
    if OfferSide(e) { OfferSideKeepsDebt(c, e); }
    else {
      match e
      case Receives(m) => ReceiveKeepsBusy(c.role, c.inbox, m);
      case CalleeStarts(ms) => ReceiveAllKeepsBusy(c.inbox, ms);
      case ProcessNext(_) =>
        Append(c.log, Collision(c.offerRevision + 1));
        Append(c.log, AddCandidate(|c.inbox.settled|));
      case ReadyStep(_) => Append(c.log, ApplyRemote(|c.inbox.settled|, c.signaling));
      case LocalAnswerStep(_) => Append(c.log, SendAnswer(|c.inbox.settled|, c.pendingRemoteRequestId));
      case ProcessFinallyStep =>
        MaybeRenegotiatePays(c.(inbox := FinishCurrent(c.inbox, c.inbox.drain.stage.outcome)));
      case _ =>
    }
  }

  // ---------------------------------------------------------------- what becomes of the owed publish

  /** An offer made when no remote offer was waiting stays in stable until a collision voids it. */
  predicate Undisturbed(c: Client) {
    && (c.role.NotStarted? ==> c.signaling.Stable? && c.inbox.drain.Idle? && c.task.NoOffer?)
    && (c.task.Creating? ==> c.task.revision <= c.offerRevision)
    && (c.task.Creating? && c.task.revision == c.offerRevision && c.task.occasion.Clear? ==>
          c.signaling.Stable? && !OfferWaits(c.inbox.drain))
  }

  lemma OfferSideKeepsUndisturbed(c: Client, e: Event)
    requires Undisturbed(c) && Enabled(c, e) && OfferSide(e)
    ensures Undisturbed(Step(c, e))
  {
  }

  lemma ArrivalSideKeepsUndisturbed(c: Client, e: Event)
    requires Undisturbed(c) && Enabled(c, e) && ArrivalSide(e)
    ensures Undisturbed(Step(c, e))
  {
    match e
    case Receives(m) => ReceiveKeepsBusy(c.role, c.inbox, m);
    case CalleeStarts(ms) => ReceiveAllKeepsBusy(c.inbox, ms);
  }

  lemma ProcessNextKeepsUndisturbed(c: Client, willing: bool)
    requires Undisturbed(c) && Enabled(c, ProcessNext(willing))
    ensures Undisturbed(ProcessSignalingMessage(c, willing))
  {
  }

  lemma LaterSidesKeepUndisturbed(c: Client, e: Event)
    requires Undisturbed(c) && Enabled(c, e) && (MiddleSide(e) || ClosingSide(e))
    ensures Undisturbed(Step(c, e))
  {
  }

  lemma StepKeepsUndisturbed(c: Client, e: Event)
    requires Undisturbed(c) && Enabled(c, e)
    ensures Undisturbed(Step(c, e))
  {
    if OfferSide(e) { OfferSideKeepsUndisturbed(c, e); }
    else if ArrivalSide(e) { ArrivalSideKeepsUndisturbed(c, e); }
    else if e.ProcessNext? { ProcessNextKeepsUndisturbed(c, e.willing); }
    else { LaterSidesKeepUndisturbed(c, e); }
  }

  /** The revision of the last accepted collision; 0 if there was none. */
  function LastCollision(log: seq<Entry>): nat {
    if log == [] then 0
    else if log[|log| - 1].Collision? then log[|log| - 1].revision
    else LastCollision(log[..|log| - 1])
  }

  /** What a collision with this revision waits for: a later offer that is sent, or that fails other than by a collision. */
  predicate Concludes(e: Entry, revision: nat) {
    || (e.SendOffer? && e.revision > revision)
    || (e.Abandon? && e.revision > revision && (e.why.CreationRejected? || e.why.SettingRejected? || e.why.Preempted?))
  }

  /** The last collision has got it. */
  function Paid(log: seq<Entry>): bool {
    log == [] ||
    var init, e := log[..|log| - 1], log[|log| - 1];
    !e.Collision? && (Concludes(e, LastCollision(init)) || Paid(init))
  }

  lemma PaidAppend(log: seq<Entry>, e: Entry)
    ensures LastCollision(log + [e]) == if e.Collision? then e.revision else LastCollision(log)
    ensures Paid(log + [e]) == (!e.Collision? && (Concludes(e, LastCollision(log)) || Paid(log)))
  {
    assert (log + [e])[..|log|] == log;
  }

  function OfferRevision(task: OfferTask): nat {
    if task.Creating? || task.Applying? then task.revision else 0
  }

  /** An SFU client pays the last collision, still owes it, or has a later offer in the making. */
  ghost predicate Paying(c: Client) {
    && LastCollision(c.log) <= c.offerRevision
    && (OfferRevision(c.task) > 0 ==>
          OfferRevision(c.task) == c.offerRevision || OfferRevision(c.task) < LastCollision(c.log))
    && (c.mode.Sfu? ==>
          Paid(c.log) || c.renegotiationPending.On? || OfferRevision(c.task) > LastCollision(c.log))
  }

  lemma MakeOfferKeepsPaying(c: Client, pending: Flag)
    requires Paying(c) && !MakingOffer(c)
    ensures Paying(MakeOffer(c.(renegotiationPending := pending)))
  {
    PaidAppend(c.log, CreateOffer(c.offerRevision + 1));
  }

  lemma MaybeRenegotiateKeepsPaying(c: Client)
    requires Paying(c)
    ensures Paying(MaybeRenegotiate(c))
  {
    if !MakingOffer(c) { MakeOfferKeepsPaying(c, Off); }
  }

  /** An entry that is no collision, with nothing else changed that matters. */
  lemma EntryKeepsPaying(c: Client, e: Entry, c': Client)
    requires Paying(c) && !e.Collision?
    requires c'.log == c.log || c'.log == c.log + [e]
    requires c'.mode == c.mode && c'.offerRevision == c.offerRevision
    requires c'.renegotiationPending == c.renegotiationPending
    requires OfferRevision(c'.task) == OfferRevision(c.task)
    ensures Paying(c')
  {
    PaidAppend(c.log, e);
  }

  lemma OfferCreatedKeepsPaying(c: Client, ok: bool, willing: bool)
    requires Paying(c) && Undisturbed(c) && c.task.Creating?
    ensures Paying(OfferCreated(c, ok, willing))
  {
    PaidAppend(c.log, Abandon(c.task.revision, WhyDiscarded(c, ok)));
    PaidAppend(c.log, ApplyOffer(c.task.revision, c.signaling));
  }

  lemma OfferAppliedKeepsPaying(c: Client, ok: bool)
    requires Paying(c) && c.task.Applying?
    ensures Paying(OfferApplied(c, ok))
  {
    PaidAppend(c.log, OfferApplied(c, ok).log[|c.log|]);
  }

  lemma OfferSideKeepsPaying(c: Client, e: Event)
    requires Paying(c) && Undisturbed(c) && Enabled(c, e) && OfferSide(e)
    ensures Paying(Step(c, e))
  {
    match e
    case CallerStarts =>
      if !MakingOffer(c) { MakeOfferKeepsPaying(c.(role := Caller), c.renegotiationPending); }
    case NegotiationNeeded =>
      if !MakingOffer(c) { MakeOfferKeepsPaying(c, c.renegotiationPending); }
    case OfferCreatedStep(ok, willing) => OfferCreatedKeepsPaying(c, ok, willing);
    case OfferAppliedStep(ok) => OfferAppliedKeepsPaying(c, ok);
    case OfferFinallyStep =>
      EntryKeepsPaying(c, CreateOffer(0), c.(task := NoOffer));
      MaybeRenegotiateKeepsPaying(c.(task := NoOffer));
  }

  lemma ProcessNextKeepsPaying(c: Client, willing: bool)
    requires Paying(c) && Enabled(c, ProcessNext(willing))
    ensures Paying(ProcessSignalingMessage(c, willing))
  {
    PaidAppend(c.log, Collision(c.offerRevision + 1));
    PaidAppend(c.log, AddCandidate(|c.inbox.settled|));
  }

  lemma LaterSidesKeepPaying(c: Client, e: Event)
    requires Paying(c) && Enabled(c, e) && (MiddleSide(e) || ClosingSide(e) || ArrivalSide(e))
    ensures Paying(Step(c, e))
  {
    var c' := Step(c, e);
    if e.ProcessFinallyStep? {
      MaybeRenegotiateKeepsPaying(c.(inbox := FinishCurrent(c.inbox, c.inbox.drain.stage.outcome)));
    } else {
      EntryKeepsPaying(c, if c'.log == c.log then CreateOffer(0) else c'.log[|c.log|], c');
    }
  }

  lemma StepKeepsPaying(c: Client, e: Event)
    requires Paying(c) && Undisturbed(c) && Enabled(c, e)
    ensures Paying(Step(c, e))
  {
    if OfferSide(e) { OfferSideKeepsPaying(c, e); }
    else if e.ProcessNext? { ProcessNextKeepsPaying(c, e.willing); }
    else { LaterSidesKeepPaying(c, e); }
  }

  // ---------------------------------------------------------------- the message ledger

  function MessagesOf(s: seq<Settled>): (ms: seq<Message>)
    ensures |ms| == |s|
    ensures forall i | 0 <= i < |s| :: ms[i] == s[i].message
  {
    seq(|s|, i requires 0 <= i < |s| => s[i].message)
  }

  /** Every queued message is settled, being processed, in the batch, or still on the queue, in this order. */
  ghost predicate Books(i: Inbox) {
    i.arrived == MessagesOf(i.settled) + Current(i) + Rest(i) + i.messageQueue
  }

  /** Messages are skipped only because a step before them was rejected. */
  ghost predicate SkipsExplained(s: seq<Settled>) {
    forall k | 0 <= k < |s| && s[k].fate.Skipped? :: exists j :: 0 <= j < k && s[j].fate.Failed?
  }

  ghost predicate Ledger(c: Client) {
    && Books(c.inbox)
    && SkipsExplained(c.inbox.settled)
  }

  /** Messages wait although nothing is being processed. */
  predicate Stuck(c: Client) {
    !c.role.NotStarted? && c.inbox.hasRemoteSdp.On? && c.inbox.drain.Idle? && c.inbox.messageQueue != []
  }

  lemma MessagesOfAppend(s: seq<Settled>, t: seq<Settled>)
    ensures MessagesOf(s + t) == MessagesOf(s) + MessagesOf(t)
  {
  }

  lemma ReceiveKeepsBooks(role: Role, i: Inbox, m: Message)
    requires Books(i)
    ensures Books(Receive(role, i, m))
  {
  }

  lemma ReceiveAllKeepsBooks(i: Inbox, ms: seq<Message>)
    requires Books(i)
    ensures Books(ReceiveAll(Callee, i, ms))
    decreases |ms|
  {
    if ms != [] {
      ReceiveKeepsBooks(Callee, i, ms[0]);
      ReceiveAllKeepsBooks(Receive(Callee, i, ms[0]), ms[1..]);
    }
  }

  lemma SkipsExplainedAppend(s: seq<Settled>, x: Settled)
    requires SkipsExplained(s) && !x.fate.Skipped?
    ensures SkipsExplained(s + [x])
  {
    var s' := s + [x];
    forall k | 0 <= k < |s'| && s'[k].fate.Skipped? ensures exists j :: 0 <= j < k && s'[j].fate.Failed? {
      var j :| 0 <= j < k && s[j].fate.Failed?;
      assert s'[j].fate.Failed?;
    }
  }

  lemma IgnoreKeepsBooks(i: Inbox)
    requires Books(i) && i.drain.Between? && i.drain.rest != []
    ensures Books(Ignore(i, i.drain.rest[0], i.drain.rest[1..]))
  {
    MessagesOfAppend(i.settled, [Settled(i.drain.rest[0], Ignored)]);
    assert i.drain.rest == [i.drain.rest[0]] + i.drain.rest[1..];
  }

  lemma BeginKeepsBooks(i: Inbox, stage: Stage)
    requires Books(i) && i.drain.Between? && i.drain.rest != []
    ensures Books(Begin(i, i.drain.rest[0], stage, i.drain.rest[1..]))
  {
    assert i.drain.rest == [i.drain.rest[0]] + i.drain.rest[1..];
  }

  lemma NextKeepsBooks(i: Inbox, stage: Stage)
    requires Books(i) && SkipsExplained(i.settled) && i.drain.Between? && i.drain.rest != []
    ensures Books(Ignore(i, i.drain.rest[0], i.drain.rest[1..]))
    ensures SkipsExplained(Ignore(i, i.drain.rest[0], i.drain.rest[1..]).settled)
    ensures Books(Begin(i, i.drain.rest[0], stage, i.drain.rest[1..]))
  {
    IgnoreKeepsBooks(i);
    BeginKeepsBooks(i, stage);
    SkipsExplainedAppend(i.settled, Settled(i.drain.rest[0], Ignored));
  }

  lemma FinishKeepsBooks(i: Inbox, outcome: Outcome)
    requires Books(i) && i.drain.Busy?
    ensures Books(FinishCurrent(i, outcome))
  {
    var failed := [Settled(i.drain.current, Failed)] + SkipAll(i.drain.rest);
    MessagesOfAppend(i.settled, [Settled(i.drain.current, Processed)]);
    MessagesOfAppend(i.settled, failed);
    assert MessagesOf(failed) == [i.drain.current] + i.drain.rest;
  }

  lemma FinishExplains(i: Inbox, outcome: Outcome)
    requires SkipsExplained(i.settled) && i.drain.Busy?
    ensures SkipsExplained(FinishCurrent(i, outcome).settled)
  {
    var s := FinishCurrent(i, outcome).settled;
    SkipsExplainedAppend(i.settled, Settled(i.drain.current, if outcome.Accepted? then Processed else Failed));
    forall k | |i.settled| < k < |s| && s[k].fate.Skipped? ensures exists j :: 0 <= j < k && s[j].fate.Failed? {
      assert s[|i.settled|].fate.Failed?;
    }
    forall k | 0 <= k < |i.settled| && s[k].fate.Skipped? ensures exists j :: 0 <= j < k && s[j].fate.Failed? {
      var j :| 0 <= j < k && i.settled[j].fate.Failed?;
      assert s[j].fate.Failed?;
    }
  }

  lemma ArrivalSideKeepsLedger(c: Client, e: Event)
    requires Ledger(c) && Enabled(c, e) && ArrivalSide(e)
    ensures Ledger(Step(c, e))
  {
    match e
    case Receives(m) => ReceiveKeepsBooks(c.role, c.inbox, m);
    case CalleeStarts(ms) => ReceiveAllKeepsBooks(c.inbox, ms); ReceiveAllKeepsSettled(c.inbox, ms);
  }

  lemma ProcessNextKeepsLedger(c: Client, willing: bool)
    requires Ledger(c) && Enabled(c, ProcessNext(willing))
    ensures Ledger(ProcessSignalingMessage(c, willing))
  {
    var c' := ProcessSignalingMessage(c, willing);
    NextKeepsBooks(c.inbox, if c'.inbox.drain.Busy? then c'.inbox.drain.stage else AwaitCandidate);
  }

  lemma ClosingSideKeepsLedger(c: Client, e: Event)
    requires Ledger(c) && Enabled(c, e) && ClosingSide(e)
    ensures Ledger(Step(c, e))
  {
    if !e.BatchStep? {
      FinishKeepsBooks(c.inbox, Accepted);
      FinishKeepsBooks(c.inbox, Refused);
      FinishExplains(c.inbox, Accepted);
      FinishExplains(c.inbox, Refused);
    }
  }

  lemma StepKeepsLedger(c: Client, e: Event)
    requires Ledger(c) && Enabled(c, e)
    ensures Ledger(Step(c, e))
  {
    if OfferSide(e) { OfferSideKeepsInbox(c, e); }
    else if ArrivalSide(e) { ArrivalSideKeepsLedger(c, e); }
    else if ClosingSide(e) { ClosingSideKeepsLedger(c, e); }
    else if e.ProcessNext? { ProcessNextKeepsLedger(c, e.willing); }
  }

  // ---------------------------------------------------------------- the order of processing

  /** The position, in arrival order, of the message an entry gives to the peer connection. */
  predicate Applies(e: Entry) {
    e.ApplyRemote? || e.AddCandidate?
  }

  ghost predicate AppliedBelow(log: seq<Entry>, n: nat) {
    forall k | 0 <= k < |log| && Applies(log[k]) :: log[k].position < n
  }

  ghost predicate AnsweredBelow(log: seq<Entry>, n: nat) {
    forall k | 0 <= k < |log| && log[k].SendAnswer? :: log[k].position < n
  }

  ghost predicate AppliedAt(log: seq<Entry>, p: nat) {
    exists k :: 0 <= k < |log| && log[k].ApplyRemote? && log[k].position == p
  }

  ghost predicate EntryOrdered(before: seq<Entry>, e: Entry) {
    && (Applies(e) ==> AppliedBelow(before, e.position))
    && (e.SendAnswer? ==> AnsweredBelow(before, e.position) && AppliedAt(before, e.position))
  }

  ghost predicate InOrder(log: seq<Entry>) {
    forall k | 0 <= k < |log| :: EntryOrdered(log[..k], log[k])
  }

  /** How far the log may reach: past the current message only once it was applied or answered. */
  ghost predicate Order(c: Client) {
    var n := |c.inbox.settled|;
    && InOrder(c.log)
    && AppliedBelow(c.log, n + 1)
    && AnsweredBelow(c.log, n + 1)
    && (!(c.inbox.drain.Busy? && !c.inbox.drain.stage.AwaitReady?) ==> AppliedBelow(c.log, n))
    && (!(c.inbox.drain.Busy? && c.inbox.drain.stage.AwaitFinally?) ==> AnsweredBelow(c.log, n))
    && (c.inbox.drain.Busy? && AwaitsAnswer(c.inbox.drain.stage) ==> AppliedAt(c.log, n))
  }

  predicate AwaitsAnswer(stage: Stage) {
    stage.AwaitAnswer? || stage.AwaitLocalAnswer? || (stage.AwaitRemote? && stage.outcome.Accepted?)
  }

  lemma AppendOrdered(log: seq<Entry>, e: Entry)
    requires InOrder(log) && EntryOrdered(log, e)
    ensures InOrder(log + [e])
  {
    var log' := log + [e];
    forall k | 0 <= k < |log'| ensures EntryOrdered(log'[..k], log'[k]) {
      assert log'[..k] == if k < |log| then log[..k] else log;
    }
  }

  lemma AppliedAtAppend(log: seq<Entry>, e: Entry, p: nat)
    ensures AppliedAt(log, p) ==> AppliedAt(log + [e], p)
    ensures e.ApplyRemote? && e.position == p ==> AppliedAt(log + [e], p)
  {
    if AppliedAt(log, p) {
      var k :| 0 <= k < |log| && log[k].ApplyRemote? && log[k].position == p;
      assert (log + [e])[k] == log[k];
    }
    assert (log + [e])[|log|] == e;
  }

  /** An entry that says nothing about incoming messages leaves the order alone. */
  lemma OtherEntryKeepsOrder(c: Client, e: Entry, c': Client)
    requires Order(c) && !Applies(e) && !e.SendAnswer?
    requires c'.log == c.log || c'.log == c.log + [e]
    requires c'.inbox == c.inbox
    ensures Order(c')
  {
    if c'.log == c.log + [e] {
      AppendOrdered(c.log, e);
      AppliedAtAppend(c.log, e, |c.inbox.settled|);
    }
  }

  lemma OfferSideKeepsOrder(c: Client, e: Event)
    requires Order(c) && Enabled(c, e) && OfferSide(e)
    ensures Order(Step(c, e))
  {
    OfferSideKeepsInbox(c, e);
    var c' := Step(c, e);
    OtherEntryKeepsOrder(c, if c'.log == c.log then CreateOffer(0) else c'.log[|c.log|], c');
  }

  lemma ReceiveAllKeepsSettled(i: Inbox, ms: seq<Message>)
    ensures ReceiveAll(Callee, i, ms).settled == i.settled
    decreases |ms|
  {
    if ms != [] { ReceiveAllKeepsSettled(Receive(Callee, i, ms[0]), ms[1..]); }
  }

  lemma ArrivalSideKeepsOrder(c: Client, e: Event)
    requires Order(c) && Shape(c.inbox) && Enabled(c, e) && ArrivalSide(e)
    ensures Order(Step(c, e))
  {
    match e
    case Receives(m) => ReceiveKeepsBusy(c.role, c.inbox, m);
    case CalleeStarts(ms) => ReceiveAllKeepsBusy(c.inbox, ms); ReceiveAllKeepsSettled(c.inbox, ms);
  }

  lemma TakeUpKeepsOrder(c: Client, m: Message, ready: Outcome, rest: seq<Message>)
    requires Order(c) && c.inbox.drain.Between?
    ensures Order(TakeUp(c, m, ready, rest))
  {
  }

  lemma IgnoreKeepsOrder(c: Client, flag: Flag, m: Message, rest: seq<Message>)
    requires Order(c) && c.inbox.drain.Between?
    ensures Order(c.(ignoreOffer := flag, inbox := Ignore(c.inbox, m, rest)))
  {
  }

  lemma DescriptionKeepsOrder(c: Client, m: Message, rest: seq<Message>, willing: bool)
    requires Order(c) && c.inbox.drain.Between?
    ensures Order(ProcessV2Description(c, m, rest, willing))
  {
    if !OfferCollision(c, m) {
      TakeUpKeepsOrder(c, m, Accepted, rest);
    } else if Polite(c) {
      var c1 := Collide(c).(signaling := RolledBack(c.signaling, willing));
      OtherEntryKeepsOrder(c, Collision(c.offerRevision + 1), c1);
      TakeUpKeepsOrder(c1, m, RollbackOutcome(c.signaling, willing), rest);
    } else {
      IgnoreKeepsOrder(c, On, m, rest);
    }
  }

  lemma ProcessNextKeepsOrder(c: Client, willing: bool)
    requires Order(c) && Enabled(c, ProcessNext(willing))
    ensures Order(ProcessSignalingMessage(c, willing))
  {
    var m, rest := c.inbox.drain.rest[0], c.inbox.drain.rest[1..];
    if IsDescription(m) {
      DescriptionKeepsOrder(c, m, rest, willing);
    } else if c.ignoreOffer.Off? {
      AppendOrdered(c.log, AddCandidate(|c.inbox.settled|));
    }
  }

  lemma MiddleSideKeepsOrder(c: Client, e: Event)
    requires Order(c) && Enabled(c, e) && MiddleSide(e)
    ensures Order(Step(c, e))
  {
    var c' := Step(c, e);
    if c'.log != c.log {
      AppendOrdered(c.log, c'.log[|c.log|]);
      AppliedAtAppend(c.log, c'.log[|c.log|], |c.inbox.settled|);
    }
  }

  lemma FinishKeepsOrder(c: Client, outcome: Outcome)
    requires Order(c) && c.inbox.drain.Busy?
    ensures Order(c.(inbox := FinishCurrent(c.inbox, outcome)))
  {
  }

  lemma ClosingSideKeepsOrder(c: Client, e: Event)
    requires Order(c) && Enabled(c, e) && ClosingSide(e)
    ensures Order(Step(c, e))
  {
    match e
    case ProcessFinallyStep =>
      var c1 := c.(inbox := FinishCurrent(c.inbox, c.inbox.drain.stage.outcome));
      FinishKeepsOrder(c, c.inbox.drain.stage.outcome);
      OtherEntryKeepsOrder(c1, CreateOffer(c.offerRevision + 1), MaybeRenegotiate(c1));
    case CandidateStep(ok) => FinishKeepsOrder(c, if ok then Accepted else Refused);
    case BatchStep =>
  }

  lemma StepKeepsOrder(c: Client, e: Event)
    requires Order(c) && Shape(c.inbox) && Enabled(c, e)
    ensures Order(Step(c, e))
  {
    if OfferSide(e) { OfferSideKeepsOrder(c, e); }
    else if ArrivalSide(e) { ArrivalSideKeepsOrder(c, e); }
    else if MiddleSide(e) { MiddleSideKeepsOrder(c, e); }
    else if ClosingSide(e) { ClosingSideKeepsOrder(c, e); }
    else { ProcessNextKeepsOrder(c, e.willing); }
  }

  // ---------------------------------------------------------------- request ids

  /** The request id the answer to this message must carry. */
  function RequestIdFor(mode: Mode, m: Message): Option<string> {
    if mode.Sfu? && m.Offer? then m.requestId else None
  }

  ghost predicate AnswersMatch(mode: Mode, arrived: seq<Message>, log: seq<Entry>) {
    forall k | 0 <= k < |log| && log[k].SendAnswer? ::
      && log[k].position < |arrived|
      && arrived[log[k].position].Offer?
      && log[k].requestId == RequestIdFor(mode, arrived[log[k].position])
  }

  ghost predicate Requests(c: Client) {
    && (c.mode.P2p? ==> c.pendingRemoteRequestId == None)
    && (c.inbox.drain.Busy? && c.inbox.drain.current.Offer? && !c.inbox.drain.stage.AwaitFinally? ==>
          c.pendingRemoteRequestId == RequestIdFor(c.mode, c.inbox.drain.current))
    && AnswersMatch(c.mode, c.inbox.arrived, c.log)
  }

  lemma OfferSideKeepsRequests(c: Client, e: Event)
    requires Requests(c) && Enabled(c, e) && OfferSide(e)
    ensures Requests(Step(c, e))
  {
    OfferSideKeepsInbox(c, e);
  }

  lemma ReceiveAllKeepsArrived(i: Inbox, ms: seq<Message>)
    ensures i.arrived <= ReceiveAll(Callee, i, ms).arrived
    decreases |ms|
  {
    if ms != [] { ReceiveAllKeepsArrived(Receive(Callee, i, ms[0]), ms[1..]); }
  }

  lemma ArrivalSideKeepsRequests(c: Client, e: Event)
    requires Requests(c) && Enabled(c, e) && ArrivalSide(e)
    ensures Requests(Step(c, e))
  {
    match e
    case Receives(m) => ReceiveKeepsBusy(c.role, c.inbox, m);
    case CalleeStarts(ms) => ReceiveAllKeepsBusy(c.inbox, ms); ReceiveAllKeepsArrived(c.inbox, ms);
  }

  lemma MiddleSideKeepsRequests(c: Client, e: Event)
    requires Requests(c) && Books(c.inbox) && Shape(c.inbox) && Enabled(c, e) && MiddleSide(e)
    ensures Requests(Step(c, e))
  {
    assert c.inbox.arrived[|c.inbox.settled|] == c.inbox.drain.current;
  }

  lemma ProcessNextKeepsRequests(c: Client, willing: bool)
    requires Requests(c) && Enabled(c, ProcessNext(willing))
    ensures Requests(ProcessSignalingMessage(c, willing))
  {
  }

  lemma ClosingSideKeepsRequests(c: Client, e: Event)
    requires Requests(c) && Enabled(c, e) && ClosingSide(e)
    ensures Requests(Step(c, e))
  {
  }

  lemma StepKeepsRequests(c: Client, e: Event)
    requires Requests(c) && Books(c.inbox) && Shape(c.inbox) && Enabled(c, e)
    ensures Requests(Step(c, e))
  {
    if OfferSide(e) { OfferSideKeepsRequests(c, e); }
    else if ArrivalSide(e) { ArrivalSideKeepsRequests(c, e); }
    else if MiddleSide(e) { MiddleSideKeepsRequests(c, e); }
    else if ClosingSide(e) { ClosingSideKeepsRequests(c, e); }
    else { ProcessNextKeepsRequests(c, e.willing); }
  }

  // ---------------------------------------------------------------- a browser yields to the SFU

  ghost predicate NoneIgnored(s: seq<Settled>) {
    forall k | 0 <= k < |s| :: !s[k].fate.Ignored?
  }

  ghost predicate Yielding(c: Client) {
    && (!c.inbox.drain.Idle? ==> !c.role.NotStarted?)
    && (c.mode.Sfu? ==> c.ignoreOffer.Off? && NoneIgnored(c.inbox.settled))
  }

  lemma StepKeepsYielding(c: Client, e: Event)
    requires Yielding(c) && Shape(c.inbox) && Enabled(c, e)
    ensures Yielding(Step(c, e))
  {
    if OfferSide(e) { OfferSideKeepsInbox(c, e); }
    else if e.CalleeStarts? { ReceiveAllKeepsSettled(c.inbox, e.initialMessages); }
    else if e.ProcessNext? { assert IsQueued(c.inbox.drain.rest[0]); }
  }

  // ---------------------------------------------------------------- all of it, over every run

  ghost predicate Inv(c: Client) {
    && Shape(c.inbox) && Fence(c) && Debt(c) && Undisturbed(c) && Paying(c)
    && Ledger(c) && Order(c) && Requests(c) && Yielding(c)
  }

  lemma FreshInv(mode: Mode)
    ensures Inv(Fresh(mode))
  {
  }

  lemma StepKeepsInv(c: Client, e: Event)
    requires Inv(c) && Enabled(c, e)
    ensures Inv(Step(c, e))
  {
    StepKeepsShape(c, e);
    StepKeepsFence(c, e);
    StepKeepsDebt(c, e);
    StepKeepsUndisturbed(c, e);
    StepKeepsPaying(c, e);
    StepKeepsLedger(c, e);
    StepKeepsOrder(c, e);
    StepKeepsRequests(c, e);
    StepKeepsYielding(c, e);
  }

  /** Every interleaving, with promises settling in any way, keeps the invariant. */
  lemma {:induction false} RunKeepsInv(c: Client, es: seq<Event>)
    requires Inv(c) && ValidRun(c, es)
    ensures Inv(After(c, es))
    decreases |es|
  {
    if es != [] {
      StepKeepsInv(c, es[0]);
      RunKeepsInv(Step(c, es[0]), es[1..]);
    }
  }
}
