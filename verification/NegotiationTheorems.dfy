/**
 What perfect negotiation promises, for every run of a V2 client from its constructor on: any interleaving of the
 offer task, the message batch and the environment, with any promise rejected.
 */
module NegotiationTheorems {
  import opened Options
  import opened Negotiation
  import opened NegotiationInvariants

  predicate Quiet(c: Client) {
    !MakingOffer(c) && !InDescription(c.inbox) && c.signaling.Stable?
  }

  lemma OwedMeans(log: seq<Entry>, i: nat)
    requires !Owed(log) && i < |log| && log[i].Collision?
    ensures exists j :: i < j < |log| && log[j].CreateOffer?
  {
    var last := |log| - 1;
    if !log[last].CreateOffer? {
      OwedMeans(log[..last], i);
      var j :| i < j < last && log[..last][j].CreateOffer?;
      assert log[j].CreateOffer?;
    }
  }

  /** Revisions of collisions grow, so what concludes the last one concludes them all. */
  lemma {:induction false} CollisionsBelow(log: seq<Entry>, i: nat)
    requires Fenced(log) && i < |log| && log[i].Collision?
    ensures log[i].revision <= LastCollision(log)
    decreases |log|
  {
    var last := |log| - 1;
    if i < last {
      FencedPrefix(log, last);
      CollisionsBelow(log[..last], i);
      RevisionsGrow(log, i, last);
      assert EntryFenced(log[..last], log[last]);
    }
  }

  lemma FencedPrefix(log: seq<Entry>, n: nat)
    requires Fenced(log) && n <= |log|
    ensures Fenced(log[..n])
  {
    forall k | 0 <= k < n ensures EntryFenced(log[..n][..k], log[..n][k]) {
      assert log[..n][..k] == log[..k];
      assert EntryFenced(log[..k], log[k]);
    }
  }

  lemma {:induction false} PaidMeans(log: seq<Entry>, i: nat)
    requires Fenced(log) && Paid(log) && i < |log| && log[i].Collision?
    ensures exists j :: i < j < |log| && Concludes(log[j], log[i].revision)
    decreases |log|
  {
    var last := |log| - 1;
    var init := log[..last];
    FencedPrefix(log, last);
    if Concludes(log[last], LastCollision(init)) {
      CollisionsBelow(init, i);
      assert Concludes(log[last], log[i].revision);
    } else {
      PaidMeans(init, i);
      var j :| i < j < last && Concludes(init[j], init[i].revision);
      assert Concludes(log[j], log[i].revision);
    }
  }

  /**
   What becomes of a publish that a collision displaced: once nothing is in progress and the connection is stable, none
   is owed, and after each collision with an SFU offer a later local offer has been sent - unless one of its promises
   was rejected, or it was preempted: made while an accepted remote offer waited to be set, and discarded because that
   one went first.
   */
  lemma OwedPublishIsFollowedUp(mode: Mode, es: seq<Event>)
    requires ValidRun(Fresh(mode), es) && Quiet(After(Fresh(mode), es))
    ensures After(Fresh(mode), es).renegotiationPending.Off?
    ensures var log := After(Fresh(mode), es).log;
            mode.Sfu? ==> forall i | 0 <= i < |log| && log[i].Collision? ::
              exists j :: i < j < |log| && log[j].CreateOffer?
    ensures var log := After(Fresh(mode), es).log;
            mode.Sfu? ==> forall i | 0 <= i < |log| && log[i].Collision? ::
              exists j :: i < j < |log| && Concludes(log[j], log[i].revision)
  {
    FreshInv(mode);
    RunKeepsInv(Fresh(mode), es);
    RunKeepsMode(Fresh(mode), es);
    var log := After(Fresh(mode), es).log;
    if mode.Sfu? {
      forall i | 0 <= i < |log| && log[i].Collision?
        ensures exists j :: i < j < |log| && log[j].CreateOffer?
        ensures exists j :: i < j < |log| && Concludes(log[j], log[i].revision)
      {
        OwedMeans(log, i);
        PaidMeans(log, i);
      }
    }
  }

  // ---------------------------------------------------------------- when an offer is preempted

  /** The offer in the making may find the connection out of stable, with no collision and before `createOffer` settles. */
  ghost predicate MayBePreempted(c: Client) {
    exists es :: Preempts(c, es)
  }

  predicate Preempts(c: Client, es: seq<Event>) {
    && ValidRun(c, es)
    && (forall k | 0 <= k < |es| :: !es[k].OfferCreatedStep?)
    && After(c, es).task == c.task && After(c, es).offerRevision == c.offerRevision
    && !After(c, es).signaling.Stable?
  }

  /** Nothing but a collision or the waiting remote offer takes the connection out of stable under an offer. */
  predicate Calm(c: Client, task: OfferTask, revision: nat) {
    c.offerRevision > revision || (c.task == task && c.signaling.Stable? && !OfferWaits(c.inbox.drain))
  }

  lemma StepKeepsCalm(c: Client, e: Event, task: OfferTask, revision: nat)
    requires Calm(c, task, revision) && c.offerRevision >= revision && task.Creating?
    requires Enabled(c, e) && !e.OfferCreatedStep?
    ensures Calm(Step(c, e), task, revision) && Step(c, e).offerRevision >= revision
  {
    match e
    case Receives(m) => ReceiveKeepsBusy(c.role, c.inbox, m);
    case CalleeStarts(ms) => ReceiveAllKeepsBusy(c.inbox, ms);
    case _ =>
  }

  lemma {:induction false} RunKeepsCalm(c: Client, es: seq<Event>, task: OfferTask, revision: nat)
    requires Calm(c, task, revision) && c.offerRevision >= revision && task.Creating?
    requires ValidRun(c, es) && forall k | 0 <= k < |es| :: !es[k].OfferCreatedStep?
    ensures Calm(After(c, es), task, revision)
    decreases |es|
  {
    if es != [] {
      StepKeepsCalm(c, es[0], task, revision);
      RunKeepsCalm(Step(c, es[0]), es[1..], task, revision);
    }
  }

  /**
   An offer that is current and was made in stable can be preempted if and only if an accepted remote offer waits to be
   set: `maybeRenegotiate_` and `onNegotiationNeeded_` do not ask.
   */
  lemma PreemptedIff(c: Client)
    requires c.task.Creating? && c.task.revision == c.offerRevision && c.signaling.Stable?
    ensures MayBePreempted(c) <==> OfferWaits(c.inbox.drain)
  {
    if OfferWaits(c.inbox.drain) {
      var es := [ReadyStep(true)];
      assert es[1..] == [];
      assert After(c, es) == ReadySettled(c, true);
      assert Preempts(c, es);
    } else {
      forall es: seq<Event> ensures !Preempts(c, es) {
        if ValidRun(c, es) && forall k | 0 <= k < |es| :: !es[k].OfferCreatedStep? {
          RunKeepsCalm(c, es, c.task, c.offerRevision);
        }
      }
    }
  }

  ghost predicate NoneDisplaced(log: seq<Entry>) {
    forall k | 0 <= k < |log| :: !(log[k].Abandon? && log[k].why.Displaced?)
  }

  lemma {:induction false} RunDisplacesNone(c: Client, es: seq<Event>)
    requires Inv(c) && NoneDisplaced(c.log) && ValidRun(c, es)
    ensures NoneDisplaced(After(c, es).log)
    decreases |es|
  {
    if es != [] {
      StepKeepsInv(c, es[0]);
      StepDisplacesNone(c, es[0]);
      RunDisplacesNone(Step(c, es[0]), es[1..]);
    }
  }

  lemma StepDisplacesNone(c: Client, e: Event)
    requires Undisturbed(c) && NoneDisplaced(c.log) && Enabled(c, e)
    ensures NoneDisplaced(Step(c, e).log)
  {
  }

  /** In every run, an offer is discarded only for a rejection, for a collision, or for the remote offer it was made under. */
  lemma OffersAreDiscardedForAReason(mode: Mode, es: seq<Event>)
    requires ValidRun(Fresh(mode), es)
    ensures NoneDisplaced(After(Fresh(mode), es).log)
  {
    FreshInv(mode);
    RunDisplacesNone(Fresh(mode), es);
  }

  lemma StepKeepsMode(c: Client, e: Event)
    requires Enabled(c, e)
    ensures Step(c, e).mode == c.mode
  {
    if OfferSide(e) { OfferSideKeepsInbox(c, e); }
  }

  lemma {:induction false} RunKeepsMode(c: Client, es: seq<Event>)
    requires ValidRun(c, es)
    ensures After(c, es).mode == c.mode
    decreases |es|
  {
    if es != [] {
      StepKeepsMode(c, es[0]);
      RunKeepsMode(Step(c, es[0]), es[1..]);
    }
  }

  /** Revisions only grow along the log. */
  lemma {:induction false} RevisionsGrow(log: seq<Entry>, m: nat, n: nat)
    requires Fenced(log) && m <= n <= |log|
    ensures LastRevision(log[..m]) <= LastRevision(log[..n])
    ensures forall k | m <= k < n && (log[k].CreateOffer? || log[k].Collision?) ::
              LastRevision(log[..m]) < log[k].revision <= LastRevision(log[..n])
    decreases n - m
  {
    if m < n {
      RevisionsGrow(log, m, n - 1);
      assert log[..n][..n - 1] == log[..n - 1];
      assert EntryFenced(log[..n - 1], log[n - 1]);
    }
  }

  lemma OneCreationPerRevision(log: seq<Entry>, i: nat, j: nat)
    requires Fenced(log) && i < j < |log| && log[i].CreateOffer? && (log[j].CreateOffer? || log[j].Collision?)
    ensures log[i].revision < log[j].revision
  {
    RevisionsGrow(log, i + 1, j + 1);
    Append(log[..i], log[i]);
    assert log[..i] + [log[i]] == log[..i + 1];
  }

  /** In a fenced log an offer is applied after its creation, with nothing newer in between. */
  lemma FencedApply(log: seq<Entry>, k: nat)
    requires Fenced(log) && k < |log| && log[k].ApplyOffer?
    ensures log[k].at.Stable?
    ensures exists i :: 0 <= i < k && log[i] == CreateOffer(log[k].revision)
    ensures forall i, j | 0 <= i < j < k && log[i] == CreateOffer(log[k].revision) ::
              !log[j].Collision? && !log[j].CreateOffer?
  {
    assert EntryFenced(log[..k], log[k]);
    forall i, j | 0 <= i < j < k && log[i] == CreateOffer(log[k].revision)
      ensures !log[j].Collision? && !log[j].CreateOffer?
    {
      if log[j].Collision? || log[j].CreateOffer? {
        OneCreationPerRevision(log, i, j);
        RevisionsGrow(log, j, k);
      }
    }
  }

  lemma FencedApplyOnce(log: seq<Entry>, j: nat, k: nat)
    requires Fenced(log) && j < k < |log| && log[j].ApplyOffer? && log[k].ApplyOffer?
    ensures log[j].revision != log[k].revision
  {
    assert EntryFenced(log[..j], log[j]);
    assert EntryFenced(log[..k], log[k]);
    assert log[..k][j] == log[j];
  }

  /** In a fenced log an offer created before a collision and not applied by then is never applied. */
  lemma FencedDead(log: seq<Entry>, i: nat, j: nat, k: nat)
    requires Fenced(log) && i < j < |log| && log[i].CreateOffer? && log[j].Collision?
    requires forall m | i < m < j :: log[m] != ApplyOffer(log[i].revision, Stable)
    requires k < |log|
    ensures log[k] != ApplyOffer(log[i].revision, Stable)
  {
    if log[k] == ApplyOffer(log[i].revision, Stable) {
      FencedApply(log, k);
      if k < i {
        var i' :| 0 <= i' < k && log[i'] == CreateOffer(log[k].revision);
        OneCreationPerRevision(log, i', i);
      }
    }
  }

  /**
   `setLocalDescription(offer)` is only called in the stable state, with the revision of the most recent
   `createOffer`, and with no collision accepted since that `createOffer`; each revision is applied at most once.
   */
  lemma OffersAreAppliedFresh(mode: Mode, es: seq<Event>, k: nat)
    requires ValidRun(Fresh(mode), es)
    requires k < |After(Fresh(mode), es).log| && After(Fresh(mode), es).log[k].ApplyOffer?
    ensures var log := After(Fresh(mode), es).log;
            && log[k].at.Stable?
            && (exists i :: 0 <= i < k && log[i] == CreateOffer(log[k].revision))
            && (forall i, j | 0 <= i < j < k && log[i] == CreateOffer(log[k].revision) ::
                  !log[j].Collision? && !log[j].CreateOffer?)
            && (forall j | 0 <= j < k && log[j].ApplyOffer? :: log[j].revision != log[k].revision)
  {
    FreshInv(mode);
    RunKeepsInv(Fresh(mode), es);
    var log := After(Fresh(mode), es).log;
    FencedApply(log, k);
    forall j | 0 <= j < k && log[j].ApplyOffer? ensures log[j].revision != log[k].revision {
      FencedApplyOnce(log, j, k);
    }
  }

  /**
   A superseded offer stays dead: when a colliding remote offer is accepted while `createOffer` is pending, the
   local offer is neither applied nor sent, ever.
   */
  lemma SupersededOffersStayDead(mode: Mode, es: seq<Event>, i: nat, j: nat, k: nat)
    requires ValidRun(Fresh(mode), es)
    requires var log := After(Fresh(mode), es).log;
             && i < j < |log| && log[i].CreateOffer? && log[j].Collision?
             && (forall m | i < m < j :: log[m] != ApplyOffer(log[i].revision, Stable))
             && k < |log|
    ensures var log := After(Fresh(mode), es).log;
            log[k] != ApplyOffer(log[i].revision, Stable) && log[k] != SendOffer(log[i].revision)
  {
    FreshInv(mode);
    RunKeepsInv(Fresh(mode), es);
    var log := After(Fresh(mode), es).log;
    FencedDead(log, i, j, k);
    assert EntryFenced(log[..k], log[k]);
    if log[k] == SendOffer(log[i].revision) {
      var m :| 0 <= m < k && log[m] == ApplyOffer(log[i].revision, Stable);
      FencedDead(log, i, j, m);
    }
  }

  /** An offer that can no longer be sent: superseded, and not on its way. */
  predicate Dead(c: Client, r: nat) {
    r < c.offerRevision && c.task != Applying(r, Accepted)
  }

  lemma DeadStays(c: Client, e: Event, r: nat)
    requires Dead(c, r) && Enabled(c, e)
    ensures Dead(Step(c, e), r)
    ensures Step(c, e).log == c.log ||
            (|Step(c, e).log| == |c.log| + 1 && c.log < Step(c, e).log && Step(c, e).log[|c.log|] != SendOffer(r))
  {
  }

  lemma {:induction false} DeadIsNeverSent(c: Client, es: seq<Event>, r: nat)
    requires Dead(c, r) && ValidRun(c, es)
    ensures c.log <= After(c, es).log && SendOffer(r) !in After(c, es).log[|c.log|..]
    decreases |es|
  {
    if es != [] {
      DeadStays(c, es[0], r);
      var c1 := Step(c, es[0]);
      DeadIsNeverSent(c1, es[1..], r);
      assert After(c, es).log[|c.log|..] == c1.log[|c.log|..] + After(c, es).log[|c1.log|..];
    }
  }

  /** From here on the client may send the offer with this revision. */
  ghost predicate MaySend(c: Client, r: nat) {
    exists es :: Sends(c, es, r)
  }

  predicate Sends(c: Client, es: seq<Event>, r: nat) {
    && ValidRun(c, es)
    && |c.log| <= |After(c, es).log|
    && SendOffer(r) in After(c, es).log[|c.log|..]
  }

  /**
   Of the offers made before an accepted collision, exactly the one whose `setLocalDescription` the browser has accepted
   and not yet fulfilled can still be sent afterwards, rolled back or not.
   */
  lemma SentAfterCollisionIff(c: Client, willing: bool, r: nat)
    requires Enabled(c, ProcessNext(willing)) && Polite(c) && OfferCollision(c, c.inbox.drain.rest[0])
    requires r <= c.offerRevision
    ensures MaySend(ProcessSignalingMessage(c, willing), r) <==> c.task == Applying(r, Accepted)
  {
    var c1 := ProcessSignalingMessage(c, willing);
    assert c1.task == c.task && c1.offerRevision == c.offerRevision + 1;
    if c.task == Applying(r, Accepted) {
      SendsAtOnce(c1, r);
    } else {
      forall es ensures !Sends(c1, es, r) {
        if ValidRun(c1, es) { DeadIsNeverSent(c1, es, r); }
      }
    }
  }

  lemma SendsAtOnce(c: Client, r: nat)
    requires c.task == Applying(r, Accepted)
    ensures MaySend(c, r)
  {
    var es := [OfferAppliedStep(true)];
    assert es[1..] == [];
    assert After(c, es) == OfferApplied(c, true);
    assert After(c, es).log[|c.log|..] == [SendOffer(r)];
    assert Sends(c, es, r);
  }

  lemma Unroll(c: Client, e: Event, es: seq<Event>)
    requires Enabled(c, e) && ValidRun(Step(c, e), es)
    ensures ValidRun(c, [e] + es) && After(c, [e] + es) == After(Step(c, e), es)
  {
    assert ([e] + es)[1..] == es;
  }

  /** A browser of an SFU room whose offer is being set when an SFU offer arrives. */
  function Overtaken(): Client {
    ReceiveSignalingMessage(OfferCreated(StartAsCaller(Fresh(Sfu)), true, true), Offer("", None))
  }

  lemma OvertakenCollides()
    ensures var c := Overtaken();
            && Enabled(c, ProcessNext(true)) && OfferCollision(c, c.inbox.drain.rest[0]) && Polite(c)
            && c.task == Applying(1, Accepted) && c.signaling.HaveLocalOffer?
            && c.log == [CreateOffer(1), ApplyOffer(1, Stable)] && c.offerRevision == 1
  {
  }

  /** The way to it from a new client. */
  lemma OvertakenIsReached(es: seq<Event>)
    requires ValidRun(Overtaken(), es)
    ensures var run := [CallerStarts] + ([OfferCreatedStep(true, true)] + ([Receives(Offer("", None))] + es));
            ValidRun(Fresh(Sfu), run) && After(Fresh(Sfu), run) == After(Overtaken(), es)
  {
    var c1 := StartAsCaller(Fresh(Sfu));
    var c2 := OfferCreated(c1, true, true);
    Unroll(c2, Receives(Offer("", None)), es);
    Unroll(c1, OfferCreatedStep(true, true), [Receives(Offer("", None))] + es);
    Unroll(Fresh(Sfu), CallerStarts, [OfferCreatedStep(true, true)] + ([Receives(Offer("", None))] + es));
  }

  /** A run in which an offer that was rolled back while `setLocalDescription` was pending is sent all the same. */
  lemma RolledBackOfferIsStillSent() returns (es: seq<Event>)
    ensures ValidRun(Fresh(Sfu), es)
    ensures After(Fresh(Sfu), es).log == [CreateOffer(1), ApplyOffer(1, Stable), Collision(2), SendOffer(1)]
    ensures After(Fresh(Sfu), es).signaling.Stable?
  {
    OvertakenCollides();
    var c := ProcessSignalingMessage(Overtaken(), true);
    Unroll(c, OfferAppliedStep(true), []);
    Unroll(Overtaken(), ProcessNext(true), [OfferAppliedStep(true)] + []);
    var rest := [ProcessNext(true)] + ([OfferAppliedStep(true)] + []);
    OvertakenIsReached(rest);
    es := [CallerStarts] + ([OfferCreatedStep(true, true)] + ([Receives(Offer("", None))] + rest));
  }

  // ---------------------------------------------------------------- a publish that is forgotten

  /** A fresh offer is being created under an accepted remote offer, the only message there is. */
  predicate Hasty(c: Client) {
    && c.mode.Sfu? && c.role.Caller? && c.signaling.Stable? && c.renegotiationPending.Off?
    && c.task == Creating(c.offerRevision, Waiting)
    && OfferWaits(c.inbox.drain) && c.inbox.drain.rest == [] && c.inbox.messageQueue == []
  }

  /** The remote offer goes first, and the fresh one is discarded. */
  function Discarded(c: Client): Client
    requires Hasty(c)
  {
    c.(signaling := HaveRemoteOffer, task := NoOffer, inbox := At(c.inbox, AwaitRemote(Accepted)),
       log := c.log + [ApplyRemote(|c.inbox.settled|, Stable), Abandon(c.offerRevision, Preempted)])
  }

  lemma HastyIsDiscarded(c: Client, es: seq<Event>)
    requires Hasty(c) && ValidRun(Discarded(c), es)
    ensures var run := [ReadyStep(true)] + ([OfferCreatedStep(true, true)] + ([OfferFinallyStep] + es));
            ValidRun(c, run) && After(c, run) == After(Discarded(c), es)
  {
    var c1 := ReadySettled(c, true);
    var c2 := OfferCreated(c1, true, true);
    assert c2.log == Discarded(c).log && OfferFinally(c2) == Discarded(c);
    Unroll(c2, OfferFinallyStep, es);
    Unroll(c1, OfferCreatedStep(true, true), [OfferFinallyStep] + es);
    Unroll(c, ReadyStep(true), [OfferCreatedStep(true, true)] + ([OfferFinallyStep] + es));
  }

  /** The remote offer is answered, and that is all. */
  function Forgetful(c: Client): Client
    requires Hasty(c)
  {
    c.(task := NoOffer, ignoreOffer := Off, pendingRemoteRequestId := None,
       inbox := c.inbox.(drain := Idle, settled := c.inbox.settled + [Settled(c.inbox.drain.current, Processed)]),
       log := c.log + [ApplyRemote(|c.inbox.settled|, Stable), Abandon(c.offerRevision, Preempted)] +
              [SendAnswer(|c.inbox.settled|, c.pendingRemoteRequestId)])
  }

  const ANSWER: seq<Event> :=
    [RemoteStep(true)] + ([AnswerCreatedStep(true, true)] + ([LocalAnswerStep(true)] + ([ProcessFinallyStep] +
    ([BatchStep] + []))))

  lemma DiscardedIsAnswered(c: Client)
    requires Hasty(c)
    ensures ValidRun(Discarded(c), ANSWER) && After(Discarded(c), ANSWER) == Forgetful(c)
  {
    var c0 := Discarded(c);
    var c1 := RemoteSettled(c0, true);
    var c2 := AnswerCreated(c1, true, true);
    var c3 := LocalAnswerSettled(c2, true);
    var c4 := ProcessFinally(c3);
    assert Step(c4, BatchStep) == Forgetful(c);
    Unroll(c4, BatchStep, []);
    Unroll(c3, ProcessFinallyStep, [BatchStep] + []);
    Unroll(c2, LocalAnswerStep(true), [ProcessFinallyStep] + ([BatchStep] + []));
    Unroll(c1, AnswerCreatedStep(true, true), [LocalAnswerStep(true)] + ([ProcessFinallyStep] + ([BatchStep] + [])));
    Unroll(c0, RemoteStep(true), [AnswerCreatedStep(true, true)] +
           ([LocalAnswerStep(true)] + ([ProcessFinallyStep] + ([BatchStep] + []))));
  }

  const HURRY: seq<Event> := [ReadyStep(true)] + ([OfferCreatedStep(true, true)] + ([OfferFinallyStep] + ANSWER))

  lemma HastyForgets(c: Client)
    requires Hasty(c)
    ensures ValidRun(c, HURRY) && After(c, HURRY) == Forgetful(c)
  {
    DiscardedIsAnswered(c);
    HastyIsDiscarded(c, ANSWER);
  }

  /** No promise of the run is rejected, and the browser refuses nothing. */
  predicate Smooth(e: Event) {
    match e
    case OfferCreatedStep(ok, willing) => ok && willing
    case OfferAppliedStep(ok) => ok
    case ProcessNext(willing) => willing
    case ReadyStep(willing) => willing
    case RemoteStep(ok) => ok
    case AnswerCreatedStep(ok, willing) => ok && willing
    case LocalAnswerStep(ok) => ok
    case CandidateStep(ok) => ok
    case _ => true
  }

  /** The first offer is being created when the SFU's arrives. */
  function Hurried(): Client {
    OfferFinally(OfferCreated(ProcessSignalingMessage(
      ReceiveSignalingMessage(StartAsCaller(Fresh(Sfu)), Offer("", None)), true), true, true))
  }

  lemma HurriedIsHasty()
    ensures Hasty(Hurried())
    ensures Hurried().log == [CreateOffer(1), Collision(2), Abandon(1, Superseded), CreateOffer(3)]
    ensures Hurried().inbox.settled == [] && Hurried().pendingRemoteRequestId == None
  {
  }

  lemma HurriedIsReached(es: seq<Event>)
    requires ValidRun(Hurried(), es)
    ensures var run := [CallerStarts] + ([Receives(Offer("", None))] + ([ProcessNext(true)] +
                       ([OfferCreatedStep(true, true)] + ([OfferFinallyStep] + es))));
            ValidRun(Fresh(Sfu), run) && After(Fresh(Sfu), run) == After(Hurried(), es)
  {
    var c1 := StartAsCaller(Fresh(Sfu));
    var c2 := ReceiveSignalingMessage(c1, Offer("", None));
    var c3 := ProcessSignalingMessage(c2, true);
    var c4 := OfferCreated(c3, true, true);
    Unroll(c4, OfferFinallyStep, es);
    Unroll(c3, OfferCreatedStep(true, true), [OfferFinallyStep] + es);
    Unroll(c2, ProcessNext(true), [OfferCreatedStep(true, true)] + ([OfferFinallyStep] + es));
    Unroll(c1, Receives(Offer("", None)), [ProcessNext(true)] + ([OfferCreatedStep(true, true)] + ([OfferFinallyStep] + es)));
    Unroll(Fresh(Sfu), CallerStarts, [Receives(Offer("", None))] + ([ProcessNext(true)] +
           ([OfferCreatedStep(true, true)] + ([OfferFinallyStep] + es))));
  }

  const FORGETTING: seq<Event> :=
    [CallerStarts] + ([Receives(Offer("", None))] + ([ProcessNext(true)] +
    ([OfferCreatedStep(true, true)] + ([OfferFinallyStep] + HURRY))))

  lemma ForgettingIsSmooth()
    ensures forall k | 0 <= k < |FORGETTING| :: Smooth(FORGETTING[k])
  {
  }

  /**
   A run in which nothing is rejected and the publish is forgotten all the same: it ends quiet and idle with nothing
   owed, and no local offer was ever applied.
   */
  lemma PublishCanBeForgotten()
    ensures ValidRun(Fresh(Sfu), FORGETTING) && forall k | 0 <= k < |FORGETTING| :: Smooth(FORGETTING[k])
    ensures var c := After(Fresh(Sfu), FORGETTING);
            && Quiet(c) && c.inbox.drain.Idle? && c.inbox.messageQueue == [] && c.renegotiationPending.Off?
            && c.log == [CreateOffer(1), Collision(2), Abandon(1, Superseded), CreateOffer(3)] +
                        [ApplyRemote(0, Stable), Abandon(3, Preempted)] + [SendAnswer(0, None)]
  {
    ForgettingIsSmooth();
    HurriedIsHasty();
    HastyForgets(Hurried());
    HurriedIsReached(HURRY);
  }

  /**
   Messages leave the queue in arrival order, one at a time, each at most once. As long as no step was rejected none
   is skipped, and a client in SFU mode processes every one.
   */
  lemma MessagesSettleInArrivalOrder(mode: Mode, es: seq<Event>)
    requires ValidRun(Fresh(mode), es)
    ensures var i := After(Fresh(mode), es).inbox;
            && MessagesOf(i.settled) <= i.arrived
            && i.arrived == MessagesOf(i.settled) + Current(i) + Rest(i) + i.messageQueue
            && |Current(i)| <= 1
            && ((forall k | 0 <= k < |i.settled| :: !i.settled[k].fate.Failed?) ==>
                  forall k | 0 <= k < |i.settled| ::
                    i.settled[k].fate.Processed? || (mode.P2p? && i.settled[k].fate.Ignored?))
  {
    FreshInv(mode);
    RunKeepsInv(Fresh(mode), es);
    RunKeepsMode(Fresh(mode), es);
  }

  /** Descriptions and candidates reach the peer connection, and answers the channel, in arrival order. */
  lemma LogFollowsArrivalOrder(mode: Mode, es: seq<Event>, i: nat, j: nat)
    requires ValidRun(Fresh(mode), es) && i < j < |After(Fresh(mode), es).log|
    ensures var log := After(Fresh(mode), es).log;
            && (Applies(log[i]) && Applies(log[j]) ==> log[i].position < log[j].position)
            && (log[i].SendAnswer? && log[j].SendAnswer? ==> log[i].position < log[j].position)
            && (log[j].SendAnswer? ==>
                  exists k :: 0 <= k < j && log[k].ApplyRemote? && log[k].position == log[j].position)
  {
    FreshInv(mode);
    RunKeepsInv(Fresh(mode), es);
    var log := After(Fresh(mode), es).log;
    assert EntryOrdered(log[..j], log[j]);
    assert log[..j][i] == log[i];
    if log[j].SendAnswer? {
      var k :| 0 <= k < j && log[..j][k].ApplyRemote? && log[..j][k].position == log[j].position;
      assert log[k].ApplyRemote?;
    }
  }

  /**
   An answer sent in SFU mode carries the request id of the very offer it answers, and an answer sent in P2P mode
   carries none.
   */
  lemma AnswersCarryTheirRequestId(mode: Mode, es: seq<Event>, k: nat)
    requires ValidRun(Fresh(mode), es)
    requires k < |After(Fresh(mode), es).log| && After(Fresh(mode), es).log[k].SendAnswer?
    ensures var c := After(Fresh(mode), es);
            var p := c.log[k].position;
            && p < |c.inbox.arrived| && c.inbox.arrived[p].Offer?
            && c.log[k].requestId == (if mode.Sfu? then c.inbox.arrived[p].requestId else None)
  {
    FreshInv(mode);
    RunKeepsInv(Fresh(mode), es);
    RunKeepsMode(Fresh(mode), es);
  }

  /** A start that does not look at the queue: as caller, or as callee with initial messages of which none parses. */
  predicate BlindStart(e: Event) {
    e.CallerStarts? || (e.CalleeStarts? && e.initialMessages != [] && AllMalformed(e.initialMessages))
  }

  predicate AllMalformed(ms: seq<Message>) {
    forall k | 0 <= k < |ms| :: ms[k].Malformed?
  }

  /** Messages get stuck exactly when a client with a remote description already waiting is started blindly. */
  lemma OnlyBlindStartsStrandMessages(c: Client, e: Event)
    requires Enabled(c, e) && !Stuck(c)
    ensures Stuck(Step(c, e)) <==>
              BlindStart(e) && c.role.NotStarted? && c.inbox.hasRemoteSdp.On? && c.inbox.drain.Idle? &&
              c.inbox.messageQueue != []
  {
    if OfferSide(e) { OfferSideKeepsInbox(c, e); OfferSideKeepsRole(c, e); }
    else if e.CalleeStarts? && c.role.NotStarted? && e.initialMessages != [] {
      ReceiveAllDrains(c.inbox, e.initialMessages);
    }
  }

  /** Both starts strand a message in a run of a new client. */
  lemma BlindStartsAreReachable(mode: Mode)
    ensures var es := [Receives(Offer("", None)), CallerStarts];
            ValidRun(Fresh(mode), es) && Stuck(After(Fresh(mode), es))
    ensures var es := [Receives(Offer("", None)), CalleeStarts([Malformed])];
            ValidRun(Fresh(mode), es) && Stuck(After(Fresh(mode), es))
  {
    var c := ReceiveSignalingMessage(Fresh(mode), Offer("", None));
    Unroll(c, CallerStarts, []);
    Unroll(Fresh(mode), Receives(Offer("", None)), [CallerStarts] + []);
    assert ReceiveAll(Callee, c.inbox, [Malformed]) == c.inbox;
    Unroll(c, CalleeStarts([Malformed]), []);
    Unroll(Fresh(mode), Receives(Offer("", None)), [CalleeStarts([Malformed])] + []);
  }

  lemma OfferSideKeepsRole(c: Client, e: Event)
    requires Enabled(c, e) && OfferSide(e)
    ensures Step(c, e).role == if e.CallerStarts? && c.role.NotStarted? then Caller else c.role
  {
  }

  lemma {:induction false} ReceiveAllDrains(i: Inbox, ms: seq<Message>)
    ensures var i' := ReceiveAll(Callee, i, ms);
            if AllMalformed(ms) then i' == i
            else i'.hasRemoteSdp.On? && i'.drain.Idle? ==> i'.messageQueue == []
    decreases |ms|
  {
    if ms != [] {
      var i1 := Receive(Callee, i, ms[0]);
      ReceiveAllDrains(i1, ms[1..]);
      assert ms == [ms[0]] + ms[1..];
      if AllMalformed(ms[1..]) && !ms[0].Malformed? {
        assert !AllMalformed(ms);
      }
    }
  }

  /** The next message that parses, of any kind, sets them free; one that does not changes nothing. */
  lemma ParsedMessagesFreeThem(c: Client, m: Message)
    ensures Stuck(ReceiveSignalingMessage(c, m)) <==> Stuck(c) && m.Malformed?
    ensures m.Malformed? ==> ReceiveSignalingMessage(c, m) == c
  {
  }

  // ---------------------------------------------------------------- reachable clients

  predicate Reaches(mode: Mode, es: seq<Event>, c: Client) {
    ValidRun(Fresh(mode), es) && c == After(Fresh(mode), es)
  }

  /** Some run of a new client ends here, so every theorem about runs is about this client. */
  ghost predicate Reachable(c: Client) {
    exists mode, es :: Reaches(mode, es, c)
  }

  lemma FreshIsReachable(mode: Mode)
    ensures Reachable(Fresh(mode))
  {
    assert Reaches(mode, [], Fresh(mode));
  }

  lemma {:induction false} RunGrows(c: Client, es: seq<Event>, e: Event)
    requires ValidRun(c, es) && Enabled(After(c, es), e)
    ensures ValidRun(c, es + [e]) && After(c, es + [e]) == Step(After(c, es), e)
    decreases |es|
  {
    if es == [] {
      assert es + [e] == [e];
      assert [e][1..] == [];
    } else {
      RunGrows(Step(c, es[0]), es[1..], e);
      assert (es + [e])[1..] == es[1..] + [e];
    }
  }

  lemma StepKeepsReachable(c: Client, e: Event)
    requires Reachable(c) && Enabled(c, e)
    ensures Reachable(Step(c, e))
  {
    var mode, es :| Reaches(mode, es, c);
    RunGrows(Fresh(mode), es, e);
    assert Reaches(mode, es + [e], Step(c, e));
  }

  /** What a reachable client keeps, and what it owes when it is quiet: nothing. */
  lemma ReachableKeeps(c: Client)
    requires Reachable(c)
    ensures Inv(c)
    ensures Quiet(c) ==> c.renegotiationPending.Off?
  {
    var mode, es :| Reaches(mode, es, c);
    FreshInv(mode);
    RunKeepsInv(Fresh(mode), es);
    if Quiet(c) { OwedPublishIsFollowedUp(mode, es); }
  }
}
