/** A V2 client left to itself comes to rest: nothing it does on its own goes on for ever, and nothing gets stuck halfway. */
module NegotiationProgress {
  import opened Options
  import opened Negotiation

  /** A step the client takes by itself, once its promises settle; the others come from the page or from the peer. */
  predicate Internal(e: Event) {
    !e.CallerStarts? && !e.CalleeStarts? && !e.Receives? && !e.NegotiationNeeded?
  }

  function TaskRank(task: OfferTask): nat {
    match task
    case NoOffer => 0
    case Finishing => 1
    case Applying(_, _) => 2
    case Creating(_, _) => 3
  }

  function StageRank(stage: Stage): nat {
    match stage
    case AwaitReady(_) => 5
    case AwaitRemote(_) => 4
    case AwaitAnswer => 3
    case AwaitLocalAnswer(_) => 2
    case AwaitFinally(_) => 1
    case AwaitCandidate => 1
  }

  function DrainRank(d: Drain): nat {
    match d
    case Idle => 0
    case Between(rest) => 1 + 9 * |rest|
    case Busy(_, stage, rest) => 1 + 9 * |rest| + StageRank(stage)
  }

  /** An upper bound on the steps left: a message may owe a publish, and a publish owed is at most one more offer. */
  function Remaining(c: Client): nat {
    TaskRank(c.task) + (if c.renegotiationPending.On? then 3 else 0) + DrainRank(c.inbox.drain) +
    11 * |c.inbox.messageQueue|
  }

  lemma RenegotiationCosts(c: Client)
    ensures Remaining(MaybeRenegotiate(c)) <= Remaining(c)
  {
  }

  lemma OfferStepsDescend(c: Client, e: Event)
    requires Enabled(c, e) && (e.OfferCreatedStep? || e.OfferAppliedStep? || e.OfferFinallyStep?)
    ensures Remaining(Step(c, e)) < Remaining(c)
  {
    if e.OfferFinallyStep? { RenegotiationCosts(c.(task := NoOffer)); }
  }

  lemma ProcessNextDescends(c: Client, willing: bool)
    requires Enabled(c, ProcessNext(willing))
    ensures Remaining(ProcessSignalingMessage(c, willing)) < Remaining(c)
  {
  }

  lemma MessageStepsDescend(c: Client, e: Event)
    requires Enabled(c, e) && (e.ReadyStep? || e.RemoteStep? || e.AnswerCreatedStep? || e.LocalAnswerStep?)
    ensures Remaining(Step(c, e)) < Remaining(c)
  {
  }

  lemma FinishDescends(c: Client, outcome: Outcome)
    requires c.inbox.drain.Busy?
    ensures Remaining(c.(inbox := FinishCurrent(c.inbox, outcome))) < Remaining(c)
  {
  }

  lemma ClosingStepsDescend(c: Client, e: Event)
    requires Enabled(c, e) && (e.ProcessFinallyStep? || e.CandidateStep? || e.BatchStep?)
    ensures Remaining(Step(c, e)) < Remaining(c)
  {
    match e
    case ProcessFinallyStep =>
      FinishDescends(c, c.inbox.drain.stage.outcome);
      RenegotiationCosts(c.(inbox := FinishCurrent(c.inbox, c.inbox.drain.stage.outcome)));
    case CandidateStep(ok) => FinishDescends(c, if ok then Accepted else Refused);
    case BatchStep =>
  }

  lemma StepsDescend(c: Client, e: Event)
    requires Enabled(c, e) && Internal(e)
    ensures Remaining(Step(c, e)) < Remaining(c)
  {
    if e.OfferCreatedStep? || e.OfferAppliedStep? || e.OfferFinallyStep? { OfferStepsDescend(c, e); }
    else if e.ProcessNext? { ProcessNextDescends(c, e.willing); }
    else if e.ProcessFinallyStep? || e.CandidateStep? || e.BatchStep? { ClosingStepsDescend(c, e); }
    else { MessageStepsDescend(c, e); }
  }

  /** However its promises settle, a client left to itself takes a bounded number of steps. */
  lemma {:induction false} RunsAreBounded(c: Client, es: seq<Event>)
    requires ValidRun(c, es) && forall k | 0 <= k < |es| :: Internal(es[k])
    ensures |es| + Remaining(After(c, es)) <= Remaining(c)
    decreases |es|
  {
    if es != [] {
      StepsDescend(c, es[0]);
      RunsAreBounded(Step(c, es[0]), es[1..]);
    }
  }

  /** The step the client can always take next, with its promise rejected if there is one. */
  function NextStep(c: Client): Event {
    match c.task
    case Creating(_, _) => OfferCreatedStep(false, false)
    case Applying(_, _) => OfferAppliedStep(false)
    case Finishing => OfferFinallyStep
    case NoOffer =>
      match c.inbox.drain
      case Idle => NegotiationNeeded
      case Between(rest) => if rest == [] then BatchStep else ProcessNext(false)
      case Busy(_, stage, _) =>
        match stage
        case AwaitReady(_) => ReadyStep(false)
        case AwaitRemote(_) => RemoteStep(false)
        case AwaitAnswer => AnswerCreatedStep(false, false)
        case AwaitLocalAnswer(_) => LocalAnswerStep(false)
        case AwaitFinally(_) => ProcessFinallyStep
        case AwaitCandidate => CandidateStep(false)
  }

  predicate AtRest(c: Client) {
    c.task.NoOffer? && c.inbox.drain.Idle?
  }

  /** It comes to a halt exactly when no batch is being drained and no offer is in the making. */
  lemma HaltsOnlyAtRest(c: Client)
    ensures AtRest(c) <==> forall e: Event | Internal(e) :: !Enabled(c, e)
  {
    if !AtRest(c) { assert Internal(NextStep(c)) && Enabled(c, NextStep(c)); }
  }
}
