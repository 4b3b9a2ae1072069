/**
 What the fate of a message means: a processed offer was applied and answered, a processed answer applied, a processed
 candidate added, and nothing else was; which messages arrive at all, and which candidates are passed over.
 */
module NegotiationFates {
  import opened Options
  import opened Negotiation
  import opened NegotiationInvariants
  import opened NegotiationTheorems

  // ---------------------------------------------------------------- what the log says of a position

  ghost predicate AnsweredAt(log: seq<Entry>, p: nat) {
    exists k :: 0 <= k < |log| && log[k].SendAnswer? && log[k].position == p
  }

  ghost predicate AddedAt(log: seq<Entry>, p: nat) {
    exists k :: 0 <= k < |log| && log[k].AddCandidate? && log[k].position == p
  }

  lemma EntrySays(log: seq<Entry>, e: Entry, p: nat)
    ensures AnsweredAt(log + [e], p) <==> AnsweredAt(log, p) || (e.SendAnswer? && e.position == p)
    ensures AddedAt(log + [e], p) <==> AddedAt(log, p) || (e.AddCandidate? && e.position == p)
    ensures AppliedAt(log + [e], p) <==> AppliedAt(log, p) || (e.ApplyRemote? && e.position == p)
  {
    var log' := log + [e];
    assert log'[|log|] == e;
    if AnsweredAt(log, p) {
      var k :| 0 <= k < |log| && log[k].SendAnswer? && log[k].position == p;
      assert log'[k] == log[k];
    }
    if AddedAt(log, p) {
      var k :| 0 <= k < |log| && log[k].AddCandidate? && log[k].position == p;
      assert log'[k] == log[k];
    }
    AppliedAtAppend(log, e, p);
  }

  // ---------------------------------------------------------------- fates

  /** An offer is processed exactly when it was answered; what else a fate says is in the log too. */
  ghost predicate FateMeans(log: seq<Entry>, s: Settled, p: nat) {
    && (AnsweredAt(log, p) <==> s.message.Offer? && s.fate.Processed?)
    && (AddedAt(log, p) <==> !IsDescription(s.message) && (s.fate.Processed? || s.fate.Failed?))
    && (IsDescription(s.message) && s.fate.Processed? ==> AppliedAt(log, p))
  }

  ghost predicate PastMeans(log: seq<Entry>, settled: seq<Settled>) {
    forall p | 0 <= p < |settled| :: FateMeans(log, settled[p], p)
  }

  predicate Finished(d: Drain) {
    d.Busy? && d.stage.AwaitFinally? && d.stage.outcome.Accepted?
  }

  predicate PastRemote(d: Drain) {
    d.Busy? && (AwaitsAnswer(d.stage) || Finished(d))
  }

  /** The message in progress, at position `n`. */
  ghost predicate NowMeans(log: seq<Entry>, d: Drain, n: nat) {
    && (AnsweredAt(log, n) <==> Finished(d) && d.current.Offer?)
    && (AddedAt(log, n) <==> d.Busy? && d.stage.AwaitCandidate?)
    && (PastRemote(d) ==> AppliedAt(log, n))
  }

  ghost predicate Fates(c: Client) {
    PastMeans(c.log, c.inbox.settled) && NowMeans(c.log, c.inbox.drain, |c.inbox.settled|)
  }

  /** An entry about the message in progress, or about no message, leaves the past alone. */
  lemma PastGrows(log: seq<Entry>, e: Entry, settled: seq<Settled>)
    requires PastMeans(log, settled)
    requires (e.SendAnswer? || e.AddCandidate? || e.ApplyRemote?) ==> e.position >= |settled|
    ensures PastMeans(log + [e], settled)
  {
    forall p | 0 <= p < |settled| ensures FateMeans(log + [e], settled[p], p) {
      assert FateMeans(log, settled[p], p);
      EntrySays(log, e, p);
    }
  }

  predicate Speaks(e: Entry) {
    e.SendAnswer? || e.AddCandidate? || e.ApplyRemote?
  }

  /** An entry about no message changes nothing here. */
  lemma SilentEntry(c: Client, e: Entry, c': Client)
    requires Fates(c) && !Speaks(e) && (c'.log == c.log || c'.log == c.log + [e])
    requires c'.inbox.settled == c.inbox.settled && c'.inbox.drain == c.inbox.drain
    ensures Fates(c')
  {
    if c'.log == c.log + [e] {
      PastGrows(c.log, e, c.inbox.settled);
      EntrySays(c.log, e, |c.inbox.settled|);
    }
  }

  /** Nothing is said of positions that have not been reached. */
  lemma NothingAhead(c: Client, p: nat)
    requires Order(c)
    requires p > |c.inbox.settled| || (p == |c.inbox.settled| && !c.inbox.drain.Busy?)
    ensures !AnsweredAt(c.log, p) && !AddedAt(c.log, p) && !AppliedAt(c.log, p)
  {
  }

  lemma OfferSideKeepsFates(c: Client, e: Event)
    requires Fates(c) && Enabled(c, e) && OfferSide(e)
    ensures Fates(Step(c, e))
  {
    OfferSideKeepsInbox(c, e);
    var c' := Step(c, e);
    SilentEntry(c, if c'.log == c.log then CreateOffer(0) else c'.log[|c.log|], c');
  }

  lemma DrainKeepsNow(log: seq<Entry>, d: Drain, d': Drain, n: nat)
    requires NowMeans(log, d, n) && (d' == d || (d.Idle? && d'.Between?))
    ensures NowMeans(log, d', n)
  {
  }

  lemma ArrivalSideKeepsFates(c: Client, e: Event)
    requires Fates(c) && Enabled(c, e) && ArrivalSide(e)
    ensures Fates(Step(c, e))
  {
    match e
    case Receives(m) =>
      ReceiveKeepsBusy(c.role, c.inbox, m);
      DrainKeepsNow(c.log, c.inbox.drain, Step(c, e).inbox.drain, |c.inbox.settled|);
    case CalleeStarts(ms) =>
      ReceiveAllKeepsBusy(c.inbox, ms);
      ReceiveAllKeepsSettled(c.inbox, ms);
      DrainKeepsNow(c.log, c.inbox.drain, Step(c, e).inbox.drain, |c.inbox.settled|);
  }

  /** A message settles without having been given to the peer connection. */
  lemma SettlesUntouched(c: Client, s: Settled)
    requires Order(c) && PastMeans(c.log, c.inbox.settled) && !c.inbox.drain.Busy? && s.fate.Ignored?
    ensures PastMeans(c.log, c.inbox.settled + [s])
    ensures NowMeans(c.log, Between([]), |c.inbox.settled| + 1)
  {
    var n := |c.inbox.settled|;
    NothingAhead(c, n);
    NothingAhead(c, n + 1);
    forall p | 0 <= p <= n ensures FateMeans(c.log, (c.inbox.settled + [s])[p], p) {
      if p < n { assert FateMeans(c.log, c.inbox.settled[p], p); }
    }
  }

  lemma IgnoreKeepsFates(c: Client, m: Message, rest: seq<Message>, flag: Flag)
    requires Fates(c) && Order(c) && c.inbox.drain.Between?
    ensures Fates(c.(ignoreOffer := flag, inbox := Ignore(c.inbox, m, rest)))
  {
    SettlesUntouched(c, Settled(m, Ignored));
  }

  lemma TakeUpKeepsFates(c: Client, m: Message, ready: Outcome, rest: seq<Message>)
    requires Fates(c) && c.inbox.drain.Between?
    ensures Fates(TakeUp(c, m, ready, rest))
  {
  }

  lemma CandidateKeepsFates(c: Client, m: Message, rest: seq<Message>)
    requires Fates(c) && Order(c) && c.inbox.drain.Between?
    ensures Fates(c.(inbox := Begin(c.inbox, m, AwaitCandidate, rest), log := c.log + [AddCandidate(|c.inbox.settled|)]))
  {
    var n := |c.inbox.settled|;
    PastGrows(c.log, AddCandidate(n), c.inbox.settled);
    EntrySays(c.log, AddCandidate(n), n);
  }

  lemma ProcessNextKeepsFates(c: Client, willing: bool)
    requires Fates(c) && Order(c) && Enabled(c, ProcessNext(willing))
    ensures Fates(ProcessSignalingMessage(c, willing))
  {
    var m, rest := c.inbox.drain.rest[0], c.inbox.drain.rest[1..];
    if !IsDescription(m) {
      if c.ignoreOffer.On? { IgnoreKeepsFates(c, m, rest, c.ignoreOffer); } else { CandidateKeepsFates(c, m, rest); }
    } else if !OfferCollision(c, m) {
      TakeUpKeepsFates(c, m, Accepted, rest);
    } else if Polite(c) {
      var c1 := Collide(c).(signaling := RolledBack(c.signaling, willing));
      SilentEntry(c, Collision(c.offerRevision + 1), c1);
      TakeUpKeepsFates(c1, m, RollbackOutcome(c.signaling, willing), rest);
    } else {
      IgnoreKeepsFates(c, m, rest, On);
    }
  }

  lemma MiddleSideKeepsFates(c: Client, e: Event)
    requires Fates(c) && Shape(c.inbox) && Enabled(c, e) && MiddleSide(e)
    ensures Fates(Step(c, e))
  {
    var c', n := Step(c, e), |c.inbox.settled|;
    if c'.log != c.log {
      var x := c'.log[|c.log|];
      assert c'.log == c.log + [x];
      PastGrows(c.log, x, c.inbox.settled);
      EntrySays(c.log, x, n);
    }
  }

  /** The message in progress settles, and the rest with it if it was rejected. */
  lemma FinishKeepsFates(c: Client, outcome: Outcome)
    requires Fates(c) && Order(c) && Shape(c.inbox) && c.inbox.drain.Busy?
    requires c.inbox.drain.stage.AwaitCandidate? || c.inbox.drain.stage == AwaitFinally(outcome)
    ensures Fates(c.(inbox := FinishCurrent(c.inbox, outcome)))
  {
    var n, s := |c.inbox.settled|, FinishCurrent(c.inbox, outcome).settled;
    forall p | 0 <= p < |s| ensures FateMeans(c.log, s[p], p) {
      if p < n {
        assert FateMeans(c.log, c.inbox.settled[p], p);
      } else if p > n {
        NothingAhead(c, p);
      }
    }
    NothingAhead(c, |s|);
  }

  lemma ClosingSideKeepsFates(c: Client, e: Event)
    requires Fates(c) && Order(c) && Shape(c.inbox) && Enabled(c, e) && ClosingSide(e)
    ensures Fates(Step(c, e))
  {
    match e
    case ProcessFinallyStep =>
      var c1 := c.(inbox := FinishCurrent(c.inbox, c.inbox.drain.stage.outcome));
      FinishKeepsFates(c, c.inbox.drain.stage.outcome);
      SilentEntry(c1, CreateOffer(c.offerRevision + 1), MaybeRenegotiate(c1));
    case CandidateStep(ok) => FinishKeepsFates(c, if ok then Accepted else Refused);
    case BatchStep =>
  }

  lemma StepKeepsFates(c: Client, e: Event)
    requires Fates(c) && Order(c) && Shape(c.inbox) && Enabled(c, e)
    ensures Fates(Step(c, e))
  {
    if OfferSide(e) { OfferSideKeepsFates(c, e); }
    else if ArrivalSide(e) { ArrivalSideKeepsFates(c, e); }
    else if MiddleSide(e) { MiddleSideKeepsFates(c, e); }
    else if ClosingSide(e) { ClosingSideKeepsFates(c, e); }
    else { ProcessNextKeepsFates(c, e.willing); }
  }

  lemma {:induction false} RunKeepsFates(c: Client, es: seq<Event>)
    requires Fates(c) && Inv(c) && ValidRun(c, es)
    ensures Fates(After(c, es))
    decreases |es|
  {
    if es != [] {
      StepKeepsFates(c, es[0]);
      StepKeepsInv(c, es[0]);
      RunKeepsFates(Step(c, es[0]), es[1..]);
    }
  }

  /**
   In every run, in P2P mode and in SFU mode: an offer that is settled was answered if and only if it was processed, a
   candidate was given to the peer connection if and only if it was processed or rejected there, and a processed
   description was applied.
   */
  lemma SettledMeans(mode: Mode, es: seq<Event>, p: nat)
    requires ValidRun(Fresh(mode), es) && p < |After(Fresh(mode), es).inbox.settled|
    ensures var c := After(Fresh(mode), es);
            var s := c.inbox.settled[p];
            && (s.message.Offer? && s.fate.Processed? <==> AnsweredAt(c.log, p))
            && (!IsDescription(s.message) && (s.fate.Processed? || s.fate.Failed?) <==> AddedAt(c.log, p))
            && (IsDescription(s.message) && s.fate.Processed? ==> AppliedAt(c.log, p))
  {
    FreshInv(mode);
    RunKeepsFates(Fresh(mode), es);
    assert FateMeans(After(Fresh(mode), es).log, After(Fresh(mode), es).inbox.settled[p], p);
  }

  // ---------------------------------------------------------------- what arrives

  /** The messages that are for the peer connection. */
  function ForPeer(ms: seq<Message>): seq<Message> {
    if ms == [] then []
    else (if ms[0].Offer? || ms[0].Answer? || ms[0].Candidate? || ms[0].EndOfCandidates? then [ms[0]] else []) +
         ForPeer(ms[1..])
  }

  /** What an event brings: the messages of a first start as callee, or the one message received. */
  function Brings(c: Client, e: Event): seq<Message> {
    match e
    case Receives(m) => ForPeer([m])
    case CalleeStarts(ms) => if c.role.NotStarted? then ForPeer(ms) else []
    case _ => []
  }

  function Heard(c: Client, es: seq<Event>): seq<Message>
    requires ValidRun(c, es)
    decreases |es|
  {
    if es == [] then [] else Brings(c, es[0]) + Heard(Step(c, es[0]), es[1..])
  }

  predicate AnyDescription(ms: seq<Message>) {
    exists k :: 0 <= k < |ms| && IsDescription(ms[k])
  }

  ghost predicate Listening(i: Inbox) {
    i.hasRemoteSdp.On? <==> AnyDescription(i.arrived)
  }

  lemma ReceiveBrings(role: Role, i: Inbox, m: Message)
    ensures Receive(role, i, m).arrived == i.arrived + ForPeer([m])
    ensures Listening(i) ==> Listening(Receive(role, i, m))
  {
    assert ForPeer([m]) == if IsQueued(m) then [m] else [];
    var a := i.arrived + [m];
    assert a[|i.arrived|] == m;
    if AnyDescription(i.arrived) {
      var k :| 0 <= k < |i.arrived| && IsDescription(i.arrived[k]);
      assert IsDescription(a[k]);
    }
  }

  lemma {:induction false} ReceiveAllBrings(i: Inbox, ms: seq<Message>)
    ensures ReceiveAll(Callee, i, ms).arrived == i.arrived + ForPeer(ms)
    ensures Listening(i) ==> Listening(ReceiveAll(Callee, i, ms))
    decreases |ms|
  {
    if ms != [] {
      ReceiveBrings(Callee, i, ms[0]);
      ReceiveAllBrings(Receive(Callee, i, ms[0]), ms[1..]);
      assert ForPeer(ms) == ForPeer([ms[0]]) + ForPeer(ms[1..]);
    }
  }

  lemma StepBrings(c: Client, e: Event)
    requires Enabled(c, e)
    ensures Step(c, e).inbox.arrived == c.inbox.arrived + Brings(c, e)
    ensures Listening(c.inbox) ==> Listening(Step(c, e).inbox)
  {
    if OfferSide(e) { OfferSideKeepsInbox(c, e); }
    else if e.Receives? { ReceiveBrings(c.role, c.inbox, e.message); }
    else if e.CalleeStarts? { ReceiveAllBrings(c.inbox, e.initialMessages); }
  }

  lemma {:induction false} RunBrings(c: Client, es: seq<Event>)
    requires ValidRun(c, es)
    ensures After(c, es).inbox.arrived == c.inbox.arrived + Heard(c, es)
    ensures Listening(c.inbox) ==> Listening(After(c, es).inbox)
    decreases |es|
  {
    if es != [] {
      StepBrings(c, es[0]);
      RunBrings(Step(c, es[0]), es[1..]);
    }
  }

  /**
   In every run, what has arrived is every description and candidate that was received or came with the start, in
   order, and nothing else; `hasRemoteSdp_` is set exactly when a description is among them.
   */
  lemma EverythingIsHeard(mode: Mode, es: seq<Event>)
    requires ValidRun(Fresh(mode), es)
    ensures var i := After(Fresh(mode), es).inbox;
            i.arrived == Heard(Fresh(mode), es) && (i.hasRemoteSdp.On? <==> AnyDescription(i.arrived))
  {
    RunBrings(Fresh(mode), es);
  }

  // ---------------------------------------------------------------- candidates of an ignored offer

  /** The last description that was looked at was ignored. */
  function LastIgnored(s: seq<Settled>): bool {
    s != [] &&
    var x := s[|s| - 1];
    if IsDescription(x.message) && !x.fate.Skipped? then x.fate.Ignored? else LastIgnored(s[..|s| - 1])
  }

  lemma LastIgnoredAppend(s: seq<Settled>, x: Settled)
    ensures LastIgnored(s + [x]) ==
            if IsDescription(x.message) && !x.fate.Skipped? then x.fate.Ignored? else LastIgnored(s)
  {
    assert (s + [x])[..|s|] == s;
  }

  lemma {:induction false} LastIgnoredSkips(s: seq<Settled>, ms: seq<Message>)
    ensures LastIgnored(s + SkipAll(ms)) == LastIgnored(s)
    decreases |ms|
  {
    if ms == [] {
      assert s + SkipAll(ms) == s;
    } else {
      var init, last := ms[..|ms| - 1], ms[|ms| - 1];
      assert s + SkipAll(ms) == (s + SkipAll(init)) + [Settled(last, Skipped)];
      LastIgnoredAppend(s + SkipAll(init), Settled(last, Skipped));
      LastIgnoredSkips(s, init);
    }
  }

  predicate CandidateFits(s: seq<Settled>, k: nat)
    requires k < |s|
  {
    !IsDescription(s[k].message) && !s[k].fate.Skipped? ==> (s[k].fate.Ignored? <==> LastIgnored(s[..k]))
  }

  ghost predicate CandidatesFit(s: seq<Settled>) {
    forall k | 0 <= k < |s| :: CandidateFits(s, k)
  }

  lemma FitsAppend(s: seq<Settled>, x: Settled)
    requires CandidatesFit(s)
    requires !IsDescription(x.message) && !x.fate.Skipped? ==> (x.fate.Ignored? <==> LastIgnored(s))
    ensures CandidatesFit(s + [x])
  {
    var s' := s + [x];
    forall k | 0 <= k < |s'| ensures CandidateFits(s', k) {
      assert s'[..k] == if k < |s| then s[..k] else s;
      if k < |s| { assert CandidateFits(s, k); }
    }
  }

  lemma {:induction false} FitsSkips(s: seq<Settled>, ms: seq<Message>)
    requires CandidatesFit(s)
    ensures CandidatesFit(s + SkipAll(ms))
    decreases |ms|
  {
    if ms == [] {
      assert s + SkipAll(ms) == s;
    } else {
      var init, last := ms[..|ms| - 1], ms[|ms| - 1];
      FitsSkips(s, init);
      FitsAppend(s + SkipAll(init), Settled(last, Skipped));
      assert s + SkipAll(ms) == (s + SkipAll(init)) + [Settled(last, Skipped)];
    }
  }

  /** The flag `ignoreOffer_` is about the last description; one in progress has cleared it. */
  ghost predicate Passing(c: Client) {
    && CandidatesFit(c.inbox.settled)
    && (if InDescription(c.inbox) then c.ignoreOffer.Off? else c.ignoreOffer.On? <==> LastIgnored(c.inbox.settled))
    && (c.inbox.drain.Busy? ==> c.ignoreOffer.Off?)
  }

  lemma OfferSideKeepsPassing(c: Client, e: Event)
    requires Passing(c) && Enabled(c, e) && OfferSide(e)
    ensures Passing(Step(c, e))
  {
    OfferSideKeepsInbox(c, e);
  }

  lemma ArrivalSideKeepsPassing(c: Client, e: Event)
    requires Passing(c) && Enabled(c, e) && ArrivalSide(e)
    ensures Passing(Step(c, e))
  {
    match e
    case Receives(m) => ReceiveKeepsBusy(c.role, c.inbox, m);
    case CalleeStarts(ms) => ReceiveAllKeepsBusy(c.inbox, ms); ReceiveAllKeepsSettled(c.inbox, ms);
  }

  lemma ProcessNextKeepsPassing(c: Client, willing: bool)
    requires Passing(c) && Enabled(c, ProcessNext(willing))
    ensures Passing(ProcessSignalingMessage(c, willing))
  {
    var x := Settled(c.inbox.drain.rest[0], Ignored);
    LastIgnoredAppend(c.inbox.settled, x);
    if IsDescription(x.message) || c.ignoreOffer.On? { FitsAppend(c.inbox.settled, x); }
  }

  lemma MiddleSideKeepsPassing(c: Client, e: Event)
    requires Passing(c) && Enabled(c, e) && MiddleSide(e)
    ensures Passing(Step(c, e))
  {
  }

  lemma FinishKeepsPassing(c: Client, outcome: Outcome)
    requires Passing(c) && c.inbox.drain.Busy?
    ensures Passing(c.(inbox := FinishCurrent(c.inbox, outcome)))
  {
    var x := Settled(c.inbox.drain.current, if outcome.Accepted? then Processed else Failed);
    var s := c.inbox.settled + [x];
    LastIgnoredAppend(c.inbox.settled, x);
    FitsAppend(c.inbox.settled, x);
    if outcome.Refused? {
      LastIgnoredSkips(s, c.inbox.drain.rest);
      FitsSkips(s, c.inbox.drain.rest);
      assert FinishCurrent(c.inbox, outcome).settled == s + SkipAll(c.inbox.drain.rest);
    }
  }

  lemma ClosingSideKeepsPassing(c: Client, e: Event)
    requires Passing(c) && Enabled(c, e) && ClosingSide(e)
    ensures Passing(Step(c, e))
  {
    match e
    case ProcessFinallyStep => FinishKeepsPassing(c, c.inbox.drain.stage.outcome);
    case CandidateStep(ok) => FinishKeepsPassing(c, if ok then Accepted else Refused);
    case BatchStep =>
  }

  lemma {:induction false} RunKeepsPassing(c: Client, es: seq<Event>)
    requires Passing(c) && ValidRun(c, es)
    ensures Passing(After(c, es))
    decreases |es|
  {
    if es != [] {
      var e := es[0];
      if OfferSide(e) { OfferSideKeepsPassing(c, e); }
      else if ArrivalSide(e) { ArrivalSideKeepsPassing(c, e); }
      else if MiddleSide(e) { MiddleSideKeepsPassing(c, e); }
      else if ClosingSide(e) { ClosingSideKeepsPassing(c, e); }
      else { ProcessNextKeepsPassing(c, e.willing); }
      RunKeepsPassing(Step(c, e), es[1..]);
    }
  }

  /** In every run, a candidate that was looked at is passed over if and only if the last offer before it was ignored. */
  lemma CandidatesFollowTheirOffer(mode: Mode, es: seq<Event>, k: nat)
    requires ValidRun(Fresh(mode), es) && k < |After(Fresh(mode), es).inbox.settled|
    ensures var s := After(Fresh(mode), es).inbox.settled;
            !IsDescription(s[k].message) && !s[k].fate.Skipped? ==> (s[k].fate.Ignored? <==> LastIgnored(s[..k]))
  {
    RunKeepsPassing(Fresh(mode), es);
    assert CandidateFits(After(Fresh(mode), es).inbox.settled, k);
  }

  // ---------------------------------------------------------------- who yields

  /** An offer that finds the connection stable and no local offer in the making is taken up as it is. */
  predicate TakenUpClear(c: Client, m: Message, rest: seq<Message>, c': Client) {
    && c'.inbox.drain == Busy(m, AwaitReady(Accepted), rest) && c'.inbox.settled == c.inbox.settled
    && c'.log == c.log && c'.offerRevision == c.offerRevision && c'.signaling == c.signaling && c'.ignoreOffer.Off?
  }

  predicate PassedOver(c: Client, m: Message, rest: seq<Message>, c': Client) {
    && c'.inbox.drain == Between(rest) && c'.inbox.settled == c.inbox.settled + [Settled(m, Ignored)]
    && c'.log == c.log && c'.offerRevision == c.offerRevision && c'.signaling == c.signaling && c'.task == c.task
    && c'.ignoreOffer.On?
  }

  predicate YieldedTo(c: Client, m: Message, rest: seq<Message>, willing: bool, c': Client) {
    && c'.inbox.drain.Busy? && c'.inbox.drain.current == m && c'.inbox.drain.stage.AwaitReady?
    && c'.inbox.drain.rest == rest && c'.inbox.settled == c.inbox.settled
    && c'.log == c.log + [Collision(c.offerRevision + 1)] && c'.offerRevision == c.offerRevision + 1
    && c'.ignoreOffer.Off? && (c.mode.Sfu? ==> c'.renegotiationPending.On?)
    && (willing ==> c'.signaling.Stable? && c'.inbox.drain.stage.outcome.Accepted?)
  }

  lemma NextOffer(c: Client, willing: bool)
    requires Enabled(c, ProcessNext(willing)) && c.inbox.drain.rest[0].Offer? && !c.role.NotStarted?
    ensures var m, rest, c' := c.inbox.drain.rest[0], c.inbox.drain.rest[1..], Step(c, ProcessNext(willing));
            if c.task.NoOffer? && c.signaling.Stable? then TakenUpClear(c, m, rest, c')
            else if c.mode.P2p? && c.role.Caller? then PassedOver(c, m, rest, c')
            else YieldedTo(c, m, rest, willing, c')
  {
  }

  /**
   In every run, to an offer that arrives while a local one is in the making or outside stable: a P2P caller ignores it
   and nothing else changes; a P2P callee and every client of an SFU void their own offers and take it up, and the
   latter owe the SFU a publish. Any other offer is taken up as it is.
   */
  lemma OffersAreYieldedTo(mode: Mode, es: seq<Event>, willing: bool)
    requires ValidRun(Fresh(mode), es) && Enabled(After(Fresh(mode), es), ProcessNext(willing))
    requires After(Fresh(mode), es).inbox.drain.rest[0].Offer?
    ensures var c := After(Fresh(mode), es);
            var m, rest, c' := c.inbox.drain.rest[0], c.inbox.drain.rest[1..], Step(c, ProcessNext(willing));
            if c.task.NoOffer? && c.signaling.Stable? then TakenUpClear(c, m, rest, c')
            else if mode.P2p? && c.role.Caller? then PassedOver(c, m, rest, c')
            else YieldedTo(c, m, rest, willing, c')
  {
    FreshInv(mode);
    RunKeepsInv(Fresh(mode), es);
    RunKeepsMode(Fresh(mode), es);
    NextOffer(After(Fresh(mode), es), willing);
  }

  // ---------------------------------------------------------------- offers come to an end

  ghost predicate Concluded(log: seq<Entry>, r: nat) {
    exists k :: 0 <= k < |log| && (log[k].SendOffer? || log[k].Abandon?) && log[k].revision == r
  }

  /** Every offer made was sent, was abandoned, or is in the making. */
  ghost predicate OffersTracked(c: Client) {
    forall k | 0 <= k < |c.log| && c.log[k].CreateOffer? ::
      Concluded(c.log, c.log[k].revision) || OfferRevision(c.task) == c.log[k].revision
  }

  lemma ConcludedAppend(log: seq<Entry>, e: Entry, r: nat)
    ensures Concluded(log, r) ==> Concluded(log + [e], r)
    ensures (e.SendOffer? || e.Abandon?) && e.revision == r ==> Concluded(log + [e], r)
  {
    var log' := log + [e];
    assert log'[|log|] == e;
    if Concluded(log, r) {
      var k :| 0 <= k < |log| && (log[k].SendOffer? || log[k].Abandon?) && log[k].revision == r;
      assert log'[k] == log[k];
    }
  }

  lemma TrackedAppend(c: Client, e: Entry, c': Client)
    requires OffersTracked(c) && (c'.log == c.log || c'.log == c.log + [e])
    requires c'.log == c.log ==> OfferRevision(c'.task) == OfferRevision(c.task)
    requires c'.log != c.log ==>
               || OfferRevision(c'.task) == OfferRevision(c.task) > 0
               || OfferRevision(c.task) == 0
               || ((e.SendOffer? || e.Abandon?) && e.revision == OfferRevision(c.task))
    requires e.CreateOffer? ==> OfferRevision(c'.task) == e.revision
    requires forall k | 0 <= k < |c.log| && c.log[k].CreateOffer? :: c.log[k].revision > 0
    ensures OffersTracked(c')
  {
    if c'.log != c.log {
      forall k | 0 <= k < |c'.log| && c'.log[k].CreateOffer?
        ensures Concluded(c'.log, c'.log[k].revision) || OfferRevision(c'.task) == c'.log[k].revision
      {
        ConcludedAppend(c.log, e, c'.log[k].revision);
      }
    }
  }

  lemma RevisionsPositive(log: seq<Entry>)
    requires Fenced(log)
    ensures forall k | 0 <= k < |log| && log[k].CreateOffer? :: log[k].revision > 0
  {
    forall k | 0 <= k < |log| && log[k].CreateOffer? ensures log[k].revision > 0 {
      assert EntryFenced(log[..k], log[k]);
    }
  }

  lemma OfferSideTracks(c: Client, e: Event)
    requires Fence(c) && OffersTracked(c) && Enabled(c, e) && OfferSide(e)
    ensures OffersTracked(Step(c, e))
  {
    RevisionsPositive(c.log);
    var c' := Step(c, e);
    TrackedAppend(c, if c'.log == c.log then AddCandidate(0) else c'.log[|c.log|], c');
  }

  lemma OtherSidesTrack(c: Client, e: Event)
    requires Fence(c) && OffersTracked(c) && Enabled(c, e) && !OfferSide(e)
    ensures OffersTracked(Step(c, e))
  {
    RevisionsPositive(c.log);
    var c' := Step(c, e);
    TrackedAppend(c, if c'.log == c.log then AddCandidate(0) else c'.log[|c.log|], c');
  }

  lemma {:induction false} RunTracks(c: Client, es: seq<Event>)
    requires Inv(c) && OffersTracked(c) && ValidRun(c, es)
    ensures OffersTracked(After(c, es))
    decreases |es|
  {
    if es != [] {
      StepKeepsInv(c, es[0]);
      if OfferSide(es[0]) { OfferSideTracks(c, es[0]); } else { OtherSidesTrack(c, es[0]); }
      RunTracks(Step(c, es[0]), es[1..]);
    }
  }

  ghost predicate NothingRejected(log: seq<Entry>) {
    forall k | 0 <= k < |log| && log[k].Abandon? :: !log[k].why.CreationRejected? && !log[k].why.SettingRejected?
  }

  lemma StepRejectsNothing(c: Client, e: Event)
    requires NothingRejected(c.log) && Enabled(c, e) && Smooth(e)
    ensures NothingRejected(Step(c, e).log)
  {
  }

  lemma {:induction false} SmoothRunsRejectNothing(c: Client, es: seq<Event>)
    requires NothingRejected(c.log) && ValidRun(c, es) && forall k | 0 <= k < |es| :: Smooth(es[k])
    ensures NothingRejected(After(c, es).log)
    decreases |es|
  {
    if es != [] {
      StepRejectsNothing(c, es[0]);
      SmoothRunsRejectNothing(Step(c, es[0]), es[1..]);
    }
  }

  /**
   In every run, when no offer is in the making every offer made was sent or abandoned; if besides no promise was
   rejected, an abandoned one was voided by a collision or preempted by the remote offer it was made under.
   */
  lemma OffersComeToAnEnd(mode: Mode, es: seq<Event>)
    requires ValidRun(Fresh(mode), es) && After(Fresh(mode), es).task.NoOffer?
    ensures var log := After(Fresh(mode), es).log;
            forall k | 0 <= k < |log| && log[k].CreateOffer? :: Concluded(log, log[k].revision)
    ensures var log := After(Fresh(mode), es).log;
            (forall k | 0 <= k < |es| :: Smooth(es[k])) ==>
              forall k | 0 <= k < |log| && log[k].Abandon? :: log[k].why.Superseded? || log[k].why.Preempted?
  {
    FreshInv(mode);
    RunTracks(Fresh(mode), es);
    RunKeepsInv(Fresh(mode), es);
    RevisionsPositive(After(Fresh(mode), es).log);
    OffersAreDiscardedForAReason(mode, es);
    if forall k | 0 <= k < |es| :: Smooth(es[k]) { SmoothRunsRejectNothing(Fresh(mode), es); }
  }

  /** A client starts an offer when the browser asks for negotiation exactly if it is a started, stable client of an SFU. */
  lemma NegotiationNeededMakesAnOfferIff(c: Client)
    ensures var c' := Step(c, NegotiationNeeded);
            if c.mode.Sfu? && !c.role.NotStarted? && c.signaling.Stable? && c.task.NoOffer?
            then c'.log == c.log + [CreateOffer(c.offerRevision + 1)] && c'.task.Creating? &&
                 c'.task.revision == c'.offerRevision == c.offerRevision + 1
            else c' == c
  {
  }

  /** A created offer that is current in stable is given to the browser, and sent once the browser has taken it. */
  lemma CurrentOffersGoOut(c: Client, willing: bool)
    requires c.task.Creating? && c.task.revision == c.offerRevision && c.signaling.Stable?
    ensures var c1 := Step(c, OfferCreatedStep(true, willing));
            && c1.log == c.log + [ApplyOffer(c.offerRevision, Stable)]
            && c1.task == Applying(c.offerRevision, if willing then Accepted else Refused)
            && c1.signaling == (if willing then HaveLocalOffer else Stable)
            && (willing ==> Step(c1, OfferAppliedStep(true)).log == c1.log + [SendOffer(c.offerRevision)])
  {
  }

  // ---------------------------------------------------------------- runs in which nothing is rejected

  /** Nothing has failed, and nothing in progress is about to. */
  ghost predicate Unfailing(i: Inbox) {
    && (forall k | 0 <= k < |i.settled| :: !i.settled[k].fate.Failed?)
    && (i.drain.Busy? && (i.drain.stage.AwaitReady? || i.drain.stage.AwaitFinally?) ==> i.drain.stage.outcome.Accepted?)
  }

  lemma SmoothStepFailsNothing(c: Client, e: Event)
    requires Unfailing(c.inbox) && Enabled(c, e) && Smooth(e)
    ensures Unfailing(Step(c, e).inbox)
  {
    if OfferSide(e) { OfferSideKeepsInbox(c, e); }
    else if e.Receives? { ReceiveKeepsBusy(c.role, c.inbox, e.message); }
    else if e.CalleeStarts? {
      ReceiveAllKeepsBusy(c.inbox, e.initialMessages);
      ReceiveAllKeepsSettled(c.inbox, e.initialMessages);
    }
  }

  lemma {:induction false} SmoothRunFailsNothing(c: Client, es: seq<Event>)
    requires Unfailing(c.inbox) && ValidRun(c, es) && forall k | 0 <= k < |es| :: Smooth(es[k])
    ensures Unfailing(After(c, es).inbox)
    decreases |es|
  {
    if es != [] {
      SmoothStepFailsNothing(c, es[0]);
      SmoothRunFailsNothing(Step(c, es[0]), es[1..]);
    }
  }

  /**
   In every run in which no promise is rejected and the browser refuses nothing, every message that leaves its batch is
   processed, or ignored by a P2P client; so every offer that is not ignored is answered.
   */
  lemma SmoothRunsProcessEverything(mode: Mode, es: seq<Event>, p: nat)
    requires ValidRun(Fresh(mode), es) && forall k | 0 <= k < |es| :: Smooth(es[k])
    requires p < |After(Fresh(mode), es).inbox.settled|
    ensures var c := After(Fresh(mode), es);
            var s := c.inbox.settled[p];
            && (s.fate.Processed? || (mode.P2p? && s.fate.Ignored?))
            && (s.message.Offer? && !s.fate.Ignored? ==> AnsweredAt(c.log, p))
            && (!IsDescription(s.message) && !s.fate.Ignored? ==> AddedAt(c.log, p))
  {
    SmoothRunFailsNothing(Fresh(mode), es);
    MessagesSettleInArrivalOrder(mode, es);
    SettledMeans(mode, es, p);
  }

  /** The first start as caller, towards a peer or an SFU, makes an offer unless one is already in the making. */
  lemma StartingOffers(c: Client)
    ensures var c' := Step(c, CallerStarts);
            && (c.role.NotStarted? <==> c'.role.Caller? && !c.role.Caller?)
            && (c.role.NotStarted? && c.task.NoOffer? ==>
                  c'.log == c.log + [CreateOffer(c'.offerRevision)] && c'.task.Creating?)
            && (!c.role.NotStarted? ==> c' == c)
  {
  }

  /** A remote offer is in place only while it is the one in progress and its answer is in the making. */
  predicate Answering(c: Client) {
    c.signaling.HaveRemoteOffer? ==>
      && c.inbox.drain.Busy? && c.inbox.drain.current.Offer?
      && (c.inbox.drain.stage.AwaitRemote? || c.inbox.drain.stage.AwaitAnswer?)
  }

  lemma SmoothStepKeepsAnswering(c: Client, e: Event)
    requires Answering(c) && Enabled(c, e) && Smooth(e)
    ensures Answering(Step(c, e))
  {
    if OfferSide(e) { OfferSideKeepsInbox(c, e); }
    else if e.Receives? { ReceiveKeepsBusy(c.role, c.inbox, e.message); }
    else if e.CalleeStarts? { ReceiveAllKeepsBusy(c.inbox, e.initialMessages); }
  }

  lemma {:induction false} SmoothRunKeepsAnswering(c: Client, es: seq<Event>)
    requires Answering(c) && ValidRun(c, es) && forall k | 0 <= k < |es| :: Smooth(es[k])
    ensures Answering(After(c, es))
    decreases |es|
  {
    if es != [] {
      SmoothStepKeepsAnswering(c, es[0]);
      SmoothRunKeepsAnswering(Step(c, es[0]), es[1..]);
    }
  }

  /**
   In every run in which nothing is rejected, a client of either mode that is between messages has answered every offer
   it applied: it is stable, or waits for the answer to an offer of its own.
   */
  lemma SmoothRunsReturnToStable(mode: Mode, es: seq<Event>)
    requires ValidRun(Fresh(mode), es) && forall k | 0 <= k < |es| :: Smooth(es[k])
    requires !After(Fresh(mode), es).inbox.drain.Busy?
    ensures !After(Fresh(mode), es).signaling.HaveRemoteOffer?
  {
    SmoothRunKeepsAnswering(Fresh(mode), es);
  }
}
