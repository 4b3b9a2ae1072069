/** What the result of a command says about what the command did: to the member, to the room, and to the engine. */
module SfuAnswers {
  import opened Options
  import opened Uuid
  import opened SfuCommands
  import opened SfuProjection
  import opened SfuShard

  /** A command that is applied: under a nonzero id that is not remembered, for a room that is one. */
  predicate IsNew(s: Shard, r: Request) {
    r.requestId != 0 && r.requestId !in s.replay.cache && CommandRoom(r.command).Some?
  }

  /**
   A join answers that the member joined exactly when the member is projected under the stamp it asked for; it is stale
   exactly when the member was there under another, and fails exactly when the engine refused the one call it made.
   */
  lemma JoinAnswers(b: Behaviour, s: Shard, r: Request)
    requires IsNew(s, r) && r.command.Join?
    ensures var m, stamp, w, e := Member(r.command.room, r.command.client), r.command.stamp, s.worker, Execute(b, s, r);
            var call, p' := EngineJoin(r.requestId, m), e.shard.worker.projection;
            && e.result.requestId == r.requestId
            && (e.result.outcome == Ok(MemberJoined(m, stamp)) <==> m in p' && p'[m] == stamp)
            && (e.result.outcome == Err(StaleLifecycle) <==> m in w.projection && w.projection[m] != stamp)
            && (e.result.outcome == Err(Internal) <==> m !in w.projection && b(w.engine.calls, call).status.Rejected?)
            && (e.result.outcome.Ok? || e.result.outcome == Err(StaleLifecycle) || e.result.outcome == Err(Internal))
            && e.shard.worker.engine.calls == w.engine.calls + (if m in w.projection then [] else [call])
  {
  }

  /** A leave answers that the member left exactly when the member is not projected afterwards, and likewise. */
  lemma LeaveAnswers(b: Behaviour, s: Shard, r: Request)
    requires IsNew(s, r) && r.command.Leave?
    ensures var m, stamp, w, e := Member(r.command.room, r.command.client), r.command.stamp, s.worker, Execute(b, s, r);
            var call, p, p' := EngineLeave(r.requestId, m), w.projection, e.shard.worker.projection;
            && e.result.requestId == r.requestId
            && (e.result.outcome == Ok(MemberLeft(m, stamp)) <==> m !in p')
            && (e.result.outcome == Err(StaleAssignmentEpoch) <==> m in p && p[m].epoch != stamp.epoch)
            && (e.result.outcome == Err(StaleLifecycle) <==>
                m in p && p[m].epoch == stamp.epoch && p[m].lifecycle != stamp.lifecycle)
            && (e.result.outcome == Err(Internal) <==>
                m in p && p[m] == stamp && b(w.engine.calls, call).status.Rejected?)
            && e.shard.worker.engine.calls == w.engine.calls + (if m in p && p[m] == stamp then [call] else [])
  {
  }

  // ---------------------------------------------------------------- signals

  /** A signal under the current stamp of its member. */
  predicate IsCurrent(w: Worker, c: Command) {
    c.Signal? && Member(c.room, c.client) in w.projection && w.projection[Member(c.room, c.client)] == c.stamp
  }

  /** The request id an answer or an offer is handed on under. */
  predicate SdpId(c: Command, requestId: nat, id: nat) {
    c.Signal? &&
    match c.body
    case OfferBody => id == (if c.sdpRequestId.Some? then c.sdpRequestId.value else requestId)
    case AnswerBody(own) => own == Some(id) || (own.None? && c.sdpRequestId == Some(id))
    case _ => false
  }

  /**
   A signal is stale exactly when it is not current; otherwise an offer or answer makes the one SDP call, under its own
   request id first, a candidate or their end the one ICE call, a bye none, and anything else is refused. It is
   acknowledged exactly if it is a bye or the engine accepted the call.
   */
  lemma SignalAnswers(b: Behaviour, s: Shard, r: Request)
    requires IsNew(s, r) && r.command.Signal?
    ensures var c, w, e := r.command, s.worker, Execute(b, s, r);
            var m, calls, calls', o := Member(c.room, c.client), w.engine.calls, e.shard.worker.engine.calls, e.result.outcome;
            && e.result.requestId == r.requestId && e.shard.worker.projection == w.projection
            && (o == Err(StaleLifecycle) <==> !IsCurrent(w, c))
            && (!IsCurrent(w, c) ==> calls' == calls)
            && (IsCurrent(w, c) && c.body.ByeBody? ==> calls' == calls && o == Ok(Acknowledged))
            && (IsCurrent(w, c) && (c.body.UnknownBody? || c.body.MalformedBody?) ==>
                  calls' == calls && o == Err(InvalidSignal))
            && (IsCurrent(w, c) && (c.body.CandidateBody? || c.body.EndOfCandidatesBody?) ==>
                  && calls' == calls + [EngineIce(r.requestId, m)]
                  && o == (if b(calls, EngineIce(r.requestId, m)).status.Done? then Ok(Acknowledged) else Err(InvalidSignal)))
            && (IsCurrent(w, c) && c.body.AnswerBody? && c.body.requestId.None? && c.sdpRequestId.None? ==>
                  calls' == calls && o == Err(InvalidSignal))
            && forall id: nat | IsCurrent(w, c) && SdpId(c, r.requestId, id) ::
                 && calls' == calls + [EngineSdp(id, m)]
                 && o == (if b(calls, EngineSdp(id, m)).status.Done? then Ok(Acknowledged) else Err(InvalidSignal))
  {
  }

  // ---------------------------------------------------------------- synchronisation

  /** The engine accepted the call at this place. */
  ghost predicate AcceptedAt(b: Behaviour, calls: seq<EngineCall>, k: nat)
    requires k < |calls|
  {
    b(calls[..k], calls[k]).status.Done?
  }

  ghost predicate AllAccepted(b: Behaviour, calls: seq<EngineCall>, from: nat) {
    forall k: nat | from <= k < |calls| :: AcceptedAt(b, calls, k)
  }

  /** All calls were accepted but the last, after which the sync gave up. */
  ghost predicate LastRefused(b: Behaviour, calls: seq<EngineCall>, from: nat) {
    && from < |calls| && !AcceptedAt(b, calls, |calls| - 1)
    && AllAccepted(b, calls[..|calls| - 1], from)
  }

  /** How a part of a sync ends, by what the engine said. */
  ghost predicate Ends(b: Behaviour, before: seq<EngineCall>, r: Swept) {
    && before <= r.worker.engine.calls
    && (if r.status.Done? then AllAccepted(b, r.worker.engine.calls, |before|)
        else LastRefused(b, r.worker.engine.calls, |before|))
  }

  lemma OneCallEnds(b: Behaviour, calls: seq<EngineCall>, call: EngineCall)
    ensures b(calls, call).status.Done? ==> AllAccepted(b, calls + [call], |calls|)
    ensures b(calls, call).status.Rejected? ==> LastRefused(b, calls + [call], |calls|)
  {
    assert (calls + [call])[..|calls|] == calls;
  }

  lemma AcceptedIsStable(b: Behaviour, calls: seq<EngineCall>, more: seq<EngineCall>, k: nat)
    requires k < |calls| && calls <= more
    ensures AcceptedAt(b, calls, k) <==> AcceptedAt(b, more, k)
  {
    assert more[..k] == calls[..k];
  }

  /** First one part, with every call accepted, then the rest. */
  lemma EndsChain(b: Behaviour, before: seq<EngineCall>, middle: seq<EngineCall>, r: Swept)
    requires before <= middle && AllAccepted(b, middle, |before|) && Ends(b, middle, r)
    ensures Ends(b, before, r)
  {
    var calls := r.worker.engine.calls;
    forall k: nat | |before| <= k < |middle| ensures AcceptedAt(b, calls, k) {
      assert AcceptedAt(b, middle, k);
      AcceptedIsStable(b, middle, calls, k);
    }
    if r.status.Rejected? {
      var init := calls[..|calls| - 1];
      forall k: nat | |before| <= k < |init| ensures AcceptedAt(b, init, k) {
        AcceptedIsStable(b, init, calls, k);
        if k >= |middle| { assert AcceptedAt(b, init, k); }
      }
    }
  }

  lemma {:induction false} LeavesEnd(b: Behaviour, w: Worker, requestId: nat, room: Room, order: seq<nat>)
    ensures Ends(b, w.engine.calls, SyncLeaves(b, w, requestId, room, order))
    decreases |order|
  {
    if order != [] {
      var m := Member(room, order[0]);
      var call := EngineLeave(requestId, m);
      OneCallEnds(b, w.engine.calls, call);
      if StatusOf(b, w.engine, call).Done? {
        var w1 := Worker(Handle(b, w.engine, call), w.projection - {m});
        LeavesEnd(b, w1, requestId, room, order[1..]);
        EndsChain(b, w.engine.calls, w1.engine.calls, SyncLeaves(b, w, requestId, room, order));
      }
    }
  }

  lemma JoinOneEnds(b: Behaviour, w: Worker, requestId: nat, room: Room, ref: MemberRef, epoch: nat)
    ensures Ends(b, w.engine.calls, JoinOne(b, w, requestId, room, ref, epoch))
  {
    OneCallEnds(b, w.engine.calls, EngineJoin(requestId, Member(room, ref.client)));
  }

  lemma {:induction false} JoinsEnd(b: Behaviour, w: Worker, requestId: nat, room: Room, members: seq<MemberRef>, epoch: nat)
    ensures Ends(b, w.engine.calls, SyncJoins(b, w, requestId, room, members, epoch))
    decreases |members|
  {
    if members != [] {
      JoinOneEnds(b, w, requestId, room, members[0], epoch);
      var one := JoinOne(b, w, requestId, room, members[0], epoch);
      if one.status.Done? {
        JoinsEnd(b, one.worker, requestId, room, members[1..], epoch);
        EndsChain(b, w.engine.calls, one.worker.engine.calls, SyncJoins(b, w, requestId, room, members, epoch));
      }
    }
  }

  /** A sync answers that the room is synchronised exactly when the engine accepted every call it made for it. */
  lemma SyncEnds(b: Behaviour, w: Worker, requestId: nat, c: Command, order: seq<nat>)
    requires c.SyncRoom?
    ensures var a := ApplySync(b, w, requestId, c.room, c.members, c.epoch, order);
            var calls, calls' := w.engine.calls, a.worker.engine.calls;
            && calls <= calls'
            && (a.outcome == Ok(RoomSynced(c.room, c.epoch)) || a.outcome == Err(Internal))
            && (a.outcome.Ok? ==> AllAccepted(b, calls', |calls|))
            && (a.outcome.Err? ==> LastRefused(b, calls', |calls|))
  {
    LeavesEnd(b, w, requestId, c.room, order);
    var left := SyncLeaves(b, w, requestId, c.room, order);
    if left.status.Done? {
      JoinsEnd(b, left.worker, requestId, c.room, c.members, c.epoch);
      EndsChain(b, w.engine.calls, left.worker.engine.calls,
                SyncJoins(b, left.worker, requestId, c.room, c.members, c.epoch));
    }
  }

  /**
   A sync answers that the room is synchronised exactly when the engine accepted every call it made, and then the room
   is exactly what was asked for; otherwise it reports an internal error and the last call is the one that was refused.
   */
  lemma SyncAnswers(b: Behaviour, s: Shard, r: Request)
    requires IsNew(s, r) && r.command.SyncRoom? && Agree(s.worker) && OrderFits(s.worker, r.command, r.order)
    ensures var c, w, e := r.command, s.worker, Execute(b, s, r);
            var calls, calls' := w.engine.calls, e.shard.worker.engine.calls;
            && e.result.requestId == r.requestId && calls <= calls'
            && (e.result.outcome == Ok(RoomSynced(c.room, c.epoch)) || e.result.outcome == Err(Internal))
            && (e.result.outcome.Ok? <==> AllAccepted(b, calls', |calls|))
            && (e.result.outcome.Err? ==> LastRefused(b, calls', |calls|))
            && (e.result.outcome.Ok? ==> RoomIs(e.shard.worker.projection, c.room, Wanted(c.members), c.epoch))
  {
    var c, w := r.command, s.worker;
    SyncEnds(b, w, r.requestId, c, r.order);
    if ApplyCommand(b, w, r.requestId, c, r.order).outcome.Ok? { SyncIsExact(b, w, r.requestId, c, r.order); }
  }

  /** Drains are acknowledged, and commands without a content, a room or an id refused; none of them does anything. */
  lemma OtherAnswers(b: Behaviour, s: Shard, r: Request)
    requires r.requestId !in s.replay.cache && !IsNew(s, r)
    ensures var e := Execute(b, s, r);
            && e.shard.worker == s.worker && e.result.requestId == r.requestId
            && e.result.outcome == (if r.requestId != 0 && r.command.Drain? then Ok(Acknowledged) else Err(InvalidRequest))
  {
  }
}
