/**
 The projection of a shard against its media engine: they name the same members after every sequence of commands,
 whatever fails; a room synchronisation does exactly what it was asked; and the engine only hears of members under
 their current lifecycle.
 */
module SfuProjection {
  import opened Options
  import opened Uuid
  import opened SfuCommands

  /** The engine and the projection name the same members. */
  predicate Agree(w: Worker) {
    w.engine.members == w.projection.Keys
  }

  /** Nothing outside the room changed. */
  ghost predicate OnlyRoom(room: Room, p: map<Member, Stamp>, p': map<Member, Stamp>) {
    forall m: Member | m.room != room :: (m in p <==> m in p') && (m in p ==> p'[m] == p[m])
  }

  // ---------------------------------------------------------------- the two loops of a sync

  lemma {:induction false} LeavesAgree(b: Behaviour, w: Worker, requestId: nat, room: Room, order: seq<nat>)
    requires Agree(w)
    ensures Agree(SyncLeaves(b, w, requestId, room, order).worker)
    ensures OnlyRoom(room, w.projection, SyncLeaves(b, w, requestId, room, order).worker.projection)
    decreases |order|
  {
    if order != [] {
      var m := Member(room, order[0]);
      var call := EngineLeave(requestId, m);
      if StatusOf(b, w.engine, call).Done? {
        var w1 := Worker(Handle(b, w.engine, call), w.projection - {m});
        LeavesAgree(b, w1, requestId, room, order[1..]);
      }
    }
  }

  /** When no leave fails, exactly the listed clients are gone, and the rest kept their stamps. */
  lemma {:induction false} LeavesSpec(b: Behaviour, w: Worker, requestId: nat, room: Room, order: seq<nat>)
    requires SyncLeaves(b, w, requestId, room, order).status.Done?
    ensures var p' := SyncLeaves(b, w, requestId, room, order).worker.projection;
            forall m: Member ::
              && (m in p' <==> m in w.projection && !(m.room == room && m.client in order))
              && (m in p' ==> p'[m] == w.projection[m])
    decreases |order|
  {
    if order != [] {
      var m := Member(room, order[0]);
      var w1 := Worker(Handle(b, w.engine, EngineLeave(requestId, m)), w.projection - {m});
      LeavesSpec(b, w1, requestId, room, order[1..]);
      assert order == [order[0]] + order[1..];
    }
  }

  /** When a leave fails, the members left are old ones with their old stamps. */
  lemma {:induction false} LeavesPartial(b: Behaviour, w: Worker, requestId: nat, room: Room, order: seq<nat>)
    ensures var p' := SyncLeaves(b, w, requestId, room, order).worker.projection;
            forall m | m in p' :: m in w.projection && p'[m] == w.projection[m]
    decreases |order|
  {
    if order != [] {
      var m := Member(room, order[0]);
      var call := EngineLeave(requestId, m);
      if StatusOf(b, w.engine, call).Done? {
        LeavesPartial(b, Worker(Handle(b, w.engine, call), w.projection - {m}), requestId, room, order[1..]);
      }
    }
  }

  lemma JoinOneAgrees(b: Behaviour, w: Worker, requestId: nat, room: Room, ref: MemberRef, epoch: nat)
    requires Agree(w)
    ensures Agree(JoinOne(b, w, requestId, room, ref, epoch).worker)
  {
  }

  lemma {:induction false} JoinsAgree(b: Behaviour, w: Worker, requestId: nat, room: Room, members: seq<MemberRef>, epoch: nat)
    requires Agree(w)
    ensures Agree(SyncJoins(b, w, requestId, room, members, epoch).worker)
    ensures OnlyRoom(room, w.projection, SyncJoins(b, w, requestId, room, members, epoch).worker.projection)
    decreases |members|
  {
    if members != [] {
      JoinOneAgrees(b, w, requestId, room, members[0], epoch);
      var one := JoinOne(b, w, requestId, room, members[0], epoch);
      if one.status.Done? {
        JoinsAgree(b, one.worker, requestId, room, members[1..], epoch);
      }
    }
  }

  /** The stamp the room should carry for a client. */
  predicate StampedAs(p: map<Member, Stamp>, m: Member, stamp: Stamp) {
    m in p && p[m] == stamp
  }

  /** When no join fails, every wanted client carries its last listed lifecycle, and the others are as before. */
  lemma {:induction false} JoinsSpec(b: Behaviour, w: Worker, requestId: nat, room: Room, members: seq<MemberRef>, epoch: nat)
    requires SyncJoins(b, w, requestId, room, members, epoch).status.Done?
    ensures var p' := SyncJoins(b, w, requestId, room, members, epoch).worker.projection;
            forall c: nat ::
              if c in Wanted(members) then StampedAs(p', Member(room, c), Stamp(Wanted(members)[c], epoch))
              else (Member(room, c) in p' <==> Member(room, c) in w.projection) &&
                   (Member(room, c) in p' ==> p'[Member(room, c)] == w.projection[Member(room, c)])
    decreases |members|
  {
    if members != [] {
      var one := JoinOne(b, w, requestId, room, members[0], epoch);
      JoinsSpec(b, one.worker, requestId, room, members[1..], epoch);
    }
  }

  /** Each stamp in the room after a failed join is an old one, or one the sync lists, at the new epoch. */
  ghost predicate OldOrListed(p: map<Member, Stamp>, p': map<Member, Stamp>, members: seq<MemberRef>, epoch: nat) {
    forall m | m in p' ::
      (m in p && p'[m] == p[m]) ||
      (exists k :: 0 <= k < |members| && m.client == members[k].client && p'[m] == Stamp(members[k].lifecycle, epoch))
  }

  lemma {:induction false} JoinsPartial(b: Behaviour, w: Worker, requestId: nat, room: Room, members: seq<MemberRef>, epoch: nat)
    ensures OldOrListed(w.projection, SyncJoins(b, w, requestId, room, members, epoch).worker.projection, members, epoch)
    decreases |members|
  {
    if members != [] {
      var one := JoinOne(b, w, requestId, room, members[0], epoch);
      if one.status.Done? {
        JoinsPartial(b, one.worker, requestId, room, members[1..], epoch);
        var p' := SyncJoins(b, w, requestId, room, members, epoch).worker.projection;
        forall m | m in p' && !(m in w.projection && p'[m] == w.projection[m])
          ensures exists k :: 0 <= k < |members| && m.client == members[k].client && p'[m] == Stamp(members[k].lifecycle, epoch)
        {
          if m in one.worker.projection && p'[m] == one.worker.projection[m] {
            assert m.client == members[0].client && p'[m] == Stamp(members[0].lifecycle, epoch);
          } else {
            var k :| 0 <= k < |members[1..]| && m.client == members[1..][k].client &&
                     p'[m] == Stamp(members[1..][k].lifecycle, epoch);
            assert members[k + 1] == members[1..][k];
          }
        }
      }
    }
  }

  /** A sync whose members are all there makes no engine call. */
  lemma {:induction false} JoinsQuiet(b: Behaviour, w: Worker, requestId: nat, room: Room, members: seq<MemberRef>, epoch: nat)
    requires forall k | 0 <= k < |members| :: Member(room, members[k].client) in w.projection
    ensures SyncJoins(b, w, requestId, room, members, epoch).status.Done?
    ensures SyncJoins(b, w, requestId, room, members, epoch).worker.engine == w.engine
    ensures OnlyRoom(room, w.projection, SyncJoins(b, w, requestId, room, members, epoch).worker.projection)
    decreases |members|
  {
    if members != [] {
      var w1 := JoinOne(b, w, requestId, room, members[0], epoch).worker;
      assert Member(room, members[0].client) in w.projection;
      forall k | 0 <= k < |members[1..]| ensures Member(room, members[1..][k].client) in w1.projection {
        assert members[1..][k] == members[k + 1];
      }
      JoinsQuiet(b, w1, requestId, room, members[1..], epoch);
    }
  }

  // ---------------------------------------------------------------- every command

  /** The engine and the projection agree after a command, also when it fails halfway. */
  lemma CommandKeepsAgreement(b: Behaviour, w: Worker, requestId: nat, c: Command, order: seq<nat>)
    requires Agree(w)
    ensures Agree(ApplyCommand(b, w, requestId, c, order).worker)
  {
    if c.SyncRoom? {
      LeavesAgree(b, w, requestId, c.room, order);
      JoinsAgree(b, SyncLeaves(b, w, requestId, c.room, order).worker, requestId, c.room, c.members, c.epoch);
    }
  }

  /** A command touches no room but its own; a command without a room touches nothing. */
  lemma CommandKeepsOtherRooms(b: Behaviour, w: Worker, requestId: nat, c: Command, order: seq<nat>)
    requires Agree(w)
    ensures var p' := ApplyCommand(b, w, requestId, c, order).worker.projection;
            && (CommandRoom(c).None? ==> p' == w.projection)
            && (CommandRoom(c).Some? ==> OnlyRoom(CommandRoom(c).value, w.projection, p'))
  {
    if c.SyncRoom? {
      LeavesAgree(b, w, requestId, c.room, order);
      JoinsAgree(b, SyncLeaves(b, w, requestId, c.room, order).worker, requestId, c.room, c.members, c.epoch);
    }
  }

  /**
   A join or leave that succeeds leaves the member under its stamp, or gone; one that fails, and any signal, changes no
   stamp.
   */
  lemma MembershipFollowsTheOutcome(b: Behaviour, w: Worker, requestId: nat, c: Command, order: seq<nat>)
    requires c.Join? || c.Leave? || c.Signal?
    ensures var r := ApplyCommand(b, w, requestId, c, order);
            var m := Member(c.room, c.client);
            r.worker.projection ==
            (if r.outcome.Err? || c.Signal? then w.projection
             else if c.Join? then w.projection[m := c.stamp]
             else w.projection - {m})
    ensures requestId == 0 || CommandRoom(c).None? ==> ApplyCommand(b, w, requestId, c, order) == Applied(w, Err(InvalidRequest))
  {
    var m := Member(c.room, c.client);
    if m in w.projection { assert w.projection[m := w.projection[m]] == w.projection; }
    if m !in w.projection { assert w.projection - {m} == w.projection; }
  }

  /** Repeating a join or leave that succeeded succeeds again, without an engine call. */
  lemma RepeatedMembershipIsQuiet(b: Behaviour, w: Worker, requestId: nat, c: Command, order: seq<nat>,
                                  requestId': nat, order': seq<nat>)
    requires c.Join? || c.Leave?
    requires ApplyCommand(b, w, requestId, c, order).outcome.Ok? && requestId' != 0
    ensures var first := ApplyCommand(b, w, requestId, c, order);
            ApplyCommand(b, first.worker, requestId', c, order') == first
  {
    MembershipFollowsTheOutcome(b, w, requestId, c, order);
  }

  datatype Request = Request(requestId: nat, command: Command, order: seq<nat>)

  function ApplyAll(b: Behaviour, w: Worker, rs: seq<Request>): Worker
    decreases |rs|
  {
    if rs == [] then w
    else ApplyAll(b, ApplyCommand(b, w, rs[0].requestId, rs[0].command, rs[0].order).worker, rs[1..])
  }

  /** After every finite sequence of commands, whatever the engine refuses, engine and projection agree. */
  lemma {:induction false} CommandsKeepAgreement(b: Behaviour, w: Worker, rs: seq<Request>)
    requires Agree(w)
    ensures Agree(ApplyAll(b, w, rs))
    decreases |rs|
  {
    if rs != [] {
      CommandKeepsAgreement(b, w, rs[0].requestId, rs[0].command, rs[0].order);
      CommandsKeepAgreement(b, ApplyCommand(b, w, rs[0].requestId, rs[0].command, rs[0].order).worker, rs[1..]);
    }
  }

  // ---------------------------------------------------------------- room synchronisation

  /** The room carries exactly the wanted members, each with its last listed lifecycle, at the epoch of the sync. */
  ghost predicate RoomIs(p: map<Member, Stamp>, room: Room, wanted: map<nat, nat>, epoch: nat) {
    forall c: nat ::
      && (Member(room, c) in p <==> c in wanted)
      && (c in wanted ==> p[Member(room, c)] == Stamp(wanted[c], epoch))
  }

  lemma {:induction false} WantedLists(members: seq<MemberRef>, c: nat)
    ensures c in Wanted(members) <==> exists k :: 0 <= k < |members| && members[k].client == c
    decreases |members|
  {
    if members != [] {
      WantedLists(members[1..], c);
      if c in Wanted(members[1..]) {
        var k :| 0 <= k < |members[1..]| && members[1..][k].client == c;
        assert members[k + 1].client == c;
      }
      if exists k :: 0 <= k < |members| && members[k].client == c {
        var k :| 0 <= k < |members| && members[k].client == c;
        if k > 0 { assert members[1..][k - 1].client == c; }
      }
    }
  }

  /** The lifecycle wanted for a client is that of its last entry. */
  lemma {:induction false} WantedIsLast(members: seq<MemberRef>, k: nat)
    requires k < |members| && forall j | k < j < |members| :: members[j].client != members[k].client
    ensures members[k].client in Wanted(members) && Wanted(members)[members[k].client] == members[k].lifecycle
    decreases |members|
  {
    if k > 0 {
      WantedIsLast(members[1..], k - 1);
    } else {
      WantedLists(members[1..], members[0].client);
    }
  }

  lemma StaleMember(p: map<Member, Stamp>, room: Room, wanted: set<nat>, c: nat)
    ensures c in StaleClients(p, room, wanted) <==> Member(room, c) in p && c !in wanted
  {
    if c in StaleClients(p, room, wanted) {
      var m :| m in p && m.room == room && m.client !in wanted && m.client == c;
      assert m == Member(room, c);
    }
  }

  lemma EnumerationIsEmpty(order: seq<nat>, s: set<nat>)
    requires Enumerates(order, s)
    ensures order != [] ==> exists c :: c in s
  {
    if order != [] { assert order[0] in s; }
  }

  lemma StaleGone(w: Worker, c: Command, order: seq<nat>, p1: map<Member, Stamp>)
    requires c.SyncRoom? && OrderFits(w, c, order)
    requires forall m: Member :: m in p1 <==> m in w.projection && !(m.room == c.room && m.client in order)
    ensures forall k: nat | Member(c.room, k) in p1 :: k in Wanted(c.members)
  {
    forall k: nat | Member(c.room, k) in p1 ensures k in Wanted(c.members) {
      StaleMember(w.projection, c.room, Wanted(c.members).Keys, k);
    }
  }

  /** A successful sync makes the room exactly what was asked for. */
  lemma SyncIsExact(b: Behaviour, w: Worker, requestId: nat, c: Command, order: seq<nat>)
    requires Agree(w) && c.SyncRoom? && OrderFits(w, c, order)
    requires ApplyCommand(b, w, requestId, c, order).outcome.Ok?
    ensures var w' := ApplyCommand(b, w, requestId, c, order).worker;
            && RoomIs(w'.projection, c.room, Wanted(c.members), c.epoch)
            && OnlyRoom(c.room, w.projection, w'.projection)
            && Agree(w')
  {
    CommandKeepsAgreement(b, w, requestId, c, order);
    CommandKeepsOtherRooms(b, w, requestId, c, order);
    LeavesSpec(b, w, requestId, c.room, order);
    var w1 := SyncLeaves(b, w, requestId, c.room, order).worker;
    StaleGone(w, c, order, w1.projection);
    JoinsSpec(b, w1, requestId, c.room, c.members, c.epoch);
  }

  /**
   A failed sync stays within its room, loses no member it was asked to keep, and leaves only stamps that were there
   or that it lists; the engine agrees with what is left.
   */
  lemma FailedSyncIsContained(b: Behaviour, w: Worker, requestId: nat, c: Command, order: seq<nat>)
    requires Agree(w) && c.SyncRoom? && OrderFits(w, c, order)
    requires ApplyCommand(b, w, requestId, c, order).outcome.Err?
    ensures var w' := ApplyCommand(b, w, requestId, c, order).worker;
            && OnlyRoom(c.room, w.projection, w'.projection)
            && OldOrListed(w.projection, w'.projection, c.members, c.epoch)
            && Agree(w')
            && (forall k | k in Wanted(c.members) && Member(c.room, k) in w.projection :: Member(c.room, k) in w'.projection)
  {
    CommandKeepsAgreement(b, w, requestId, c, order);
    CommandKeepsOtherRooms(b, w, requestId, c, order);
    LeavesPartial(b, w, requestId, c.room, order);
    LeavesKeepOthers(b, w, requestId, c.room, order);
    var w1 := SyncLeaves(b, w, requestId, c.room, order).worker;
    JoinsPartial(b, w1, requestId, c.room, c.members, c.epoch);
    JoinsOnlyAdd(b, w1, requestId, c.room, c.members, c.epoch);
  }

  lemma {:induction false} LeavesKeepOthers(b: Behaviour, w: Worker, requestId: nat, room: Room, order: seq<nat>)
    ensures forall m | m in w.projection && m.client !in order :: m in SyncLeaves(b, w, requestId, room, order).worker.projection
    decreases |order|
  {
    if order != [] {
      var m := Member(room, order[0]);
      var call := EngineLeave(requestId, m);
      if StatusOf(b, w.engine, call).Done? {
        LeavesKeepOthers(b, Worker(Handle(b, w.engine, call), w.projection - {m}), requestId, room, order[1..]);
      }
    }
  }

  lemma {:induction false} JoinsOnlyAdd(b: Behaviour, w: Worker, requestId: nat, room: Room, members: seq<MemberRef>, epoch: nat)
    ensures w.projection.Keys <= SyncJoins(b, w, requestId, room, members, epoch).worker.projection.Keys
    decreases |members|
  {
    if members != [] {
      var one := JoinOne(b, w, requestId, room, members[0], epoch);
      if one.status.Done? { JoinsOnlyAdd(b, one.worker, requestId, room, members[1..], epoch); }
    }
  }

  /** Repeating a successful sync, under any request id, succeeds without an engine call and changes nothing. */
  lemma RepeatedSyncIsQuiet(b: Behaviour, w: Worker, requestId: nat, c: Command, order: seq<nat>,
                            requestId': nat, order': seq<nat>)
    requires Agree(w) && c.SyncRoom? && OrderFits(w, c, order)
    requires ApplyCommand(b, w, requestId, c, order).outcome.Ok? && requestId' != 0
    requires OrderFits(ApplyCommand(b, w, requestId, c, order).worker, c, order')
    ensures var first := ApplyCommand(b, w, requestId, c, order);
            ApplyCommand(b, first.worker, requestId', c, order') == first
  {
    SyncIsExact(b, w, requestId, c, order);
    var w' := ApplyCommand(b, w, requestId, c, order).worker;
    var wanted := Wanted(c.members);
    forall k: nat ensures k !in StaleClients(w'.projection, c.room, wanted.Keys) {
      StaleMember(w'.projection, c.room, wanted.Keys, k);
    }
    EnumerationIsEmpty(order', StaleClients(w'.projection, c.room, wanted.Keys));
    forall k | 0 <= k < |c.members| ensures Member(c.room, c.members[k].client) in w'.projection {
      WantedLists(c.members, c.members[k].client);
    }
    JoinsQuiet(b, w', requestId', c.room, c.members, c.epoch);
    JoinsSpec(b, w', requestId', c.room, c.members, c.epoch);
    var w2 := SyncJoins(b, w', requestId', c.room, c.members, c.epoch).worker;
    SameProjection(w'.projection, w2.projection, c.room, wanted, c.epoch);
  }

  lemma SameProjection(p: map<Member, Stamp>, q: map<Member, Stamp>, room: Room, wanted: map<nat, nat>, epoch: nat)
    requires OnlyRoom(room, p, q) && RoomIs(p, room, wanted, epoch)
    requires forall c: nat ::
               if c in wanted then StampedAs(q, Member(room, c), Stamp(wanted[c], epoch))
               else Member(room, c) in q <==> Member(room, c) in p
    ensures p == q
  {
    forall m: Member ensures (m in p <==> m in q) && (m in p ==> p[m] == q[m]) {
      if m.room == room { assert m == Member(room, m.client); }
    }
  }

  // ---------------------------------------------------------------- what the engine hears

  /** An engine call made for a command is about a member the projection allows it to be about. */
  ghost predicate CallFenced(p: map<Member, Stamp>, requestId: nat, c: Command, call: EngineCall) {
    match call
    case EngineSdp(_, m) =>
      c.Signal? && m == Member(c.room, c.client) && m in p && p[m] == c.stamp
    case EngineIce(id, m) =>
      c.Signal? && m == Member(c.room, c.client) && m in p && p[m] == c.stamp && id == requestId
    case EngineJoin(id, m) =>
      && id == requestId && m !in p
      && ((c.Join? && m == Member(c.room, c.client)) || (c.SyncRoom? && m.room == c.room && m.client in Wanted(c.members)))
    case EngineLeave(id, m) =>
      && id == requestId && m in p
      && ((c.Leave? && m == Member(c.room, c.client) && p[m] == c.stamp) ||
          (c.SyncRoom? && m.room == c.room && m.client !in Wanted(c.members)))
    case _ => false
  }

  ghost predicate NewCallsFenced(p: map<Member, Stamp>, requestId: nat, c: Command, calls: seq<EngineCall>, calls': seq<EngineCall>) {
    && calls <= calls'
    && (forall k | |calls| <= k < |calls'| :: CallFenced(p, requestId, c, calls'[k]))
  }

  lemma {:induction false} LeavesFenced(b: Behaviour, w: Worker, requestId: nat, c: Command, order: seq<nat>, p: map<Member, Stamp>)
    requires c.SyncRoom?
    requires forall k | 0 <= k < |order| :: Member(c.room, order[k]) in p && order[k] !in Wanted(c.members)
    ensures NewCallsFenced(p, requestId, c, w.engine.calls, SyncLeaves(b, w, requestId, c.room, order).worker.engine.calls)
    decreases |order|
  {
    if order != [] {
      var m := Member(c.room, order[0]);
      var call := EngineLeave(requestId, m);
      assert CallFenced(p, requestId, c, call);
      if StatusOf(b, w.engine, call).Done? {
        LeavesFenced(b, Worker(Handle(b, w.engine, call), w.projection - {m}), requestId, c, order[1..], p);
      }
    }
  }

  lemma {:induction false} JoinsFenced(b: Behaviour, w: Worker, requestId: nat, c: Command, members: seq<MemberRef>, p: map<Member, Stamp>)
    requires c.SyncRoom?
    requires forall k | 0 <= k < |members| :: members[k].client in Wanted(c.members)
    requires forall k: nat | k in Wanted(c.members) && Member(c.room, k) in p :: Member(c.room, k) in w.projection
    ensures NewCallsFenced(p, requestId, c, w.engine.calls,
                           SyncJoins(b, w, requestId, c.room, members, c.epoch).worker.engine.calls)
    decreases |members|
  {
    if members != [] {
      var one := JoinOne(b, w, requestId, c.room, members[0], c.epoch);
      if one.status.Done? { JoinsFenced(b, one.worker, requestId, c, members[1..], p); }
    }
  }

  /**
   Every call the engine hears for a command is fenced: SDP and ICE only for a member projected under the command's own
   lifecycle and epoch, joins only for absent members, leaves only for present ones.
   */
  lemma CallsAreFenced(b: Behaviour, w: Worker, requestId: nat, c: Command, order: seq<nat>)
    requires OrderFits(w, c, order)
    ensures NewCallsFenced(w.projection, requestId, c, w.engine.calls,
                           ApplyCommand(b, w, requestId, c, order).worker.engine.calls)
  {
    if c.SyncRoom? {
      var wanted := Wanted(c.members).Keys;
      forall k | 0 <= k < |order| ensures Member(c.room, order[k]) in w.projection && order[k] !in wanted {
        StaleMember(w.projection, c.room, wanted, order[k]);
      }
      LeavesFenced(b, w, requestId, c, order, w.projection);
      LeavesKeepOthers(b, w, requestId, c.room, order);
      forall k | 0 <= k < |c.members| ensures c.members[k].client in Wanted(c.members) {
        WantedLists(c.members, c.members[k].client);
      }
      JoinsFenced(b, SyncLeaves(b, w, requestId, c.room, order).worker, requestId, c, c.members, w.projection);
    }
  }
}
