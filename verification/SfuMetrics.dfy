/**
 The counters all shards share. A shard adds and subtracts its own contribution with separate atomic operations, so
 between two of them any other shard may run; the totals are 64-bit and wrap.
 */
module SfuMetrics {
  import opened Options
  import opened Uuid
  import opened SfuCommands
  import opened SfuProjection
  import opened SfuShard

  const U64: nat := 0x1_0000_0000_0000_0000

  /** `dispatch_command`: which of `n` shards gets the command. */
  function Route(c: Command, n: nat): Result<nat, ErrorCode> {
    match CommandRoom(c)
    case None => Err(InvalidRequest)
    case Some(room) =>
      var index := AsU128(room) % (if n == 0 then 1 else n);
      if index < n then Ok(index) else Err(WorkerUnavailable)
  }

  /** Commands for one room, first deliveries and replays alike, reach one shard; drains and malformed rooms none. */
  lemma RoutingIsByRoom(c: Command, d: Command, n: nat)
    requires CommandRoom(c) == CommandRoom(d)
    ensures Route(c, n) == Route(d, n)
    ensures Route(c, n).Ok? <==> CommandRoom(c).Some? && n > 0
    ensures Route(c, n).Ok? ==> Route(c, n).value < n
    ensures c.Drain? ==> Route(c, n) == Err(InvalidRequest)
  {
  }

  /** Where a shard is between the atomic operations on the counters. */
  datatype Phase = Between | RoomsDue | ClientsDue | StoppingRooms | StoppingClients | Stopped

  /** A shard with the contribution it last made to each counter. */
  datatype Cell = Cell(shard: Shard, phase: Phase, rooms: nat, clients: nat)

  datatype System = System(cells: seq<Cell>, rooms: nat, clients: nat)

  function NewSystem(n: nat): System {
    System(seq(n, i => Cell(NewShard(), Between, 0, 0)), 0, 0)
  }

  function Projection(c: Cell): map<Member, Stamp> {
    c.shard.worker.projection
  }

  function RoomsOf(p: map<Member, Stamp>): set<Room> {
    set m | m in p :: m.room
  }

  /** `fetch_add` and `fetch_sub` of `replace_contribution`, with their wrap-around. */
  function Replace(total: nat, previous: nat, current: nat): nat {
    if current >= previous then (total + (current - previous)) % U64 else (total - (previous - current)) % U64
  }

  /** `Apply` is a command, new or replayed; only a new one is followed by the two updates. */
  datatype Step =
    | Apply(shard: nat, behaviour: Behaviour, request: Request)
    | UpdateRooms(shard: nat)
    | UpdateClients(shard: nat)
    | Stop(shard: nat)
    | SubtractRooms(shard: nat)
    | SubtractClients(shard: nat)

  /** The shard has come to this step; a command has been routed to it. */
  predicate Ready(c: Cell, e: Step, n: nat) {
    match e
    case Apply(_, _, r) => c.phase.Between? && Route(r.command, n) == Ok(e.shard)
    case UpdateRooms(_) => c.phase.RoomsDue?
    case UpdateClients(_) => c.phase.ClientsDue?
    case Stop(_) => c.phase.Between?
    case SubtractRooms(_) => c.phase.StoppingRooms?
    case SubtractClients(_) => c.phase.StoppingClients?
  }

  predicate Enabled(s: System, e: Step) {
    e.shard < |s.cells| && Ready(s.cells[e.shard], e, |s.cells|)
  }

  /** What the step makes of its own shard. */
  function Own(c: Cell, e: Step): Cell {
    match e
    case Apply(_, b, r) =>
      c.(shard := Execute(b, c.shard, r).shard,
         phase := if r.requestId in c.shard.replay.cache then c.phase else RoomsDue)
    case UpdateRooms(_) => c.(rooms := |RoomsOf(Projection(c))|, phase := ClientsDue)
    case UpdateClients(_) => c.(clients := |Projection(c)|, phase := Between)
    case Stop(_) => c.(phase := StoppingRooms)
    case SubtractRooms(_) => c.(phase := StoppingClients)
    case SubtractClients(_) => c.(phase := Stopped)
  }

  function Next(s: System, e: Step): System
    requires Enabled(s, e)
  {
    var c := s.cells[e.shard];
    var cells := s.cells[e.shard := Own(c, e)];
    match e
    case UpdateRooms(_) => System(cells, Replace(s.rooms, c.rooms, |RoomsOf(Projection(c))|), s.clients)
    case UpdateClients(_) => System(cells, s.rooms, Replace(s.clients, c.clients, |Projection(c)|))
    case SubtractRooms(_) => System(cells, (s.rooms - c.rooms) % U64, s.clients)
    case SubtractClients(_) => System(cells, s.rooms, (s.clients - c.clients) % U64)
    case _ => s.(cells := cells)
  }

  // ---------------------------------------------------------------- sums

  /** What a shard has in the room counter right now. */
  function RoomShare(c: Cell): nat {
    if c.phase.StoppingClients? || c.phase.Stopped? then 0 else c.rooms
  }

  function ClientShare(c: Cell): nat {
    if c.phase.Stopped? then 0 else c.clients
  }

  function Sum(cells: seq<Cell>, share: Cell -> nat): nat {
    if cells == [] then 0 else Sum(cells[..|cells| - 1], share) + share(cells[|cells| - 1])
  }

  lemma {:induction false} SumUpdate(cells: seq<Cell>, i: nat, c: Cell, share: Cell -> nat)
    requires i < |cells|
    ensures Sum(cells[i := c], share) == Sum(cells, share) - share(cells[i]) + share(c)
    ensures share(cells[i]) <= Sum(cells, share)
  {
    var n := |cells| - 1;
    if i < n {
      SumUpdate(cells[..n], i, c, share);
      assert cells[i := c][..n] == cells[..n][i := c];
    } else {
      assert cells[i := c][..n] == cells[..n];
    }
  }

  // ---------------------------------------------------------------- the invariant

  /** A shard whose counters are up to date, or on the way there. */
  ghost predicate CellInv(c: Cell) {
    && Agree(c.shard.worker) && ReplayInv(c.shard.replay)
    && (c.phase.RoomsDue? || c.rooms == |RoomsOf(Projection(c))|)
    && (c.phase.RoomsDue? || c.phase.ClientsDue? || c.clients == |Projection(c)|)
  }

  /** Every member a shard projects is in a room routed to that shard. */
  ghost predicate Routed(p: map<Member, Stamp>, i: nat, n: nat) {
    n > 0 && forall m | m in p :: AsU128(m.room) % n == i
  }

  ghost predicate Inv(s: System) {
    && (forall i | 0 <= i < |s.cells| :: CellInv(s.cells[i]) && Routed(Projection(s.cells[i]), i, |s.cells|))
    && s.rooms == Sum(s.cells, RoomShare) % U64
    && s.clients == Sum(s.cells, ClientShare) % U64
  }

  lemma ReplaceSums(total: nat, sum: nat, previous: nat, current: nat)
    requires total == sum % U64 && previous <= sum
    ensures Replace(total, previous, current) == (sum - previous + current) % U64
    ensures (total - previous) % U64 == (sum - previous) % U64
  {
  }

  lemma ExecuteKeepsRouting(b: Behaviour, s: Shard, r: Request, i: nat, n: nat)
    requires Agree(s.worker) && Routed(s.worker.projection, i, n) && Route(r.command, n) == Ok(i)
    ensures Routed(Execute(b, s, r).shard.worker.projection, i, n)
    ensures Agree(Execute(b, s, r).shard.worker)
  {
    CommandKeepsAgreement(b, s.worker, r.requestId, r.command, r.order);
    CommandKeepsOtherRooms(b, s.worker, r.requestId, r.command, r.order);
  }

  lemma OwnKeepsCell(c: Cell, e: Step, n: nat)
    requires CellInv(c) && Routed(Projection(c), e.shard, n)
    requires Ready(c, e, n)
    ensures CellInv(Own(c, e)) && Routed(Projection(Own(c, e)), e.shard, n)
  {
    if e.Apply? {
      ExecuteKeepsRouting(e.behaviour, c.shard, e.request, e.shard, n);
      ExecuteKeepsReplayInv(e.behaviour, c.shard, e.request);
    }
  }

  lemma NextKeepsCells(s: System, e: Step)
    requires Inv(s) && Enabled(s, e)
    ensures var cells := Next(s, e).cells;
            forall i | 0 <= i < |cells| :: CellInv(cells[i]) && Routed(Projection(cells[i]), i, |cells|)
  {
    OwnKeepsCell(s.cells[e.shard], e, |s.cells|);
  }

  /** What a step does to the shares its shard has in the two counters. */
  lemma SharesMove(c: Cell, e: Step, n: nat)
    requires Ready(c, e, n)
    ensures RoomShare(Own(c, e)) == (if e.UpdateRooms? then |RoomsOf(Projection(c))|
                                     else if e.SubtractRooms? then 0 else RoomShare(c))
    ensures ClientShare(Own(c, e)) == (if e.UpdateClients? then |Projection(c)|
                                       else if e.SubtractClients? then 0 else ClientShare(c))
    ensures e.UpdateRooms? || e.SubtractRooms? ==> RoomShare(c) == c.rooms
    ensures e.UpdateClients? || e.SubtractClients? ==> ClientShare(c) == c.clients
  {
  }

  lemma NextKeepsRooms(s: System, e: Step)
    requires Enabled(s, e) && s.rooms == Sum(s.cells, RoomShare) % U64
    ensures Next(s, e).rooms == Sum(Next(s, e).cells, RoomShare) % U64
  {
    var c := s.cells[e.shard];
    SharesMove(c, e, |s.cells|);
    SumUpdate(s.cells, e.shard, Own(c, e), RoomShare);
    ReplaceSums(s.rooms, Sum(s.cells, RoomShare), RoomShare(c), RoomShare(Own(c, e)));
  }

  lemma NextKeepsClients(s: System, e: Step)
    requires Enabled(s, e) && s.clients == Sum(s.cells, ClientShare) % U64
    ensures Next(s, e).clients == Sum(Next(s, e).cells, ClientShare) % U64
  {
    var c := s.cells[e.shard];
    SharesMove(c, e, |s.cells|);
    SumUpdate(s.cells, e.shard, Own(c, e), ClientShare);
    ReplaceSums(s.clients, Sum(s.cells, ClientShare), ClientShare(c), ClientShare(Own(c, e)));
  }

  /** Every atomic step of every shard keeps the totals equal to the sum of the contributions, modulo 2^64. */
  lemma NextKeepsInv(s: System, e: Step)
    requires Inv(s) && Enabled(s, e)
    ensures Inv(Next(s, e))
  {
    NextKeepsCells(s, e);
    NextKeepsRooms(s, e);
    NextKeepsClients(s, e);
  }

  // ---------------------------------------------------------------- whole runs

  predicate ValidRun(s: System, steps: seq<Step>)
    decreases |steps|
  {
    steps == [] || (Enabled(s, steps[0]) && ValidRun(Next(s, steps[0]), steps[1..]))
  }

  function After(s: System, steps: seq<Step>): System
    requires ValidRun(s, steps)
    decreases |steps|
  {
    if steps == [] then s else After(Next(s, steps[0]), steps[1..])
  }

  lemma {:induction false} ZeroSum(cells: seq<Cell>, share: Cell -> nat)
    requires forall i | 0 <= i < |cells| :: share(cells[i]) == 0
    ensures Sum(cells, share) == 0
  {
    if cells != [] { ZeroSum(cells[..|cells| - 1], share); }
  }

  lemma NewSystemInv(n: nat)
    ensures Inv(NewSystem(n))
  {
    ZeroSum(NewSystem(n).cells, RoomShare);
    ZeroSum(NewSystem(n).cells, ClientShare);
  }

  lemma {:induction false} RunKeepsInv(s: System, steps: seq<Step>)
    requires Inv(s) && ValidRun(s, steps)
    ensures Inv(After(s, steps))
    decreases |steps|
  {
    if steps != [] {
      NextKeepsInv(s, steps[0]);
      RunKeepsInv(Next(s, steps[0]), steps[1..]);
    }
  }

  // ---------------------------------------------------------------- what the counters mean

  predicate Quiet(c: Cell) {
    c.phase.Between? || c.phase.Stopped?
  }

  /** The members a shard projects while it runs. */
  function Live(c: Cell): set<Member> {
    if c.phase.Stopped? then {} else Projection(c).Keys
  }

  function LiveMembers(cells: seq<Cell>): set<Member> {
    set i, m | 0 <= i < |cells| && m in Live(cells[i]) :: m
  }

  function RoomsIn(members: set<Member>): set<Room> {
    set m | m in members :: m.room
  }

  /** The last shard shares no room, hence no member, with the shards before it. */
  lemma LastShardIsApart(cells: seq<Cell>, n: nat)
    requires cells != [] && forall i | 0 <= i < |cells| :: Routed(Projection(cells[i]), i, n)
    ensures var k := |cells| - 1;
            && LiveMembers(cells) == LiveMembers(cells[..k]) + Live(cells[k])
            && RoomsIn(LiveMembers(cells)) == RoomsIn(LiveMembers(cells[..k])) + RoomsIn(Live(cells[k]))
            && LiveMembers(cells[..k]) !! Live(cells[k])
            && RoomsIn(LiveMembers(cells[..k])) !! RoomsIn(Live(cells[k]))
  {
    var k := |cells| - 1;
    assert LiveMembers(cells) == LiveMembers(cells[..k]) + Live(cells[k]);
    forall m | m in LiveMembers(cells[..k])
      ensures AsU128(m.room) % n < k
    {
      var i :| 0 <= i < k && m in Projection(cells[i]);
      assert Routed(Projection(cells[i]), i, n);
    }
    assert Routed(Projection(cells[k]), k, n);
  }

  lemma QuietShares(c: Cell)
    requires Quiet(c) && CellInv(c)
    ensures ClientShare(c) == |Live(c)| && RoomShare(c) == |RoomsIn(Live(c))|
  {
    assert RoomsOf(Projection(c)) == RoomsIn(Projection(c).Keys);
    assert |Projection(c)| == |Projection(c).Keys|;
    assert RoomsIn({}) == {};
  }

  lemma EmptyIsEmpty()
    ensures LiveMembers([]) == {} && RoomsIn(LiveMembers([])) == {}
  {
  }

  /** Every shard is quiet, up to date, and has its own rooms. */
  ghost predicate Settled(cells: seq<Cell>, n: nat) {
    forall i | 0 <= i < |cells| :: Quiet(cells[i]) && CellInv(cells[i]) && Routed(Projection(cells[i]), i, n)
  }

  lemma SettledParts(cells: seq<Cell>, n: nat)
    requires Settled(cells, n) && cells != []
    ensures Settled(cells[..|cells| - 1], n) && Quiet(cells[|cells| - 1]) && CellInv(cells[|cells| - 1])
  {
  }

  lemma LastShardAdds(cells: seq<Cell>, n: nat)
    requires Settled(cells, n) && cells != []
    ensures var k := |cells| - 1;
            && |LiveMembers(cells)| == |LiveMembers(cells[..k])| + |Live(cells[k])|
            && |RoomsIn(LiveMembers(cells))| == |RoomsIn(LiveMembers(cells[..k]))| + |RoomsIn(Live(cells[k]))|
  {
    LastShardIsApart(cells, n);
  }

  lemma {:induction false} QuietSums(cells: seq<Cell>, n: nat)
    requires Settled(cells, n)
    ensures Sum(cells, ClientShare) == |LiveMembers(cells)|
    ensures Sum(cells, RoomShare) == |RoomsIn(LiveMembers(cells))|
  {
    if cells == [] {
      EmptyIsEmpty();
    } else {
      SettledParts(cells, n);
      QuietSums(cells[..|cells| - 1], n);
      LastShardAdds(cells, n);
      QuietShares(cells[|cells| - 1]);
    }
  }

  /** Every shard is between commands or has stopped. */
  ghost predicate AllQuiet(cells: seq<Cell>) {
    forall i | 0 <= i < |cells| :: Quiet(cells[i])
  }

  ghost predicate AllStopped(cells: seq<Cell>) {
    forall i | 0 <= i < |cells| :: cells[i].phase.Stopped?
  }

  lemma StoppedIsEmpty(cells: seq<Cell>)
    requires AllStopped(cells)
    ensures LiveMembers(cells) == {} && RoomsIn(LiveMembers(cells)) == {}
  {
  }

  lemma QuietCounters(s: System)
    requires Inv(s) && AllQuiet(s.cells)
    ensures s.clients == |LiveMembers(s.cells)| % U64 && s.rooms == |RoomsIn(LiveMembers(s.cells))| % U64
    ensures AllStopped(s.cells) ==> s.clients == 0 && s.rooms == 0
  {
    QuietSums(s.cells, |s.cells|);
    if AllStopped(s.cells) { StoppedIsEmpty(s.cells); }
  }

  /**
   In every interleaving of the shards' atomic operations: when each shard is between commands or has stopped, the
   counters are the number of members and of distinct rooms over the running shards, and zero once all have stopped.
   */
  lemma CountersAreConserved(n: nat, steps: seq<Step>)
    requires ValidRun(NewSystem(n), steps)
    requires AllQuiet(After(NewSystem(n), steps).cells)
    ensures var s := After(NewSystem(n), steps);
            && s.clients == |LiveMembers(s.cells)| % U64
            && s.rooms == |RoomsIn(LiveMembers(s.cells))| % U64
            && (AllStopped(s.cells) ==> s.clients == 0 && s.rooms == 0)
  {
    NewSystemInv(n);
    RunKeepsInv(NewSystem(n), steps);
    QuietCounters(After(NewSystem(n), steps));
  }

  /** Two shards never project a member of the same room. */
  lemma RoomsStayOnOneShard(n: nat, steps: seq<Step>, i: nat, j: nat, m: Member, k: Member)
    requires ValidRun(NewSystem(n), steps)
    requires var cells := After(NewSystem(n), steps).cells;
             i < |cells| && j < |cells| && m in Projection(cells[i]) && k in Projection(cells[j])
    ensures m.room == k.room ==> i == j
  {
    NewSystemInv(n);
    RunKeepsInv(NewSystem(n), steps);
    var cells := After(NewSystem(n), steps).cells;
    assert Routed(Projection(cells[i]), i, |cells|) && Routed(Projection(cells[j]), j, |cells|);
  }

  lemma ShareFits(cells: seq<Cell>, i: nat, share: Cell -> nat, total: nat)
    requires i < |cells| && total == Sum(cells, share) % U64 && Sum(cells, share) < U64
    ensures share(cells[i]) <= total
  {
    SumUpdate(cells, i, cells[i], share);
  }

  /** In every run, no subtraction wraps below zero while the contributions themselves fit in 64 bits. */
  lemma SubtractionsFit(n: nat, steps: seq<Step>, e: Step)
    requires ValidRun(NewSystem(n), steps) && Enabled(After(NewSystem(n), steps), e)
    ensures var s := After(NewSystem(n), steps);
            && (Sum(s.cells, RoomShare) < U64 && (e.UpdateRooms? || e.SubtractRooms?) ==>
                  s.cells[e.shard].rooms <= s.rooms)
            && (Sum(s.cells, ClientShare) < U64 && (e.UpdateClients? || e.SubtractClients?) ==>
                  s.cells[e.shard].clients <= s.clients)
  {
    NewSystemInv(n);
    RunKeepsInv(NewSystem(n), steps);
    SystemFits(After(NewSystem(n), steps), e);
  }

  lemma SystemFits(s: System, e: Step)
    requires s.rooms == Sum(s.cells, RoomShare) % U64 && s.clients == Sum(s.cells, ClientShare) % U64 && Enabled(s, e)
    ensures Sum(s.cells, RoomShare) < U64 && (e.UpdateRooms? || e.SubtractRooms?) ==> s.cells[e.shard].rooms <= s.rooms
    ensures Sum(s.cells, ClientShare) < U64 && (e.UpdateClients? || e.SubtractClients?) ==>
              s.cells[e.shard].clients <= s.clients
  {
    SharesMove(s.cells[e.shard], e, |s.cells|);
    if Sum(s.cells, RoomShare) < U64 { ShareFits(s.cells, e.shard, RoomShare, s.rooms); }
    if Sum(s.cells, ClientShare) < U64 { ShareFits(s.cells, e.shard, ClientShare, s.clients); }
  }

  /**
   A replay is invisible to the whole worker: in every run, a command under the id of one of the last 4096 commands its
   shard applied changes neither that shard nor any counter.
   */
  lemma ReplaysLeaveTheSystem(n: nat, steps: seq<Step>, i: nat, b: Behaviour, r: Request, j: nat)
    requires ValidRun(NewSystem(n), steps) && Enabled(After(NewSystem(n), steps), Apply(i, b, r))
    requires var applied := After(NewSystem(n), steps).cells[i].shard.replay.applied;
             |applied| - COMMAND_CACHE_CAPACITY <= j < |applied| && applied[j].requestId == r.requestId
    ensures Next(After(NewSystem(n), steps), Apply(i, b, r)) == After(NewSystem(n), steps)
  {
    NewSystemInv(n);
    RunKeepsInv(NewSystem(n), steps);
    var s := After(NewSystem(n), steps);
    assert CellInv(s.cells[i]);
    ReplayIsInvisible(b, s.cells[i].shard, r, j);
    ReplayedCell(s.cells[i], i, b, r, j);
  }

  lemma ReplayedCell(c: Cell, i: nat, b: Behaviour, r: Request, j: nat)
    requires ReplayInv(c.shard.replay)
    requires var applied := c.shard.replay.applied;
             |applied| - COMMAND_CACHE_CAPACITY <= j < |applied| && applied[j].requestId == r.requestId
    ensures Own(c, Apply(i, b, r)) == c
  {
    ReplayIsInvisible(b, c.shard, r, j);
    var replay := c.shard.replay;
    assert replay.order[j - (|replay.applied| - |replay.order|)] in replay.cache;
  }

  // ---------------------------------------------------------------- the counters in place

  /** The steps of `update_metrics`, and those at the end of the media loop, with no other shard in between. */
  function Updated(s: System, i: nat): System
    requires i < |s.cells| && s.cells[i].phase.RoomsDue?
  {
    Next(Next(s, UpdateRooms(i)), UpdateClients(i))
  }

  function Withdrawn(s: System, i: nat): System
    requires i < |s.cells| && s.cells[i].phase.StoppingRooms?
  {
    Next(Next(s, SubtractRooms(i)), SubtractClients(i))
  }

  class Metrics {
    var rooms: nat
    var clients: nat

    /** The counters are those of the system. */
    ghost predicate Shows(s: System)
      reads this
    {
      rooms == s.rooms && clients == s.clients
    }

    constructor (n: nat)
      ensures Shows(NewSystem(n))
    {
      rooms, clients := 0, 0;
    }

    /**
     One `replace_contribution`: a counter that held, modulo 2^64, a sum with the previous contribution in it holds the
     sum with the current one instead.
     */
    static method ReplaceContribution(total: nat, previous: nat, current: nat, ghost sum: nat) returns (result: nat)
      ensures total == sum % U64 && previous <= sum ==> result == (sum - previous + current) % U64
      ensures result == Replace(total, previous, current)
    {
      if current >= previous {
        result := (total + (current - previous)) % U64;
      } else {
        result := (total - (previous - current)) % U64;
      }
      if total == sum % U64 && previous <= sum { ReplaceSums(total, sum, previous, current); }
    }

    /** After a command: both counters follow the projection, and what they mean is kept. */
    method UpdateMetrics(projection: map<Member, Stamp>, previousRooms: nat, previousClients: nat,
                         ghost s: System, ghost i: nat)
      returns (currentRooms: nat, currentClients: nat)
      requires Shows(s) && i < |s.cells|
      requires s.cells[i] == Cell(s.cells[i].shard, RoomsDue, previousRooms, previousClients)
      requires Projection(s.cells[i]) == projection
      modifies this
      ensures Shows(Updated(s, i)) && Updated(s, i).cells[i] == Cell(s.cells[i].shard, Between, currentRooms, currentClients)
      ensures Inv(s) ==> Inv(Updated(s, i))
    {
      currentRooms, currentClients := |RoomsOf(projection)|, |projection|;
      rooms := ReplaceContribution(rooms, previousRooms, currentRooms, Sum(s.cells, RoomShare));
      clients := ReplaceContribution(clients, previousClients, currentClients, Sum(s.cells, ClientShare));
      UpdatesKeepInv(s, i);
    }

    /** At the end of the media loop: the shard takes its contributions out. */
    method Withdraw(metricRooms: nat, metricClients: nat, ghost s: System, ghost i: nat)
      requires Shows(s) && i < |s.cells|
      requires s.cells[i] == Cell(s.cells[i].shard, StoppingRooms, metricRooms, metricClients)
      modifies this
      ensures Shows(Withdrawn(s, i)) && Withdrawn(s, i).cells[i].phase.Stopped?
      ensures Inv(s) ==> Inv(Withdrawn(s, i))
    {
      rooms := (rooms - metricRooms) % U64;
      clients := (clients - metricClients) % U64;
      UpdatesKeepInv(s, i);
    }
  }

  lemma UpdatesKeepInv(s: System, i: nat)
    requires i < |s.cells|
    ensures Inv(s) && s.cells[i].phase.RoomsDue? ==> Inv(Updated(s, i))
    ensures Inv(s) && s.cells[i].phase.StoppingRooms? ==> Inv(Withdrawn(s, i))
  {
    if Inv(s) && s.cells[i].phase.RoomsDue? {
      NextKeepsInv(s, UpdateRooms(i));
      NextKeepsInv(Next(s, UpdateRooms(i)), UpdateClients(i));
    }
    if Inv(s) && s.cells[i].phase.StoppingRooms? {
      NextKeepsInv(s, SubtractRooms(i));
      NextKeepsInv(Next(s, SubtractRooms(i)), SubtractClients(i));
    }
  }
}
