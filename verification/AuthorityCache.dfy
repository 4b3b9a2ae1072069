/**
 Idempotent authority requests: concurrent callers share a bounded cache of results and a table of requests in flight.
 Each region that holds the lock is one step; so is each look at a watch channel.
 */
module AuthorityCache {
  import opened Options

  const REQUEST_CACHE_CAPACITY: nat := 4096

  // ---------------------------------------------------------------- operations and fingerprints

  datatype Operation =
    | Admit(roomid: string, clientid: string, isLoopback: bool, now: nat)
    | Remove(roomid: string, clientid: string)
    | Occupancy(roomid: string)
    | Inject(roomid: string, clientid: string, msg: string, now: nat)
    | AdmitV2(room: string, client: nat, admissionToken: string, now: nat)
    | RemoveV2(room: string, client: nat, admissionToken: string)
    | OccupancyV2(room: string)
    | Status

  /** One value fed to the hasher. */
  datatype Hashed = Text(text: string) | Number(number: nat) | Truth(truth: bool)

  /** Everything `operation_fingerprint` feeds to its hasher, in order. */
  function Fingerprint(operation: Operation): seq<Hashed> {
    match operation
    case Admit(roomid, clientid, isLoopback, _) => [Text("admit"), Text(roomid), Text(clientid), Truth(isLoopback)]
    case Remove(roomid, clientid) => [Text("remove"), Text(roomid), Text(clientid)]
    case Occupancy(roomid) => [Text("occupancy"), Text(roomid)]
    case Inject(roomid, clientid, msg, _) => [Text("inject"), Text(roomid), Text(clientid), Text(msg)]
    case AdmitV2(room, client, _, _) => [Text("admit_v2"), Text(room), Number(client)]
    case RemoveV2(room, client, admissionToken) =>
      [Text("remove_v2"), Text(room), Number(client), Text(admissionToken)]
    case OccupancyV2(room) => [Text("occupancy_v2"), Text(room)]
    case Status => [Text("status")]
  }

  /** What a repeated request may change: the clock, and the token minted for a V2 admission. */
  function Repeatable(operation: Operation): Operation {
    match operation
    case Admit(roomid, clientid, isLoopback, _) => Admit(roomid, clientid, isLoopback, 0)
    case Inject(roomid, clientid, msg, _) => Inject(roomid, clientid, msg, 0)
    case AdmitV2(room, client, _, _) => AdmitV2(room, client, "", 0)
    case _ => operation
  }

  /** Two operations have one fingerprint exactly when they differ in nothing else. */
  lemma FingerprintsIdentifyRequests(a: Operation, b: Operation)
    ensures Fingerprint(a) == Fingerprint(b) <==> Repeatable(a) == Repeatable(b)
  {
    var f, g := Fingerprint(a), Fingerprint(b);
    if f == g {
      assert f[0].text == g[0].text;
      assert forall i | 0 <= i < |f| :: f[i] == g[i];
    }
  }

  // ---------------------------------------------------------------- the cache

  datatype Key = Key(instanceId: string, requestId: nat)
  type Imprint = seq<Hashed>
  datatype Answer = AdmittedWith(token: string) | Other(body: string)
  /** `owner` is history: the caller whose request the authority answered. */
  datatype Cached = Cached(imprint: Imprint, answer: Answer, owner: nat)
  datatype Cache = Cache(entries: map<Key, Cached>, order: seq<Key>)

  /** `order` lists exactly the cached keys, each once, and there are at most 4096. */
  ghost predicate CacheInv(c: Cache) {
    Listed(c) && |c.order| <= REQUEST_CACHE_CAPACITY
  }

  ghost predicate Listed(c: Cache) {
    && (forall k | k in c.order :: k in c.entries)
    && (forall k | k in c.entries :: k in c.order)
    && forall i, j | 0 <= i < j < |c.order| :: c.order[i] != c.order[j]
  }

  /** The eviction loop: it ends because the queue runs out before the entries do. */
  function Trim(c: Cache): Cache
    decreases |c.order|
  {
    if |c.entries| > REQUEST_CACHE_CAPACITY && c.order != []
    then Trim(Cache(c.entries - {c.order[0]}, c.order[1..]))
    else c
  }

  function Pushed(c: Cache, key: Key, value: Cached): Cache {
    Cache(c.entries[key := value], if key in c.entries then c.order else c.order + [key])
  }

  function Insert(c: Cache, key: Key, value: Cached): Cache {
    Trim(Pushed(c, key, value))
  }

  lemma {:induction false} ListedCount(order: seq<Key>, keys: set<Key>)
    requires forall k :: k in order <==> k in keys
    requires forall i, j | 0 <= i < j < |order| :: order[i] != order[j]
    ensures |order| == |keys|
    decreases |order|
  {
    if order != [] {
      var rest := order[1..];
      assert order == [order[0]] + rest;
      forall k
        ensures k in rest <==> k in keys - {order[0]}
      {
        if k in rest { var i :| 0 <= i < |rest| && rest[i] == k; assert order[i + 1] == k; }
      }
      ListedCount(rest, keys - {order[0]});
      assert order[0] in keys;
    } else {
      assert keys == {};
    }
  }

  lemma ListedSize(c: Cache)
    requires Listed(c)
    ensures |c.order| == |c.entries|
  {
    ListedCount(c.order, c.entries.Keys);
    assert |c.entries| == |c.entries.Keys|;
  }

  lemma PopKeepsListed(c: Cache)
    requires Listed(c) && c.order != []
    ensures Listed(Cache(c.entries - {c.order[0]}, c.order[1..]))
  {
    assert c.order == [c.order[0]] + c.order[1..];
  }

  /** What an insertion evicts: nothing, or the oldest key when the cache was full. */
  function Evicted(c: Cache): set<Key> {
    if |c.order| == REQUEST_CACHE_CAPACITY then {c.order[0]} else {}
  }

  lemma PushKeepsListed(c: Cache, key: Key, value: Cached)
    requires Listed(c) && key !in c.entries
    ensures Listed(Pushed(c, key, value)) && |Pushed(c, key, value).entries| == |c.order| + 1
  {
    ListedSize(Pushed(c, key, value));
  }

  lemma TrimPopsOne(c: Cache)
    requires Listed(c) && |c.entries| == REQUEST_CACHE_CAPACITY + 1 && c.order != []
    ensures Trim(c) == Cache(c.entries - {c.order[0]}, c.order[1..])
    ensures CacheInv(Trim(c))
  {
    PopKeepsListed(c);
    var q := Cache(c.entries - {c.order[0]}, c.order[1..]);
    ListedSize(c);
    ListedSize(q);
    assert Trim(c) == Trim(q) == q;
  }

  lemma PushThenPop(c: Cache, key: Key, value: Cached)
    requires c.order != [] && key !in c.entries && c.order[0] in c.entries
    ensures var p := Pushed(c, key, value);
            Cache(p.entries - {p.order[0]}, p.order[1..]) ==
            Cache((c.entries - {c.order[0]})[key := value], c.order[1..] + [key])
  {
  }

  lemma InsertIntoFull(c: Cache, key: Key, value: Cached)
    requires CacheInv(c) && key !in c.entries && |c.order| == REQUEST_CACHE_CAPACITY
    ensures CacheInv(Insert(c, key, value))
    ensures Insert(c, key, value) == Cache((c.entries - {c.order[0]})[key := value], c.order[1..] + [key])
  {
    PushKeepsListed(c, key, value);
    TrimPopsOne(Pushed(c, key, value));
    PushThenPop(c, key, value);
  }

  lemma InsertWithRoom(c: Cache, key: Key, value: Cached)
    requires CacheInv(c) && key !in c.entries && |c.order| < REQUEST_CACHE_CAPACITY
    ensures CacheInv(Insert(c, key, value))
    ensures Insert(c, key, value) == Cache(c.entries[key := value], c.order + [key])
  {
    PushKeepsListed(c, key, value);
  }

  /** Inserting a new key keeps the cache in order, and drops exactly the oldest key of a full cache. */
  lemma InsertEvictsTheOldest(c: Cache, key: Key, value: Cached)
    requires CacheInv(c) && key !in c.entries
    ensures CacheInv(Insert(c, key, value))
    ensures Insert(c, key, value).order == c.order[if Evicted(c) == {} then 0 else 1..] + [key]
    ensures Insert(c, key, value).entries == (c.entries - Evicted(c))[key := value]
  {
    if |c.order| == REQUEST_CACHE_CAPACITY {
      InsertIntoFull(c, key, value);
    } else {
      InsertWithRoom(c, key, value);
      assert c.entries - {} == c.entries;
    }
  }

  // ---------------------------------------------------------------- callers

  datatype Failure = AlreadyExists | Unavailable | DeadlineExceeded | Internal

  /** `Watching` has subscribed but not looked yet; `Sleeping` found the channel unset and waits for a change. */
  datatype State = Looking | Watching(channel: nat) | Sleeping(channel: nat) | Owning | Done(r: Result<Answer, Failure>)

  /** A caller with its own operation: for a V2 admission, with a token of its own making. */
  datatype Caller = Caller(key: Key, operation: Operation, imprint: Imprint, state: State)

  /** A channel is named by the caller that opened it. */
  datatype InFlight = InFlight(imprint: Imprint, channel: nat)

  datatype Entry = Answered(key: Key, value: Cached, caller: nat) | Dropped(key: Key)

  /** History: keys claimed (each claim dispatches once), attempts failed, keys evicted, and answers in order. */
  datatype Books = Books(claimed: multiset<Key>, failed: multiset<Key>, evicted: multiset<Key>, log: seq<Entry>)

  datatype Service = Service(
    cache: Cache, inFlight: map<Key, InFlight>, callers: seq<Caller>, signalled: set<nat>, books: Books)

  function NewService(): Service {
    Service(Cache(map[], []), map[], [], {}, Books(multiset{}, multiset{}, multiset{}, []))
  }

  datatype Step =
    | Arrive(key: Key, operation: Operation)
    | Lookup(caller: nat)
    | Borrow(caller: nat)
    | Wake(caller: nat)
    | Complete(caller: nat, outcome: Result<Answer, Failure>)

  /** An admission that the authority grants carries the token it was asked to admit. */
  predicate Echoes(operation: Operation, outcome: Result<Answer, Failure>) {
    outcome.Ok? && outcome.value.AdmittedWith? ==>
      operation.AdmitV2? && outcome.value.token == operation.admissionToken
  }

  predicate Enabled(s: Service, e: Step) {
    if e.Arrive? then true
    else
      && e.caller < |s.callers|
      && var state := s.callers[e.caller].state;
         match e
         case Lookup(_) => state.Looking?
         case Borrow(_) => state.Watching?
         case Wake(_) => state.Sleeping? && state.channel in s.signalled
         case Complete(i, outcome) => state.Owning? && Echoes(s.callers[i].operation, outcome)
         case _ => false
  }

  function Moved(s: Service, i: nat, state: State): Service
    requires i < |s.callers|
  {
    s.(callers := s.callers[i := s.callers[i].(state := state)])
  }

  /** The first lock-held region: replay, reject, wait, or claim. */
  function LookupBy(s: Service, i: nat): Service
    requires i < |s.callers|
  {
    var c := s.callers[i];
    if c.key in s.cache.entries then
      var cached := s.cache.entries[c.key];
      if cached.imprint != c.imprint then Moved(s, i, Done(Err(AlreadyExists)))
      else Moved(s, i, Done(Ok(cached.answer))).(books := s.books.(log := s.books.log + [Answered(c.key, cached, i)]))
    else if c.key in s.inFlight then
      if s.inFlight[c.key].imprint != c.imprint then Moved(s, i, Done(Err(AlreadyExists)))
      else Moved(s, i, Watching(s.inFlight[c.key].channel))
    else
      Moved(s, i, Owning).(inFlight := s.inFlight[c.key := InFlight(c.imprint, i)],
                           books := s.books.(claimed := s.books.claimed + multiset{c.key}))
  }

  /** The second lock-held region: leave the table, remember a success, and wake the waiters. */
  function CompleteBy(s: Service, i: nat, outcome: Result<Answer, Failure>): Service
    requires i < |s.callers|
  {
    var c := s.callers[i];
    var s1 := Moved(s, i, Done(outcome)).(inFlight := s.inFlight - {c.key}, signalled := s.signalled + {i});
    if outcome.Err? then s1.(books := s.books.(failed := s.books.failed + multiset{c.key}))
    else
      var value := Cached(c.imprint, outcome.value, i);
      var dropped := if Evicted(s.cache) == {} then [] else [Dropped(s.cache.order[0])];
      s1.(cache := Insert(s.cache, c.key, value),
          books := s.books.(evicted := s.books.evicted + multiset(Evicted(s.cache)),
                            log := s.books.log + dropped + [Answered(c.key, value, i)]))
  }

  function Next(s: Service, e: Step): Service
    requires Enabled(s, e)
  {
    match e
    case Arrive(key, operation) => s.(callers := s.callers + [Caller(key, operation, Fingerprint(operation), Looking)])
    case Lookup(i) => LookupBy(s, i)
    case Borrow(i) =>
      var channel := s.callers[i].state.channel;
      Moved(s, i, if channel in s.signalled then Looking else Sleeping(channel))
    case Wake(i) => Moved(s, i, Looking)
    case Complete(i, outcome) => CompleteBy(s, i, outcome)
  }
}
