/** What every interleaving of authority callers keeps: the books, the waiters and the answers. */
module AuthorityTheorems {
  import opened Options
  import opened AuthorityCache

  // ---------------------------------------------------------------- the books

  /** Every claim is accounted for: it failed, its result was evicted, is cached, or it is still in flight. */
  ghost predicate Ledger(entries: map<Key, Cached>, inFlight: map<Key, InFlight>, b: Books) {
    && entries.Keys !! inFlight.Keys
    && b.claimed == b.failed + b.evicted + multiset(entries.Keys) + multiset(inFlight.Keys)
  }

  // ---------------------------------------------------------------- the waiters

  /** The caller is there for this request. */
  predicate Asks(c: Caller, key: Key, imprint: Imprint) {
    c.key == key && c.imprint == imprint
  }

  /** The requests in flight and the callers that own them are the same thing. */
  ghost predicate Owned(inFlight: map<Key, InFlight>, callers: seq<Caller>) {
    && (forall k | k in inFlight :: inFlight[k].channel < |callers| &&
          callers[inFlight[k].channel].state.Owning? && Asks(callers[inFlight[k].channel], k, inFlight[k].imprint))
    && forall i | 0 <= i < |callers| && callers[i].state.Owning? ::
         callers[i].key in inFlight && inFlight[callers[i].key].channel == i
  }

  predicate Waits(state: State) {
    state.Watching? || state.Sleeping?
  }

  /** A waiter's channel is set, or belongs to a caller that owns the very same request. */
  ghost predicate Attended(callers: seq<Caller>, signalled: set<nat>) {
    && (forall i | i in signalled :: i < |callers| && callers[i].state.Done?)
    && forall i | 0 <= i < |callers| && Waits(callers[i].state) ::
         var w := callers[i].state.channel;
         w in signalled ||
         (w < |callers| && callers[w].state.Owning? && Asks(callers[w], callers[i].key, callers[i].imprint))
  }

  // ---------------------------------------------------------------- the answers

  ghost predicate Kept(log: seq<Entry>, i: int, j: int)
    requires 0 <= i < j <= |log|
  {
    log[i].Answered? && forall m | i < m < j :: log[m] != Dropped(log[i].key)
  }

  /** An answer whose key was not evicted since is still cached. */
  ghost predicate Backed(log: seq<Entry>, entries: map<Key, Cached>) {
    forall i | 0 <= i < |log| && Kept(log, i, |log|) :: log[i].key in entries && entries[log[i].key] == log[i].value
  }

  /** Two answers for one key with no eviction of it between them are the same, fingerprint included. */
  ghost predicate Consistent(log: seq<Entry>) {
    forall i, j | 0 <= i < j < |log| && log[j].Answered? && log[j].key == log[i].key && Kept(log, i, j) ::
      log[j].value == log[i].value
  }

  /** An answer is that of its owner, who asked under the same key and fingerprint, and was answered as it asked. */
  predicate Credited(callers: seq<Caller>, key: Key, value: Cached) {
    && value.owner < |callers|
    && var c := callers[value.owner];
       Asks(c, key, value.imprint) && c.state == Done(Ok(value.answer)) && Echoes(c.operation, Ok(value.answer))
  }

  ghost predicate Credits(callers: seq<Caller>, entries: map<Key, Cached>, log: seq<Entry>) {
    && (forall k | k in entries :: Credited(callers, k, entries[k]))
    && forall i | 0 <= i < |log| && log[i].Answered? :: Credited(callers, log[i].key, log[i].value)
  }

  /** The entry is about a caller that was given this very answer, under the key and fingerprint it asked with. */
  predicate ToldBy(callers: seq<Caller>, e: Entry) {
    e.Answered? ==>
      && e.caller < |callers| && Asks(callers[e.caller], e.key, e.value.imprint)
      && callers[e.caller].state == Done(Ok(e.value.answer))
  }

  predicate Told(c: Caller) {
    c.state.Done? && c.state.r.Ok?
  }

  ghost predicate OnRecord(log: seq<Entry>, i: nat) {
    exists k :: 0 <= k < |log| && log[k].Answered? && log[k].caller == i
  }

  /** The log is the answers that callers were given: all of them, and nothing else. */
  ghost predicate Truthful(callers: seq<Caller>, log: seq<Entry>) {
    && (forall k | 0 <= k < |log| :: ToldBy(callers, log[k]))
    && forall i | 0 <= i < |callers| && Told(callers[i]) :: OnRecord(log, i)
  }

  predicate Printed(c: Caller) {
    c.imprint == Fingerprint(c.operation)
  }

  ghost predicate AllPrinted(callers: seq<Caller>) {
    forall i | 0 <= i < |callers| :: Printed(callers[i])
  }

  ghost predicate Sound(s: Service) {
    && CacheInv(s.cache)
    && Ledger(s.cache.entries, s.inFlight, s.books)
    && Owned(s.inFlight, s.callers)
    && Attended(s.callers, s.signalled)
    && Backed(s.books.log, s.cache.entries)
    && Consistent(s.books.log)
  }

  ghost predicate Honest(s: Service) {
    && Credits(s.callers, s.cache.entries, s.books.log) && Truthful(s.callers, s.books.log)
    && AllPrinted(s.callers)
  }

  ghost predicate Inv(s: Service) {
    Sound(s) && Honest(s)
  }

  // ---------------------------------------------------------------- one step

  lemma AnswerAgain(log: seq<Entry>, entries: map<Key, Cached>, key: Key, caller: nat)
    requires Backed(log, entries) && Consistent(log) && key in entries
    ensures Backed(log + [Answered(key, entries[key], caller)], entries)
    ensures Consistent(log + [Answered(key, entries[key], caller)])
  {
    KeptBefore(log, Answered(key, entries[key], caller));
  }

  /** Appending to the log does not change what was kept, unless it drops the key. */
  lemma KeptBefore(log: seq<Entry>, e: Entry)
    ensures forall i, j | 0 <= i < j <= |log| :: Kept(log + [e], i, j) <==> Kept(log, i, j)
    ensures forall i | 0 <= i < |log| :: Kept(log + [e], i, |log| + 1) <==> Kept(log, i, |log|) && e != Dropped(log[i].key)
  {
    var log' := log + [e];
    forall i, j | 0 <= i < j <= |log|
      ensures Kept(log', i, j) <==> Kept(log, i, j)
    {
      assert forall m | i < m < j :: log'[m] == log[m];
    }
    forall i | 0 <= i < |log|
      ensures Kept(log', i, |log| + 1) <==> Kept(log, i, |log|) && e != Dropped(log[i].key)
    {
      assert forall m | i < m < |log| :: log'[m] == log[m];
      assert log'[|log|] == e;
    }
  }

  lemma DropKeepsAnswers(log: seq<Entry>, entries: map<Key, Cached>, key: Key)
    requires Backed(log, entries) && Consistent(log)
    ensures Backed(log + [Dropped(key)], entries - {key})
    ensures Consistent(log + [Dropped(key)])
  {
    KeptBefore(log, Dropped(key));
  }

  lemma FirstAnswer(log: seq<Entry>, entries: map<Key, Cached>, key: Key, value: Cached, caller: nat)
    requires Backed(log, entries) && Consistent(log) && key !in entries
    ensures Backed(log + [Answered(key, value, caller)], entries[key := value])
    ensures Consistent(log + [Answered(key, value, caller)])
  {
    KeptBefore(log, Answered(key, value, caller));
  }

  lemma MoveKeepsWaiters(inFlight: map<Key, InFlight>, callers: seq<Caller>, signalled: set<nat>, i: nat, state: State)
    requires Owned(inFlight, callers) && Attended(callers, signalled) && i < |callers|
    requires !callers[i].state.Owning? && !callers[i].state.Done? && !state.Owning?
    requires Waits(state) ==>
               state.channel in signalled ||
               (state.channel < |callers| && callers[state.channel].state.Owning? &&
                Asks(callers[state.channel], callers[i].key, callers[i].imprint))
    ensures var callers' := callers[i := callers[i].(state := state)];
            Owned(inFlight, callers') && Attended(callers', signalled)
  {
  }

  lemma ClaimKeepsWaiters(inFlight: map<Key, InFlight>, callers: seq<Caller>, signalled: set<nat>, i: nat)
    requires Owned(inFlight, callers) && Attended(callers, signalled) && i < |callers|
    requires callers[i].state.Looking? && callers[i].key !in inFlight
    ensures var c := callers[i];
            var callers' := callers[i := c.(state := Owning)];
            Owned(inFlight[c.key := InFlight(c.imprint, i)], callers') && Attended(callers', signalled)
  {
  }

  lemma CompleteKeepsWaiters(inFlight: map<Key, InFlight>, callers: seq<Caller>, signalled: set<nat>, i: nat,
                             outcome: Result<Answer, Failure>)
    requires Owned(inFlight, callers) && Attended(callers, signalled) && i < |callers| && callers[i].state.Owning?
    ensures var callers' := callers[i := callers[i].(state := Done(outcome))];
            Owned(inFlight - {callers[i].key}, callers') && Attended(callers', signalled + {i})
  {
  }

  lemma OneMore(keys: set<Key>, key: Key)
    ensures key !in keys ==> multiset(keys + {key}) == multiset(keys) + multiset{key}
    ensures key in keys ==> multiset(keys - {key}) == multiset(keys) - multiset{key}
  {
  }

  lemma ClaimKeepsLedger(entries: map<Key, Cached>, inFlight: map<Key, InFlight>, b: Books, key: Key, f: InFlight)
    requires Ledger(entries, inFlight, b) && key !in entries && key !in inFlight
    ensures Ledger(entries, inFlight[key := f], b.(claimed := b.claimed + multiset{key}))
  {
    OneMore(inFlight.Keys, key);
    assert inFlight[key := f].Keys == inFlight.Keys + {key};
  }

  lemma FailKeepsLedger(entries: map<Key, Cached>, inFlight: map<Key, InFlight>, b: Books, key: Key)
    requires Ledger(entries, inFlight, b) && key in inFlight
    ensures Ledger(entries, inFlight - {key}, b.(failed := b.failed + multiset{key}))
  {
    OneMore(inFlight.Keys, key);
    assert (inFlight - {key}).Keys == inFlight.Keys - {key};
  }

  lemma StoreKeepsLedger(entries: map<Key, Cached>, inFlight: map<Key, InFlight>, b: Books, key: Key, value: Cached,
                         gone: set<Key>, log: seq<Entry>)
    requires Ledger(entries, inFlight, b) && key in inFlight && gone <= entries.Keys
    ensures Ledger((entries - gone)[key := value], inFlight - {key},
                   b.(evicted := b.evicted + multiset(gone), log := log))
  {
    OneMore(inFlight.Keys, key);
    OneMore(entries.Keys - gone, key);
    assert (inFlight - {key}).Keys == inFlight.Keys - {key};
    assert ((entries - gone)[key := value]).Keys == (entries.Keys - gone) + {key};
    assert multiset(entries.Keys) == multiset(entries.Keys - gone) + multiset(gone);
  }

  lemma MoveKeepsCredits(callers: seq<Caller>, entries: map<Key, Cached>, log: seq<Entry>, i: nat, state: State)
    requires Credits(callers, entries, log) && i < |callers| && !callers[i].state.Done?
    ensures Credits(callers[i := callers[i].(state := state)], entries, log)
  {
  }

  lemma ArriveKeepsCredits(callers: seq<Caller>, entries: map<Key, Cached>, log: seq<Entry>, c: Caller)
    requires Credits(callers, entries, log)
    ensures Credits(callers + [c], entries, log)
  {
  }

  lemma AnswerKeepsCredits(callers: seq<Caller>, entries: map<Key, Cached>, log: seq<Entry>, key: Key, caller: nat)
    requires Credits(callers, entries, log) && key in entries
    ensures Credits(callers, entries, log + [Answered(key, entries[key], caller)])
  {
  }

  lemma StoreKeepsCredits(callers: seq<Caller>, entries: map<Key, Cached>, log: seq<Entry>, gone: set<Key>,
                          dropped: seq<Entry>, key: Key, value: Cached, caller: nat)
    requires Credits(callers, entries, log) && Credited(callers, key, value)
    requires forall k | 0 <= k < |dropped| :: dropped[k].Dropped?
    ensures Credits(callers, (entries - gone)[key := value], log + dropped + [Answered(key, value, caller)])
  {
  }

  lemma LookupKeepsSound(s: Service, i: nat)
    requires Sound(s) && Enabled(s, Lookup(i))
    ensures Sound(LookupBy(s, i))
  {
    var c := s.callers[i];
    if c.key in s.cache.entries {
      MoveKeepsWaiters(s.inFlight, s.callers, s.signalled, i, LookupBy(s, i).callers[i].state);
      AnswerAgain(s.books.log, s.cache.entries, c.key, i);
    } else if c.key in s.inFlight {
      MoveKeepsWaiters(s.inFlight, s.callers, s.signalled, i, LookupBy(s, i).callers[i].state);
    } else {
      ClaimKeepsWaiters(s.inFlight, s.callers, s.signalled, i);
      ClaimKeepsLedger(s.cache.entries, s.inFlight, s.books, c.key, InFlight(c.imprint, i));
    }
  }

  lemma WaitKeepsSound(s: Service, e: Step)
    requires Sound(s) && Enabled(s, e) && (e.Borrow? || e.Wake?)
    ensures Sound(Next(s, e))
  {
    MoveKeepsWaiters(s.inFlight, s.callers, s.signalled, e.caller, Next(s, e).callers[e.caller].state);
  }

  lemma ArriveKeepsSound(s: Service, key: Key, operation: Operation)
    requires Sound(s)
    ensures Sound(Next(s, Arrive(key, operation)))
  {
  }

  lemma InsertKeepsAnswers(c: Cache, log: seq<Entry>, key: Key, value: Cached, caller: nat)
    requires CacheInv(c) && key !in c.entries && Backed(log, c.entries) && Consistent(log)
    ensures var log' := log + (if Evicted(c) == {} then [] else [Dropped(c.order[0])]) + [Answered(key, value, caller)];
            Backed(log', (c.entries - Evicted(c))[key := value]) && Consistent(log')
  {
    if |c.order| == REQUEST_CACHE_CAPACITY {
      var eldest := c.order[0];
      DropKeepsAnswers(log, c.entries, eldest);
      FirstAnswer(log + [Dropped(eldest)], c.entries - {eldest}, key, value, caller);
    } else {
      assert c.entries - {} == c.entries;
      assert log + [] == log;
      FirstAnswer(log, c.entries, key, value, caller);
    }
  }

  lemma CompleteKeepsCredits(s: Service, i: nat, outcome: Result<Answer, Failure>)
    requires CacheInv(s.cache) && Credits(s.callers, s.cache.entries, s.books.log)
    requires Enabled(s, Complete(i, outcome)) && s.callers[i].key !in s.cache.entries
    ensures var s' := CompleteBy(s, i, outcome); Credits(s'.callers, s'.cache.entries, s'.books.log)
  {
    var c := s.callers[i];
    var callers := s.callers[i := c.(state := Done(outcome))];
    MoveKeepsCredits(s.callers, s.cache.entries, s.books.log, i, Done(outcome));
    if outcome.Ok? {
      var value := Cached(c.imprint, outcome.value, i);
      InsertEvictsTheOldest(s.cache, c.key, value);
      StoreKeepsCredits(callers, s.cache.entries, s.books.log, Evicted(s.cache),
                        if Evicted(s.cache) == {} then [] else [Dropped(s.cache.order[0])], c.key, value, i);
    }
  }

  lemma CompleteKeepsSound(s: Service, i: nat, outcome: Result<Answer, Failure>)
    requires Sound(s) && Enabled(s, Complete(i, outcome))
    ensures Sound(CompleteBy(s, i, outcome))
  {
    var c := s.callers[i];
    CompleteKeepsWaiters(s.inFlight, s.callers, s.signalled, i, outcome);
    if outcome.Ok? {
      var value := Cached(c.imprint, outcome.value, i);
      InsertEvictsTheOldest(s.cache, c.key, value);
      InsertKeepsAnswers(s.cache, s.books.log, c.key, value, i);
      assert Evicted(s.cache) <= s.cache.entries.Keys;
      StoreKeepsLedger(s.cache.entries, s.inFlight, s.books, c.key, value, Evicted(s.cache),
                       CompleteBy(s, i, outcome).books.log);
    } else {
      FailKeepsLedger(s.cache.entries, s.inFlight, s.books, c.key);
    }
  }

  lemma LookupKeepsCredits(s: Service, i: nat)
    requires Credits(s.callers, s.cache.entries, s.books.log) && Enabled(s, Lookup(i))
    ensures var s' := LookupBy(s, i); Credits(s'.callers, s'.cache.entries, s'.books.log)
  {
    var state := LookupBy(s, i).callers[i].state;
    MoveKeepsCredits(s.callers, s.cache.entries, s.books.log, i, state);
    if s.callers[i].key in s.cache.entries {
      AnswerKeepsCredits(s.callers[i := s.callers[i].(state := state)], s.cache.entries, s.books.log, s.callers[i].key, i);
    }
  }

  lemma MoveKeepsTruth(callers: seq<Caller>, log: seq<Entry>, i: nat, state: State)
    requires Truthful(callers, log) && i < |callers| && !callers[i].state.Done? && !Told(callers[i].(state := state))
    ensures Truthful(callers[i := callers[i].(state := state)], log)
  {
    forall k | 0 <= k < |log| ensures ToldBy(callers[i := callers[i].(state := state)], log[k]) {
      assert ToldBy(callers, log[k]);
    }
  }

  lemma RecordGrows(log: seq<Entry>, more: seq<Entry>, i: nat)
    ensures OnRecord(log, i) ==> OnRecord(log + more, i)
    ensures OnRecord(more, i) ==> OnRecord(log + more, i)
  {
    if OnRecord(log, i) {
      var k :| 0 <= k < |log| && log[k].Answered? && log[k].caller == i;
      assert (log + more)[k] == log[k];
    }
    if OnRecord(more, i) {
      var k :| 0 <= k < |more| && more[k].Answered? && more[k].caller == i;
      assert (log + more)[|log| + k] == more[k];
    }
  }

  /** A caller is told, and the log says so. */
  lemma TellingIsTrue(callers: seq<Caller>, log: seq<Entry>, dropped: seq<Entry>, i: nat, value: Cached)
    requires Truthful(callers, log) && i < |callers| && !callers[i].state.Done? && value.imprint == callers[i].imprint
    requires forall k | 0 <= k < |dropped| :: dropped[k].Dropped?
    ensures Truthful(callers[i := callers[i].(state := Done(Ok(value.answer)))],
                     log + dropped + [Answered(callers[i].key, value, i)])
  {
    var callers' := callers[i := callers[i].(state := Done(Ok(value.answer)))];
    var e := Answered(callers[i].key, value, i);
    var log' := log + dropped + [e];
    forall k | 0 <= k < |log'| ensures ToldBy(callers', log'[k]) {
      if k < |log| { assert log'[k] == log[k] && ToldBy(callers, log[k]); }
    }
    forall j | 0 <= j < |callers'| && Told(callers'[j]) ensures OnRecord(log', j) {
      assert [e][0] == e;
      RecordGrows(log + dropped, [e], j);
      RecordGrows(log, dropped, j);
      if j == i { assert OnRecord([e], i); }
    }
  }

  lemma ArrivalIsTrue(callers: seq<Caller>, log: seq<Entry>, c: Caller)
    requires Truthful(callers, log) && !Told(c)
    ensures Truthful(callers + [c], log)
  {
    forall k | 0 <= k < |log| ensures ToldBy(callers + [c], log[k]) { assert ToldBy(callers, log[k]); }
  }

  lemma LookupKeepsTruth(s: Service, i: nat)
    requires Truthful(s.callers, s.books.log) && Enabled(s, Lookup(i))
    ensures Truthful(LookupBy(s, i).callers, LookupBy(s, i).books.log)
  {
    var c := s.callers[i];
    if c.key in s.cache.entries && s.cache.entries[c.key].imprint == c.imprint {
      TellingIsTrue(s.callers, s.books.log, [], i, s.cache.entries[c.key]);
      assert s.books.log + [] == s.books.log;
    } else {
      MoveKeepsTruth(s.callers, s.books.log, i, LookupBy(s, i).callers[i].state);
    }
  }

  lemma CompleteKeepsTruth(s: Service, i: nat, outcome: Result<Answer, Failure>)
    requires Truthful(s.callers, s.books.log) && Enabled(s, Complete(i, outcome))
    ensures Truthful(CompleteBy(s, i, outcome).callers, CompleteBy(s, i, outcome).books.log)
  {
    var c := s.callers[i];
    if outcome.Ok? {
      TellingIsTrue(s.callers, s.books.log, if Evicted(s.cache) == {} then [] else [Dropped(s.cache.order[0])], i,
                    Cached(c.imprint, outcome.value, i));
    } else {
      MoveKeepsTruth(s.callers, s.books.log, i, Done(outcome));
    }
  }

  lemma StepKeepsTruth(s: Service, e: Step)
    requires Truthful(s.callers, s.books.log) && Enabled(s, e)
    ensures Truthful(Next(s, e).callers, Next(s, e).books.log)
  {
    match e
    case Arrive(key, operation) =>
      ArrivalIsTrue(s.callers, s.books.log, Caller(key, operation, Fingerprint(operation), Looking));
    case Lookup(i) => LookupKeepsTruth(s, i);
    case Complete(i, outcome) => CompleteKeepsTruth(s, i, outcome);
    case _ => MoveKeepsTruth(s.callers, s.books.log, e.caller, Next(s, e).callers[e.caller].state);
  }

  lemma StepKeepsPrints(s: Service, e: Step)
    requires AllPrinted(s.callers) && Enabled(s, e)
    ensures AllPrinted(Next(s, e).callers)
  {
    if e.Arrive? {
      assert Printed(Caller(e.key, e.operation, Fingerprint(e.operation), Looking));
    } else {
      assert Printed(s.callers[e.caller]);
    }
  }

  lemma StepKeepsHonest(s: Service, e: Step)
    requires Honest(s) && CacheInv(s.cache) && Enabled(s, e)
    requires e.Complete? ==> s.callers[e.caller].key !in s.cache.entries
    ensures Honest(Next(s, e))
  {
    StepKeepsPrints(s, e);
    StepKeepsTruth(s, e);
    match e
    case Arrive(key, operation) =>
      ArriveKeepsCredits(s.callers, s.cache.entries, s.books.log, Caller(key, operation, Fingerprint(operation), Looking));
    case Lookup(i) => LookupKeepsCredits(s, i);
    case Complete(i, outcome) => CompleteKeepsCredits(s, i, outcome);
    case _ => MoveKeepsCredits(s.callers, s.cache.entries, s.books.log, e.caller, Next(s, e).callers[e.caller].state);
  }

  lemma StepKeepsSound(s: Service, e: Step)
    requires Sound(s) && Enabled(s, e)
    ensures Sound(Next(s, e))
    ensures e.Complete? ==> s.callers[e.caller].key !in s.cache.entries
  {
    match e
    case Lookup(i) => LookupKeepsSound(s, i);
    case Complete(i, outcome) => CompleteKeepsSound(s, i, outcome);
    case Arrive(key, operation) => ArriveKeepsSound(s, key, operation);
    case _ => WaitKeepsSound(s, e);
  }

  lemma StepKeepsInv(s: Service, e: Step)
    requires Inv(s) && Enabled(s, e)
    ensures Inv(Next(s, e))
  {
    StepKeepsSound(s, e);
    StepKeepsHonest(s, e);
  }

  // ---------------------------------------------------------------- whole runs

  predicate ValidRun(s: Service, steps: seq<Step>)
    decreases |steps|
  {
    steps == [] || (Enabled(s, steps[0]) && ValidRun(Next(s, steps[0]), steps[1..]))
  }

  function After(s: Service, steps: seq<Step>): Service
    requires ValidRun(s, steps)
    decreases |steps|
  {
    if steps == [] then s else After(Next(s, steps[0]), steps[1..])
  }

  lemma {:induction false} RunKeepsInv(s: Service, steps: seq<Step>)
    requires Inv(s) && ValidRun(s, steps)
    ensures Inv(After(s, steps))
    decreases |steps|
  {
    if steps != [] {
      StepKeepsInv(s, steps[0]);
      RunKeepsInv(Next(s, steps[0]), steps[1..]);
    }
  }

  /**
   In every run a key was claimed exactly as often as its attempts failed and its results were evicted, plus one if it
   is cached, plus one if it is in flight, and it is never both; the cache lists its keys once each and is bounded.
   */
  lemma ClaimsAreAccountedFor(steps: seq<Step>, k: Key)
    requires ValidRun(NewService(), steps)
    ensures var s := After(NewService(), steps);
            && s.books.claimed[k] == s.books.failed[k] + s.books.evicted[k]
                                     + (if k in s.cache.entries then 1 else 0) + (if k in s.inFlight then 1 else 0)
            && !(k in s.cache.entries && k in s.inFlight)
            && CacheInv(s.cache) && |s.cache.entries| <= REQUEST_CACHE_CAPACITY
  {
    RunKeepsInv(NewService(), steps);
    ListedSize(After(NewService(), steps).cache);
  }

  /**
   In every run, a caller was given an answer if and only if the log has it: for that caller, under the key and the
   fingerprint it asked with.
   */
  lemma AnswersAreOnRecord(steps: seq<Step>, i: nat, a: Answer)
    requires ValidRun(NewService(), steps) && i < |After(NewService(), steps).callers|
    ensures var s := After(NewService(), steps);
            s.callers[i].state == Done(Ok(a)) <==>
            exists k :: 0 <= k < |s.books.log| && s.books.log[k].Answered? && s.books.log[k].caller == i &&
                        s.books.log[k].value.answer == a && s.books.log[k].key == s.callers[i].key &&
                        s.books.log[k].value.imprint == s.callers[i].imprint
  {
    RunKeepsInv(NewService(), steps);
    var s := After(NewService(), steps);
    if s.callers[i].state == Done(Ok(a)) {
      assert Told(s.callers[i]);
      var k :| 0 <= k < |s.books.log| && s.books.log[k].Answered? && s.books.log[k].caller == i;
      assert ToldBy(s.callers, s.books.log[k]);
    }
    if exists k :: 0 <= k < |s.books.log| && s.books.log[k].Answered? && s.books.log[k].caller == i &&
                   s.books.log[k].value.answer == a {
      var k :| 0 <= k < |s.books.log| && s.books.log[k].Answered? && s.books.log[k].caller == i &&
               s.books.log[k].value.answer == a;
      assert ToldBy(s.callers, s.books.log[k]);
    }
  }

  /** Two callers answered for one key, with no eviction of it between them, were given the same answer. */
  lemma AnswersAgree(steps: seq<Step>, i: nat, j: nat)
    requires ValidRun(NewService(), steps)
    requires var log := After(NewService(), steps).books.log;
             i < j < |log| && log[j].Answered? && log[j].key == log[i].key && Kept(log, i, j)
    ensures var s := After(NewService(), steps);
            var a, b := s.books.log[i].caller, s.books.log[j].caller;
            && a < |s.callers| && b < |s.callers|
            && s.callers[a].state == s.callers[b].state == Done(Ok(s.books.log[i].value.answer))
            && s.callers[a].imprint == s.callers[b].imprint
  {
    RunKeepsInv(NewService(), steps);
    var s := After(NewService(), steps);
    assert ToldBy(s.callers, s.books.log[i]) && ToldBy(s.callers, s.books.log[j]);
  }

  /**
   In every run, every caller that was given an answer, first or replayed, was given the one that some owner of the
   same key and fingerprint got from the authority. For a V2 admission it carries the token that owner minted, whatever
   token the caller itself minted.
   */
  lemma AnswersCarryTheOwnersToken(steps: seq<Step>, i: nat)
    requires ValidRun(NewService(), steps)
    requires var s := After(NewService(), steps); i < |s.callers| && Told(s.callers[i])
    ensures var s := After(NewService(), steps);
            exists o :: 0 <= o < |s.callers| && OwnsAnswer(s.callers[o], s.callers[i])
  {
    RunKeepsInv(NewService(), steps);
    var s := After(NewService(), steps);
    var k :| 0 <= k < |s.books.log| && s.books.log[k].Answered? && s.books.log[k].caller == i;
    assert ToldBy(s.callers, s.books.log[k]) && Credited(s.callers, s.books.log[k].key, s.books.log[k].value);
    var o := s.books.log[k].value.owner;
    assert Printed(s.callers[o]) && Printed(s.callers[i]);
    assert OwnsAnswer(s.callers[o], s.callers[i]);
  }

  /** The first caller asked what the second asked, was answered, and the second was given that answer. */
  predicate OwnsAnswer(owner: Caller, c: Caller) {
    && owner.key == c.key && Fingerprint(owner.operation) == Fingerprint(c.operation)
    && owner.state == c.state && Told(c)
    && (c.state.r.value.AdmittedWith? ==>
          owner.operation.AdmitV2? && c.state.r.value.token == owner.operation.admissionToken)
  }

  /**
   What a look at the tables leads to, exactly: the cached answer for the same operation, a refusal for another one, the
   channel of the owner for the same operation in flight, and a claim if there is neither.
   */
  lemma LookupMeans(s: Service, i: nat)
    requires Inv(s) && Enabled(s, Lookup(i))
    ensures var c, state := s.callers[i], Next(s, Lookup(i)).callers[i].state;
            && (c.key in s.cache.entries && s.cache.entries[c.key].imprint == c.imprint ==>
                  state == Done(Ok(s.cache.entries[c.key].answer)))
            && (c.key in s.cache.entries && s.cache.entries[c.key].imprint != c.imprint ==>
                  state == Done(Err(AlreadyExists)))
            && (c.key in s.inFlight && s.inFlight[c.key].imprint == c.imprint ==>
                  state == Watching(s.inFlight[c.key].channel))
            && (c.key in s.inFlight && s.inFlight[c.key].imprint != c.imprint ==> state == Done(Err(AlreadyExists)))
            && (c.key !in s.cache.entries && c.key !in s.inFlight ==> state.Owning?)
  {
  }

  /** The owner itself is given what the authority said, success or failure. */
  lemma CompletionMeans(s: Service, i: nat, outcome: Result<Answer, Failure>)
    requires Enabled(s, Complete(i, outcome))
    ensures Next(s, Complete(i, outcome)).callers[i].state == Done(outcome)
    ensures forall j | 0 <= j < |s.callers| && j != i :: Next(s, Complete(i, outcome)).callers[j] == s.callers[j]
  {
  }

  /** A caller returns only by its own look at the tables or its own completion. */
  lemma ReturnsOnlyThere(s: Service, e: Step, i: nat)
    requires Enabled(s, e) && i < |s.callers| && !s.callers[i].state.Done?
    ensures var c := s.callers[i];
            i < |Next(s, e).callers| &&
            (Next(s, e).callers[i].state.Done? <==>
              || (e.Complete? && e.caller == i)
              || (e == Lookup(i) && (c.key in s.cache.entries ||
                                     (c.key in s.inFlight && s.inFlight[c.key].imprint != c.imprint))))
  {
  }

  /** A waiter that finds its channel set, at once or after sleeping, looks at the tables again. */
  lemma WaitersLookAgain(s: Service, i: nat)
    ensures Enabled(s, Borrow(i)) ==>
              var channel := s.callers[i].state.channel;
              Next(s, Borrow(i)).callers[i].state == (if channel in s.signalled then Looking else Sleeping(channel))
    ensures Enabled(s, Wake(i)) ==> Next(s, Wake(i)).callers[i].state.Looking?
  {
  }

  /** Another operation under a key that is cached or in flight is refused, and nothing else happens. */
  lemma MismatchIsRefused(steps: seq<Step>, i: nat)
    requires ValidRun(NewService(), steps) && Enabled(After(NewService(), steps), Lookup(i))
    requires var s := After(NewService(), steps);
             var c := s.callers[i];
             || (c.key in s.cache.entries && s.cache.entries[c.key].imprint != c.imprint)
             || (c.key in s.inFlight && s.inFlight[c.key].imprint != c.imprint)
    ensures var s := After(NewService(), steps);
            Next(s, Lookup(i)) == Moved(s, i, Done(Err(AlreadyExists)))
  {
    RunKeepsInv(NewService(), steps);
  }

  // ---------------------------------------------------------------- progress

  /** The step a caller takes next, if it can. */
  predicate CanMove(s: Service, i: nat)
    requires i < |s.callers|
  {
    Enabled(s, Lookup(i)) || Enabled(s, Borrow(i)) || Enabled(s, Wake(i)) || Enabled(s, Complete(i, Err(Unavailable)))
  }

  /**
   No waiter is stranded: a caller that has not returned can move, or sleeps on the channel of a caller that owns the
   same request with the same fingerprint; and when that caller completes, whatever the outcome, the sleeper can move.
   */
  lemma NoWaiterIsStranded(steps: seq<Step>, i: nat, outcome: Result<Answer, Failure>)
    requires ValidRun(NewService(), steps) && i < |After(NewService(), steps).callers|
    ensures Attends(After(NewService(), steps), i, outcome)
  {
    RunKeepsInv(NewService(), steps);
    InvAttends(After(NewService(), steps), i, outcome);
  }

  predicate Attends(s: Service, i: nat, outcome: Result<Answer, Failure>)
    requires i < |s.callers|
  {
    var c := s.callers[i];
    c.state.Done? || CanMove(s, i) ||
    (&& c.state.Sleeping? && c.state.channel < |s.callers|
     && var w := c.state.channel;
     && s.callers[w].state.Owning? && Asks(s.callers[w], c.key, c.imprint)
     && (Echoes(s.callers[w].operation, outcome) ==>
           Enabled(s, Complete(w, outcome)) && Enabled(Next(s, Complete(w, outcome)), Wake(i))))
  }

  lemma InvAttends(s: Service, i: nat, outcome: Result<Answer, Failure>)
    requires Inv(s) && i < |s.callers|
    ensures Attends(s, i, outcome)
  {
  }

  /** How far a caller is from its next return, given which channels are set. */
  function Rank(c: Caller, signalled: set<nat>): nat {
    match c.state
    case Done(_) => 0
    case Owning => 1
    case Sleeping(w) => if w in signalled then 4 else 1
    case Watching(w) => if w in signalled then 4 else 2
    case Looking => 3
  }

  function Ranks(callers: seq<Caller>, signalled: set<nat>): nat {
    if callers == [] then 0
    else Ranks(callers[..|callers| - 1], signalled) + Rank(callers[|callers| - 1], signalled)
  }

  function Active(callers: seq<Caller>): nat {
    if callers == [] then 0
    else Active(callers[..|callers| - 1]) + (if callers[|callers| - 1].state.Done? then 0 else 1)
  }

  lemma {:induction false} RanksBound(callers: seq<Caller>, signalled: set<nat>)
    ensures Ranks(callers, signalled) <= 4 * |callers|
  {
    if callers != [] { RanksBound(callers[..|callers| - 1], signalled); }
  }

  lemma {:induction false} RanksMove(callers: seq<Caller>, signalled: set<nat>, i: nat, c: Caller)
    requires i < |callers|
    ensures Ranks(callers[i := c], signalled) ==
            Ranks(callers, signalled) - Rank(callers[i], signalled) + Rank(c, signalled)
  {
    var n := |callers| - 1;
    if i < n {
      RanksMove(callers[..n], signalled, i, c);
      assert callers[i := c][..n] == callers[..n][i := c];
    } else {
      assert callers[i := c][..n] == callers[..n];
    }
  }

  lemma {:induction false} ActiveMove(callers: seq<Caller>, i: nat, c: Caller)
    requires i < |callers|
    ensures Active(callers[i := c]) ==
            Active(callers) - (if callers[i].state.Done? then 0 else 1) + (if c.state.Done? then 0 else 1)
  {
    var n := |callers| - 1;
    if i < n {
      ActiveMove(callers[..n], i, c);
      assert callers[i := c][..n] == callers[..n][i := c];
    } else {
      assert callers[i := c][..n] == callers[..n];
    }
  }

  /** An upper bound on the steps left before every caller has returned. */
  function Remaining(callers: seq<Caller>, signalled: set<nat>): nat {
    Active(callers) * (4 * |callers| + 1) + Ranks(callers, signalled)
  }

  lemma OneFewer(active: nat, n: nat, rank: nat, rank': nat)
    requires active > 0 && rank' < n
    ensures (active - 1) * n + rank' < active * n + rank
  {
    assert (active - 1) * n == active * n - n;
  }

  lemma ReturnDescends(callers: seq<Caller>, signalled: set<nat>, signalled': set<nat>, i: nat, c: Caller)
    requires i < |callers| && !callers[i].state.Done? && c.state.Done?
    ensures Remaining(callers[i := c], signalled') < Remaining(callers, signalled)
  {
    var callers' := callers[i := c];
    ActiveMove(callers, i, c);
    RanksBound(callers', signalled');
    OneFewer(Active(callers), 4 * |callers| + 1, Ranks(callers, signalled), Ranks(callers', signalled'));
  }

  lemma MoveDescends(callers: seq<Caller>, signalled: set<nat>, i: nat, c: Caller)
    requires i < |callers| && !callers[i].state.Done? && !c.state.Done?
    requires Rank(c, signalled) < Rank(callers[i], signalled)
    ensures Remaining(callers[i := c], signalled) < Remaining(callers, signalled)
  {
    ActiveMove(callers, i, c);
    RanksMove(callers, signalled, i, c);
  }

  /** Each step of a caller that is already there brings the end nearer, however the callers are interleaved. */
  lemma StepsDescend(s: Service, e: Step)
    requires Enabled(s, e) && !e.Arrive? && Sound(s)
    ensures Remaining(Next(s, e).callers, Next(s, e).signalled) < Remaining(s.callers, s.signalled)
  {
    var s' := Next(s, e);
    var i := e.caller;
    if s'.callers[i].state.Done? {
      ReturnDescends(s.callers, s.signalled, s'.signalled, i, s'.callers[i]);
    } else {
      MoveDescends(s.callers, s.signalled, i, s'.callers[i]);
    }
  }

  /** So once nobody else arrives every run is bounded: callers cannot wake and wait for ever. */
  lemma {:induction false} RunsAreBounded(s: Service, steps: seq<Step>)
    requires Inv(s) && ValidRun(s, steps) && forall e | e in steps :: !e.Arrive?
    ensures var s' := After(s, steps);
            |steps| + Remaining(s'.callers, s'.signalled) <= Remaining(s.callers, s.signalled)
    decreases |steps|
  {
    if steps != [] {
      StepKeepsInv(s, steps[0]);
      StepsDescend(s, steps[0]);
      RunsAreBounded(Next(s, steps[0]), steps[1..]);
    }
  }

  /** And it ends only when everybody has returned: as long as one caller has not, somebody can move. */
  lemma SomebodyCanMove(steps: seq<Step>, i: nat)
    requires ValidRun(NewService(), steps)
    requires var s := After(NewService(), steps); i < |s.callers| && !s.callers[i].state.Done?
    ensures var s := After(NewService(), steps); exists k: nat :: k < |s.callers| && CanMove(s, k)
  {
    NoWaiterIsStranded(steps, i, Err(Unavailable));
    var s := After(NewService(), steps);
    assert CanMove(s, i) || (s.callers[i].state.Sleeping? && CanMove(s, s.callers[i].state.channel));
  }
}
