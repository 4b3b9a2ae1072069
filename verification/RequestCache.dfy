/** The shared request cache updated in place, one method for each lock-held region of `execute`. */
module RequestCaching {
  import opened Options
  import opened AuthorityCache
  import AuthorityTheorems

  class RequestCache {
    var entries: map<Key, Cached>
    var order: seq<Key>
    var inFlight: map<Key, InFlight>
    /** The watch channels that have been set; a caller that holds one looks here, not at the tables. */
    var signalled: set<nat>

    ghost function CacheView(): Cache
      reads this
    {
      Cache(entries, order)
    }

    /** The cache and the table are those of the service `s`. */
    ghost predicate Shows(s: Service)
      reads this
    {
      s.cache == CacheView() && s.inFlight == inFlight && s.signalled == signalled
    }

    constructor ()
      ensures Shows(NewService())
    {
      entries, order, inFlight, signalled := map[], [], map[], {};
    }

    /** The loop ends because the queue lists every entry, so it cannot run dry while entries are left over. */
    method Insert(key: Key, value: Cached)
      requires CacheInv(CacheView())
      modifies `entries, `order
      ensures CacheView() == AuthorityCache.Insert(old(CacheView()), key, value)
      ensures CacheInv(CacheView()) && key in entries && entries[key] == value
    {
      ghost var pushed := Pushed(CacheView(), key, value);
      if key !in entries {
        PushKeepsListed(CacheView(), key, value);
        order := order + [key];
      }
      entries := entries[key := value];
      ListedSize(CacheView());
      while |entries| > REQUEST_CACHE_CAPACITY
        invariant Listed(CacheView()) && |entries| == |order| <= REQUEST_CACHE_CAPACITY + 1
        invariant Trim(CacheView()) == Trim(pushed)
        invariant key in entries && entries[key] == value
        invariant |order| > REQUEST_CACHE_CAPACITY ==> order[0] != key
        decreases |order|
      {
        PopKeepsListed(CacheView());
        var oldest := order[0];
        order := order[1..];
        entries := entries - {oldest};
        ListedSize(CacheView());
      }
    }

    /** What a caller does with the lock held: replay, refuse, wait, or claim the request. */
    method Look(caller: nat, key: Key, imprint: Imprint, ghost s: Service) returns (state: State)
      requires Shows(s)
      requires caller < |s.callers| && s.callers[caller].key == key && s.callers[caller].imprint == imprint
      modifies `inFlight
      ensures Shows(LookupBy(s, caller)) && LookupBy(s, caller).callers[caller].state == state
      ensures Kept(s, Lookup(caller))
    {
      StepsAreKept(s, Lookup(caller));
      if key in entries {
        if entries[key].imprint != imprint { return Done(Err(AlreadyExists)); }
        return Done(Ok(entries[key].answer));
      }
      if key in inFlight {
        if inFlight[key].imprint != imprint { return Done(Err(AlreadyExists)); }
        return Watching(inFlight[key].channel);
      }
      inFlight := inFlight[key := InFlight(imprint, caller)];
      return Owning;
    }

    /** What the owner does with the lock held once the authority has answered, failed or timed out. */
    method Finish(caller: nat, key: Key, imprint: Imprint, outcome: Result<Answer, Failure>, ghost s: Service)
      requires Shows(s) && CacheInv(CacheView())
      requires caller < |s.callers| && s.callers[caller].key == key && s.callers[caller].imprint == imprint
      modifies this
      ensures Shows(CompleteBy(s, caller, outcome))
      ensures Kept(s, Complete(caller, outcome))
    {
      StepsAreKept(s, Complete(caller, outcome));
      CompletionIs(s, caller, outcome);
      inFlight := inFlight - {key};
      if outcome.Ok? { Insert(key, Cached(imprint, outcome.value, caller)); }
      signalled := signalled + {caller};
    }
  }

  /** What every step of the service keeps, this one keeps too: the books, the waiters and the answers. */
  ghost predicate Kept(s: Service, e: Step) {
    Enabled(s, e) && AuthorityTheorems.Inv(s) ==> AuthorityTheorems.Inv(Next(s, e))
  }

  lemma StepsAreKept(s: Service, e: Step)
    ensures Kept(s, e)
  {
    if Enabled(s, e) && AuthorityTheorems.Inv(s) { AuthorityTheorems.StepKeepsInv(s, e); }
  }

  /** The tables after a completion. */
  lemma CompletionIs(s: Service, i: nat, outcome: Result<Answer, Failure>)
    requires i < |s.callers|
    ensures var c, s' := s.callers[i], CompleteBy(s, i, outcome);
            && s'.inFlight == s.inFlight - {c.key} && s'.signalled == s.signalled + {i}
            && s'.cache == (if outcome.Ok? then AuthorityCache.Insert(s.cache, c.key, Cached(c.imprint, outcome.value, i))
                            else s.cache)
  {
  }
}
