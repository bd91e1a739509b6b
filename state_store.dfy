/**
 * The one-time OAuth `state` store (the CSRF defence of section 10.12 of RFC 6749): a table
 * from state string to the redirect URL and expiry time saved with it. A state can be consumed
 * once, and an expired entry is deleted when it is looked up and by the periodic sweep.
 * Times are Unix nanoseconds; the clock is a parameter.
 */
module StateStore {
  import opened Wrappers
  import opened Errors

  /** stateEntry: what was saved with a state. */
  datatype StateEntry = StateEntry(redirectURL: string, expiresAt: int)

  /** time.Time.After: the entry is expired only strictly after its expiry instant. */
  predicate Expired(e: StateEntry, now: int)
  {
    now > e.expiresAt
  }

  const ErrStateNotFound: Error := Plain("state not found")
  const ErrStateExpired: Error := Plain("state expired")

  /** The answer Get gives for `state` at `now` on the table `states`. */
  function Lookup(states: map<string, StateEntry>, state: string, now: int): (r: Result<string, Error>)
  {
    if state !in states then Err(ErrStateNotFound)
    else if Expired(states[state], now) then Err(ErrStateExpired)
    else Ok(states[state].redirectURL)
  }

  /** The entries a sweep at `now` keeps. */
  function Live(states: map<string, StateEntry>, now: int): (live: map<string, StateEntry>)
  {
    map k | k in states && !Expired(states[k], now) :: states[k]
  }

  class InMemoryStateStore {
    var states: map<string, StateEntry>

    /** NewInMemoryStateStore, without the background goroutine. */
    constructor ()
      ensures states == map[]
    {
      states := map[];
    }

    /** Save: insert or overwrite the entry for `state`, expiring `ttl` after `now`. */
    method Save(state: string, redirectURL: string, ttl: int, now: int)
      modifies this
      ensures states == old(states)[state := StateEntry(redirectURL, now + ttl)]
    {
      states := states[state := StateEntry(redirectURL, now + ttl)];
    }

    /**
     * Get: consume `state`. Absent: "state not found", nothing changes. Expired: the entry is
     * deleted and "state expired" returned. Otherwise the entry is deleted and its URL returned.
     */
    method Get(state: string, now: int) returns (r: Result<string, Error>)
      modifies this
      ensures r == Lookup(old(states), state, now)
      ensures states == old(states) - {state}
    {
      if state !in states {
        return Err(ErrStateNotFound);
      }
      var entry := states[state];
      if now > entry.expiresAt {
        states := states - {state};
        return Err(ErrStateExpired);
      }
      states := states - {state};
      return Ok(entry.redirectURL);
    }

    /** One pass of cleanup: every entry expired at `now` is deleted while the table is walked. */
    method SweepExpired(now: int)
      modifies this
      ensures states == Live(old(states), now)
    {
      var pending := states.Keys;
      while pending != {}
        invariant pending <= states.Keys
        invariant states.Keys <= old(states).Keys
        invariant forall k :: k in old(states) ==>
          (k in states <==> k in pending || !Expired(old(states)[k], now))
        invariant forall k :: k in states ==> states[k] == old(states)[k]
        decreases pending
      {
        var k :| k in pending;
        if now > states[k].expiresAt {
          states := states - {k};
        }
        pending := pending - {k};
      }
    }
  }

  /** Get answers in exactly three ways, and succeeds only for a saved, unexpired state. */
  lemma LookupCases(states: map<string, StateEntry>, state: string, now: int)
    ensures Lookup(states, state, now).Ok? <==> state in states && now <= states[state].expiresAt
    ensures Lookup(states, state, now).Ok? ==> Lookup(states, state, now).value == states[state].redirectURL
    ensures Lookup(states, state, now) == Err(ErrStateNotFound) <==> state !in states
    ensures Lookup(states, state, now) == Err(ErrStateExpired) <==> state in states && now > states[state].expiresAt
  {
  }

  /** Whatever a Get answered, a second Get of the same state finds nothing: single use. */
  lemma SecondGetNotFound(states: map<string, StateEntry>, state: string, now: int, later: int)
    ensures Lookup(states - {state}, state, later) == Err(ErrStateNotFound)
  {
  }

  /** A state saved with `ttl` is returned up to and including `now + ttl`, and expired after. */
  lemma SaveThenGet(states: map<string, StateEntry>, state: string, url: string, ttl: int, now: int, at: int)
    ensures at <= now + ttl ==> Lookup(states[state := StateEntry(url, now + ttl)], state, at) == Ok(url)
    ensures at > now + ttl ==> Lookup(states[state := StateEntry(url, now + ttl)], state, at) == Err(ErrStateExpired)
  {
  }

  /** Saving or consuming one state leaves the answer for every other state as it was. */
  lemma OtherStatesUntouched(states: map<string, StateEntry>, state: string, other: string, e: StateEntry, now: int)
    requires other != state
    ensures Lookup(states[state := e], other, now) == Lookup(states, other, now)
    ensures Lookup(states - {state}, other, now) == Lookup(states, other, now)
  {
  }

  /** The sweep removes exactly the entries expired at its time and keeps the others unchanged. */
  lemma SweepKeepsExactlyLive(states: map<string, StateEntry>, now: int)
    ensures forall k :: k in Live(states, now) <==> k in states && now <= states[k].expiresAt
    ensures forall k :: k in Live(states, now) ==> Live(states, now)[k] == states[k]
  {
  }

  /** A sweep never changes what a later Get succeeds with; it only turns "expired" into "not found". */
  lemma SweepInvisibleToGet(states: map<string, StateEntry>, now: int, state: string, later: int)
    requires now <= later
    ensures Lookup(Live(states, now), state, later).Ok? <==> Lookup(states, state, later).Ok?
    ensures Lookup(states, state, later).Ok? ==> Lookup(Live(states, now), state, later) == Lookup(states, state, later)
  {
  }

  /** Replay: a state that was consumed successfully is refused the second time. */
  method ReplayIsRejected(state: string, url: string, ttl: int, now: int) returns (first: Result<string, Error>, second: Result<string, Error>)
    requires ttl >= 0
    ensures first == Ok(url)
    ensures second == Err(ErrStateNotFound)
  {
    var store := new InMemoryStateStore();
    store.Save(state, url, ttl, now);
    first := store.Get(state, now + ttl);
    second := store.Get(state, now + ttl);
  }

  /** An expired state is refused as expired once, and as not found after that. */
  method ExpiredThenNotFound(state: string, url: string, ttl: int, now: int, at: int) returns (first: Result<string, Error>, second: Result<string, Error>)
    requires at > now + ttl
    ensures first == Err(ErrStateExpired)
    ensures second == Err(ErrStateNotFound)
  {
    var store := new InMemoryStateStore();
    store.Save(state, url, ttl, now);
    first := store.Get(state, at);
    second := store.Get(state, at);
  }

  /** After a sweep at `at`, a state that expired before it is reported as not found. */
  method SweptStateNotFound(state: string, url: string, ttl: int, now: int, at: int) returns (r: Result<string, Error>)
    requires at > now + ttl
    ensures r == Err(ErrStateNotFound)
  {
    var store := new InMemoryStateStore();
    store.Save(state, url, ttl, now);
    store.SweepExpired(at);
    r := store.Get(state, at);
  }
}
