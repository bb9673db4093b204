/**
 * The in-memory query cache `SimpleQueryClient` of
 * src/app/providers/QueryProvider.tsx.
 *
 * `fetchQuery` is one JavaScript call whose work is spread over several turns
 * of the event loop. The model splits it at those turns:
 *   - `Start` is the synchronous part: serve fresh data, join the pending
 *     promise, or call the fetcher once and register its promise;
 *   - `Complete` is the `.then`/`.catch` callback that overwrites the entry;
 *   - `Finalize` is the `.finally` callback that strips a left-over promise.
 * A promise is named by the number of the fetcher call that made it, and
 * `attempts` records every fetcher call with how far it has got, so
 * `|attempts|` is the number of times any fetcher has been invoked.
 * `Date.now()` is passed in as `now`.
 */
module QueryCache {
  import opened Optional

  /** A promise returned by a fetcher, named by the number of that fetcher call. */
  type AttemptId = nat

  /** `QueryState`: every field may be missing. */
  datatype QueryState<V, E> = QueryState(
    data: Option<V>,
    error: Option<E>,
    promise: Option<AttemptId>,
    updatedAt: Option<int>)

  /** How a fetcher's promise settles. */
  datatype Outcome<V, E> = Ok(value: V) | Err(error: E)

  /** What the synchronous part of `fetchQuery` did. */
  datatype StartResult<V> =
    | Fresh(data: V)               // returned the cached data, fetcher not called
    | Joined(attempt: AttemptId)   // returned the promise already registered
    | Started(attempt: AttemptId)  // called the fetcher and registered its promise

  /** How far one fetcher call has got. */
  datatype Attempt<V, E> =
    | Running(key: string)                             // fetcher promise not yet settled
    | Written(key: string, outcome: Outcome<V, E>)     // `.then`/`.catch` has written the entry
    | Settled(key: string, outcome: Outcome<V, E>)     // `.finally` has run; callers are resumed

  type Cache<V, E> = map<string, QueryState<V, E>>

  function EmptyEntry<V, E>(): QueryState<V, E> {
    QueryState(None, None, None, None)
  }

  /** `this.cache.get(key)`, with a missing entry read as one whose fields are all missing. */
  function EntryOf<V, E>(c: Cache<V, E>, key: string): (r: QueryState<V, E>)
    ensures key in c ==> r == c[key]
    ensures key !in c ==> r.data.None? && r.error.None? && r.promise.None? && r.updatedAt.None?
  {
    if key in c then c[key] else EmptyEntry()
  }

  /** JavaScript truthiness of an optional number: `undefined` and `0` are false. */
  predicate Truthy(n: Option<int>)
    ensures n.None? ==> !Truthy(n)
    ensures n.Some? ==> (Truthy(n) <==> n.value != 0)
  {
    n.Some? && n.value != 0
  }

  /**
   * The condition of the fresh-data short-circuit: cached data, a non-zero
   * write time, a non-zero stale time, and `now` less than one stale time
   * after the write.
   */
  predicate ServesFresh<V, E>(c: Cache<V, E>, key: string, now: int, staleTime: Option<int>)
    ensures ServesFresh(c, key, now, staleTime) ==> DataOf(c, key).Some? && Truthy(staleTime)
    ensures ServesFresh(c, key, now, staleTime) ==>
              Truthy(EntryOf(c, key).updatedAt) && now < EntryOf(c, key).updatedAt.value + staleTime.value
    ensures DataOf(c, key).None? || !Truthy(staleTime) || !Truthy(EntryOf(c, key).updatedAt) ==> !ServesFresh(c, key, now, staleTime)
  {
    && key in c
    && c[key].data.Some?
    && Truthy(c[key].updatedAt)
    && Truthy(staleTime)
    && now - c[key].updatedAt.value < staleTime.value
  }

  /** The entry holds a promise (a promise object is always truthy); a missing entry holds none. */
  predicate HasPending<V, E>(c: Cache<V, E>, key: string)
    ensures HasPending(c, key) <==> EntryOf(c, key).promise.Some?
  {
    key in c && c[key].promise.Some?
  }

  /** `getQueryData`: absent for a missing key. */
  function DataOf<V, E>(c: Cache<V, E>, key: string): (r: Option<V>)
    ensures key !in c ==> r.None?
    ensures key in c ==> r == c[key].data
  {
    EntryOf(c, key).data
  }

  /** `getQueryError`: absent for a missing key. */
  function ErrorOf<V, E>(c: Cache<V, E>, key: string): (r: Option<E>)
    ensures key !in c ==> r.None?
    ensures key in c ==> r == c[key].error
  {
    EntryOf(c, key).error
  }

  // ---------------------------------------------------------------------------
  // The transitions, as functions of the cache
  // ---------------------------------------------------------------------------

  /**
   * The synchronous part of `fetchQuery(key, fetcher, {staleTime})` at time
   * `now`; `next` names the promise the fetcher would return if called.
   */
  function StartStep<V, E>(c: Cache<V, E>, key: string, now: int, staleTime: Option<int>, next: AttemptId)
    : (r: (StartResult<V>, Cache<V, E>))
    ensures r.0.Fresh? <==> ServesFresh(c, key, now, staleTime)
    ensures r.0.Fresh? ==> r.0.data == c[key].data.value && r.1 == c
    ensures r.0.Joined? <==> !ServesFresh(c, key, now, staleTime) && HasPending(c, key)
    ensures r.0.Joined? ==> r.0.attempt == c[key].promise.value && r.1 == c
    ensures r.0.Started? ==> r.0.attempt == next
    // `{...current, promise}`: data, error and updatedAt are kept
    ensures r.0.Started? ==> key in r.1 && r.1[key] == EntryOf(c, key).(promise := Some(next))
    ensures r.1 - {key} == c - {key}
  {
    if ServesFresh(c, key, now, staleTime) then
      (Fresh(c[key].data.value), c)
    else if HasPending(c, key) then
      (Joined(c[key].promise.value), c)
    else
      (Started(next), c[key := EntryOf(c, key).(promise := Some(next))])
  }

  /** The `.then` / `.catch` callback of an attempt for `key`, run at time `now`. */
  function CompleteStep<V, E>(c: Cache<V, E>, key: string, outcome: Outcome<V, E>, now: int): (r: Cache<V, E>)
    // the entry is written whether or not it still exists
    ensures key in r && r[key].promise.None? && r[key].updatedAt == Some(now)
    ensures outcome.Ok? ==> r[key].data == Some(outcome.value) && r[key].error.None?
    // a failure keeps no earlier data
    ensures outcome.Err? ==> r[key].error == Some(outcome.error) && r[key].data.None?
    ensures r - {key} == c - {key}
  {
    match outcome
    case Ok(v) => c[key := QueryState(Some(v), None, None, Some(now))]
    case Err(e) => c[key := QueryState(None, Some(e), None, Some(now))]
  }

  /** The `.finally` callback of an attempt for `key`: drops whatever promise the entry holds. */
  function FinalizeStep<V, E>(c: Cache<V, E>, key: string): (r: Cache<V, E>)
    ensures r.Keys == c.Keys
    ensures key in c ==> r[key] == c[key].(promise := None)
    ensures r - {key} == c - {key}
  {
    if HasPending(c, key) then c[key := c[key].(promise := None)] else c
  }

  /** `invalidateQuery(key)`: a truthy key deletes its entry, otherwise everything goes. */
  function InvalidateStep<V, E>(c: Cache<V, E>, key: Option<string>): (r: Cache<V, E>)
    ensures key.Some? && key.value != "" ==> r == c - {key.value}
    ensures key.None? || key.value == "" ==> r == map[]
  {
    if key.Some? && key.value != "" then c - {key.value} else map[]
  }

  // ---------------------------------------------------------------------------
  // Properties of the transitions
  // ---------------------------------------------------------------------------

  /** A call of `fetchQuery`: the time it runs at and the stale time it passes. */
  datatype Call = Call(now: int, staleTime: Option<int>)

  /**
   * Runs the synchronous part of `fetchQuery(key, ...)` for each call in turn,
   * with no completion in between; `next` names the next fetcher promise.
   */
  function StartAll<V, E>(c: Cache<V, E>, key: string, calls: seq<Call>, next: AttemptId)
    : (r: (seq<StartResult<V>>, Cache<V, E>))
    ensures |r.0| == |calls|
    decreases |calls|
  {
    if calls == [] then ([], c)
    else
      var (first, c') := StartStep(c, key, calls[0].now, calls[0].staleTime, next);
      var tail := StartAll(c', key, calls[1..], if first.Started? then next + 1 else next);
      ([first] + tail.0, tail.1)
  }

  /** The number of fetcher calls among `results`. */
  function Invocations<V>(results: seq<StartResult<V>>): nat {
    if results == [] then 0
    else (if results[0].Started? then 1 else 0) + Invocations(results[1..])
  }

  /** `r` is the entry's own data or its own promise. */
  ghost predicate JoinsOrServes<V, E>(r: StartResult<V>, entry: QueryState<V, E>) {
    || (r.Fresh? && entry.data == Some(r.data))
    || (r.Joined? && entry.promise == Some(r.attempt))
  }

  /**
   * While a promise is registered for `key`, any number of further calls
   * invoke no fetcher and change nothing: each one either gets fresh data or
   * joins that very promise.
   */
  lemma {:induction false} StartsWhilePending<V, E>(c: Cache<V, E>, key: string, calls: seq<Call>, next: AttemptId)
    requires HasPending(c, key)
    ensures StartAll(c, key, calls, next).1 == c
    ensures Invocations(StartAll(c, key, calls, next).0) == 0
    ensures forall i :: 0 <= i < |calls| ==> JoinsOrServes(StartAll(c, key, calls, next).0[i], c[key])
    decreases |calls|
  {
    if calls != [] {
      var r := StartAll(c, key, calls, next);
      var first := StartStep(c, key, calls[0].now, calls[0].staleTime, next).0;
      StartsWhilePending(c, key, calls[1..], next);
      var tail := StartAll(c, key, calls[1..], next);
      assert r.0 == [first] + tail.0;
      assert r.0[1..] == tail.0;
      forall i | 0 <= i < |calls|
        ensures JoinsOrServes(r.0[i], c[key])
      {
        if i > 0 { assert r.0[i] == tail.0[i - 1]; }
      }
    }
  }

  /**
   * Single flight: however many calls for one key arrive before an attempt
   * completes, the fetcher is invoked at most once; and if the first call
   * finds neither fresh data nor a pending promise it is invoked exactly once.
   */
  lemma {:induction false} SingleFlight<V, E>(c: Cache<V, E>, key: string, calls: seq<Call>, next: AttemptId)
    ensures Invocations(StartAll(c, key, calls, next).0) <= 1
    ensures calls != [] && !ServesFresh(c, key, calls[0].now, calls[0].staleTime) && !HasPending(c, key)
      ==> Invocations(StartAll(c, key, calls, next).0) == 1
    decreases |calls|
  {
    if calls != [] {
      var r := StartAll(c, key, calls, next);
      var (first, c') := StartStep(c, key, calls[0].now, calls[0].staleTime, next);
      var tail := StartAll(c', key, calls[1..], if first.Started? then next + 1 else next);
      assert r.0 == [first] + tail.0;
      assert r.0[1..] == tail.0;
      if first.Started? {
        StartsWhilePending(c', key, calls[1..], next + 1);
      } else if first.Joined? {
        StartsWhilePending(c', key, calls[1..], next);
      } else {
        SingleFlight(c', key, calls[1..], next);
      }
    }
  }

  /**
   * Invalidate-then-fetch always calls the fetcher, even inside a freshness
   * window and even while another attempt for the key is in flight.
   */
  lemma InvalidateThenStart<V, E>(c: Cache<V, E>, key: string, now: int, staleTime: Option<int>, next: AttemptId)
    ensures StartStep(InvalidateStep(c, Some(key)), key, now, staleTime, next).0 == Started(next)
  {
  }

  /**
   * The freshness window: right after a successful completion at `t`, a call
   * with stale time `s` is served from the cache exactly when `t` and `s` are
   * non-zero and `now - t < s`; otherwise the fetcher is called again.
   */
  lemma FreshWindow<V, E>(c: Cache<V, E>, key: string, v: V, t: int, now: int, s: int, next: AttemptId)
    ensures StartStep(CompleteStep(c, key, Ok(v), t), key, now, Some(s), next).0
         == if t != 0 && s != 0 && now - t < s then Fresh(v) else Started(next)
  {
  }

  /** Freshness only runs out as time advances: data fresh at some time was fresh at every earlier time. */
  lemma FreshnessOnlyExpires<V, E>(c: Cache<V, E>, key: string, t1: int, t2: int, staleTime: Option<int>)
    requires t1 <= t2 && ServesFresh(c, key, t2, staleTime)
    ensures ServesFresh(c, key, t1, staleTime)
  {
  }

  /**
   * A successful value followed by a failed refresh leaves no data in the
   * entry: the failure overwrites it and only the new error can be read.
   */
  lemma FailedRefreshDropsData<V, E>(c: Cache<V, E>, key: string, v: V, e: E, t1: int, now: int, s: Option<int>, next: AttemptId, t2: int)
    requires !ServesFresh(CompleteStep(c, key, Ok(v), t1), key, now, s)
    ensures var seeded := CompleteStep(c, key, Ok(v), t1);
            var started := StartStep(seeded, key, now, s, next);
            var failed := CompleteStep(started.1, key, Err(e), t2);
            && started.0 == Started(next)
            && DataOf(seeded, key) == Some(v)
            && DataOf(failed, key).None?
            && ErrorOf(failed, key) == Some(e)
  {
  }

  /**
   * Completions are ordered by when they happen, not by when their attempts
   * started: the later completion is the one the entry shows.
   */
  lemma LastCompletionWins<V, E>(c: Cache<V, E>, key: string, o1: Outcome<V, E>, t1: int, o2: Outcome<V, E>, t2: int)
    ensures CompleteStep(CompleteStep(c, key, o1, t1), key, o2, t2) == CompleteStep(c, key, o2, t2)
  {
  }

  /**
   * `.finally` does not check whose promise it strips: if another attempt for
   * the key was registered between the write and the `.finally`, its promise
   * is dropped too, and the next call starts a further attempt while that one
   * is still running.
   */
  lemma FinalizeDropsLaterPromise<V, E>(c: Cache<V, E>, key: string, now: int, s: Option<int>, next: AttemptId)
    requires HasPending(c, key) && !ServesFresh(c, key, now, s)
    ensures StartStep(c, key, now, s, next).0 == Joined(c[key].promise.value)
    ensures StartStep(FinalizeStep(c, key), key, now, s, next).0 == Started(next)
  {
  }

  // ---------------------------------------------------------------------------
  // The client object
  // ---------------------------------------------------------------------------

  /** `SimpleQueryClient`, with the fetcher calls it has made. */
  class QueryClient<V, E> {
    /** The private `cache` map. */
    var cache: Cache<V, E>
    /** Every fetcher call made through `fetchQuery`, by promise number. */
    var attempts: seq<Attempt<V, E>>

    /** A registered promise is always one whose fetcher is still running for that key. */
    ghost predicate Valid()
      reads this
    {
      forall k | k in cache && cache[k].promise.Some? ::
        cache[k].promise.value < |attempts| && attempts[cache[k].promise.value] == Running(k)
    }

    constructor ()
      ensures Valid()
      ensures cache == map[] && attempts == []
    {
      cache := map[];
      attempts := [];
    }

    /** `getQueryData(key)`. */
    function GetQueryData(key: string): (r: Option<V>)
      reads this
      ensures key !in cache ==> r.None?
      ensures key in cache ==> r == cache[key].data
    {
      DataOf(cache, key)
    }

    /** `getQueryError(key)`. */
    function GetQueryError(key: string): (r: Option<E>)
      reads this
      ensures key !in cache ==> r.None?
      ensures key in cache ==> r == cache[key].error
    {
      ErrorOf(cache, key)
    }

    /** The synchronous part of `fetchQuery(key, fetcher, {staleTime})`, at time `now`. */
    method Start(key: string, now: int, staleTime: Option<int>) returns (r: StartResult<V>)
      requires Valid()
      modifies this
      ensures Valid()
      ensures (r, cache) == StartStep(old(cache), key, now, staleTime, old(|attempts|))
      // the fetcher is called once when the attempt starts, and not otherwise
      ensures attempts == old(attempts) + (if r.Started? then [Running(key)] else [])
    {
      var step := StartStep(cache, key, now, staleTime, |attempts|);
      r := step.0;
      cache := step.1;
      if r.Started? {
        attempts := attempts + [Running(key)];
      }
    }

    /**
     * The `.then` or `.catch` callback of attempt `attempt` for `key`, run at
     * time `now`; returns how the promise handed out settles (the value, or the
     * same error rethrown).
     */
    method Complete(key: string, attempt: AttemptId, outcome: Outcome<V, E>, now: int) returns (r: Outcome<V, E>)
      requires Valid()
      requires attempt < |attempts| && attempts[attempt] == Running(key)
      modifies this
      ensures Valid()
      ensures cache == CompleteStep(old(cache), key, outcome, now)
      ensures attempts == old(attempts)[attempt := Written(key, outcome)]
      ensures r == outcome
    {
      cache := CompleteStep(cache, key, outcome, now);
      attempts := attempts[attempt := Written(key, outcome)];
      r := outcome;
    }

    /** The `.finally` callback of attempt `attempt`; afterwards its callers resume. */
    method Finalize(attempt: AttemptId)
      requires Valid()
      requires attempt < |attempts| && attempts[attempt].Written?
      modifies this
      ensures Valid()
      ensures cache == FinalizeStep(old(cache), old(attempts[attempt].key))
      ensures attempts == old(attempts)[attempt := Settled(old(attempts[attempt].key), old(attempts[attempt].outcome))]
    {
      var a := attempts[attempt];
      cache := FinalizeStep(cache, a.key);
      attempts := attempts[attempt := Settled(a.key, a.outcome)];
    }

    /** `invalidateQuery(key)`. */
    method InvalidateQuery(key: Option<string>)
      requires Valid()
      modifies this
      ensures Valid()
      ensures cache == InvalidateStep(old(cache), key)
      ensures attempts == old(attempts)
    {
      cache := InvalidateStep(cache, key);
    }
  }
}
