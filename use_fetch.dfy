/**
 * The consumer binding `useFetch` of src/shared/hooks/useFetch.ts.
 *
 * One `Fetch` object is one mounted consumer. Its state cells `data`, `error`
 * and `isLoading` are fields; each run of the effect gets its own `cancelled`
 * flag, kept in `cancelled` by run number. React's scheduling is replaced by
 * explicit events: `Activate` (the effect runs, on mount or when a dependency
 * changes), `Deactivate` (its cleanup runs), `Settle` (an awaited promise
 * settles and the suspended code resumes), `Refetch`, and `Rerender` (the
 * hook is called again with a new key or new options). The code suspended
 * at an `await` is kept in `waiting` under a ticket until it is settled.
 */
module UseFetch {
  import opened Optional
  import opened QueryCache
  import Json

  /** `staleTime` when the options give none. */
  const DEFAULT_STALE_TIME: int := 30000

  /** The `key` argument: a string, or an array. */
  datatype QueryKey = TextKey(text: string) | ArrayKey(items: seq<Json.Value>)

  /**
   * `serializeKey`: a string key is used as it is, an array key is replaced by
   * its `JSON.stringify` text, which reads back as the array.
   */
  function SerializeKey(key: QueryKey): (r: string)
    ensures key.TextKey? ==> r == key.text
    ensures key.ArrayKey? ==> |r| > 0 && r[0] == '[' && Json.Parse(r) == Some(Json.Canon(Json.Arr(key.items)))
  {
    match key
    case TextKey(s) => s
    case ArrayKey(items) =>
      Json.ParseText(Json.Arr(items));
      Json.Stringify(Json.Arr(items)).value
  }

  /**
   * Two array keys name the same cache entry exactly when they are equal once
   * `undefined` elements are read as `null` and `undefined` members dropped.
   */
  lemma ArrayKeysCollideOnlyWhenEqual(a: seq<Json.Value>, b: seq<Json.Value>)
    ensures SerializeKey(ArrayKey(a)) == SerializeKey(ArrayKey(b))
        <==> Json.Canon(Json.Arr(a)) == Json.Canon(Json.Arr(b))
  {
    Json.TextInjective(Json.Arr(a), Json.Arr(b));
  }

  /** String keys and array keys share one name space: the string `[1]` and the array `[1]` meet. */
  lemma TextAndArrayKeysMeet()
    ensures SerializeKey(TextKey("[1]")) == SerializeKey(ArrayKey([Json.Num(1)]))
  {
    assert Json.NatText(1) == "1";
  }

  /** The options object; `deps` is represented by re-activation. */
  datatype Options = Options(enabled: Option<bool>, staleTime: Option<int>)

  /** The consumer's observable state. */
  datatype View<V, E> = View(data: Option<V>, error: Option<E>, isLoading: bool)

  /**
   * The state cells as `useState` initialises them from the cache's snapshot:
   * the error only when enabled, and loading when enabled and nothing is cached.
   */
  function InitialView<V, E>(snapshot: Option<V>, snapshotError: Option<E>, enabled: bool): (r: View<V, E>)
    ensures r.data == snapshot
    ensures enabled ==> r.error == snapshotError
    ensures !enabled ==> r.error.None?
    ensures r.isLoading <==> enabled && snapshot.None?
  {
    View(snapshot, if enabled then snapshotError else None, enabled && snapshot.None?)
  }

  /**
   * What a settlement that is acted on does: success sets the data and clears
   * the error, failure sets the error and leaves the data; loading ends.
   */
  function SettleView<V, E>(before: View<V, E>, outcome: Outcome<V, E>): (r: View<V, E>)
    ensures outcome.Ok? ==> r.data == Some(outcome.value) && r.error.None?
    ensures outcome.Err? ==> r.error == Some(outcome.error) && r.data == before.data
    ensures !r.isLoading
  {
    match outcome
    case Ok(v) => View(Some(v), None, false)
    case Err(e) => View(before.data, Some(e), false)
  }

  /** A suspended `await`: inside the effect's run number `run`, or inside `execute` when `run` is `None`. */
  datatype Continuation<V> = Continuation(run: Option<nat>, awaited: StartResult<V>)

  /** What `refetch()` gives back at once: the data (when disabled), or a ticket to settle. */
  datatype RefetchCall<V> = Done(value: Option<V>) | Pending(ticket: nat)

  class Fetch<V, E> {
    const client: QueryClient<V, E>
    /** Recomputed from the arguments on every render. */
    var cacheKey: string
    var enabled: bool
    var staleTime: int

    var data: Option<V>
    var error: Option<E>
    var isLoading: bool

    /** The `cancelled` flag of each run of the effect so far. */
    var cancelled: seq<bool>
    /** The run whose cleanup has not run yet. */
    var current: Option<nat>
    /** Suspended code, by ticket. */
    var waiting: map<nat, Continuation<V>>
    var nextTicket: nat

    /** Only the run whose cleanup is pending is live; tickets are fresh. */
    ghost predicate Valid()
      reads this
    {
      && (current.Some? ==> current.value < |cancelled|)
      && (forall r :: 0 <= r < |cancelled| ==> (!cancelled[r] <==> current == Some(r)))
      && (forall t | t in waiting :: t < nextTicket)
      && (forall t | t in waiting && waiting[t].run.Some? :: waiting[t].run.value < |cancelled|)
    }

    function Observed(): View<V, E>
      reads this
    {
      View(data, error, isLoading)
    }

    /** What the latest render's arguments set: the serialised key, `enabled` and `staleTime`. */
    function Settings(): (string, bool, int)
      reads this
    {
      (cacheKey, enabled, staleTime)
    }

    /** The awaited promise has settled. */
    predicate Ready(k: Continuation<V>)
      reads client
    {
      match k.awaited
      case Fresh(_) => true
      case Joined(a) => a < |client.attempts| && client.attempts[a].Settled?
      case Started(a) => a < |client.attempts| && client.attempts[a].Settled?
    }

    /** How the awaited promise settled. */
    function OutcomeOf(k: Continuation<V>): Outcome<V, E>
      reads client
      requires Ready(k)
    {
      match k.awaited
      case Fresh(v) => Ok(v)
      case Joined(a) => client.attempts[a].outcome
      case Started(a) => client.attempts[a].outcome
    }

    /** The first render: `useFetch(key, fetcher, options)` with its defaults. */
    constructor (c: QueryClient<V, E>, key: QueryKey, options: Options)
      ensures Valid()
      ensures client == c && cacheKey == SerializeKey(key)
      ensures enabled == options.enabled.GetOr(true)
      ensures staleTime == options.staleTime.GetOr(DEFAULT_STALE_TIME)
      ensures Observed() == InitialView(c.GetQueryData(cacheKey), c.GetQueryError(cacheKey), enabled)
      ensures cancelled == [] && current.None? && waiting == map[]
    {
      client := c;
      cacheKey := SerializeKey(key);
      enabled := options.enabled.GetOr(true);
      staleTime := options.staleTime.GetOr(DEFAULT_STALE_TIME);
      cancelled := [];
      current := None;
      waiting := map[];
      nextTicket := 0;
      new;
      data := c.GetQueryData(cacheKey);
      error := if enabled then c.GetQueryError(cacheKey) else None;
      isLoading := enabled && data.None?;
    }

    /** The effect's cleanup: sets the live run's `cancelled` flag. */
    method Deactivate()
      requires Valid()
      modifies this
      ensures Valid()
      ensures cancelled == if old(current).Some? then old(cancelled)[old(current).value := true] else old(cancelled)
      ensures current.None?
      ensures Observed() == old(Observed()) && waiting == old(waiting) && nextTicket == old(nextTicket)
      ensures Settings() == old(Settings())
    {
      if current.Some? {
        cancelled := cancelled[current.value := true];
        current := None;
      }
    }

    /**
     * The effect runs (React first runs the previous cleanup). When disabled
     * it does nothing else, and touches no cache. When data is already held it
     * only clears `isLoading`. Otherwise it sets `isLoading`, calls
     * `fetchQuery` and suspends.
     */
    method Activate(now: int) returns (ticket: Option<nat>)
      requires Valid() && client.Valid()
      modifies this, client
      ensures Valid() && client.Valid()
      ensures Settings() == old(Settings())
      // every earlier run is now cancelled
      ensures forall r :: 0 <= r < |old(cancelled)| ==> r < |cancelled| && cancelled[r]
      ensures !enabled ==> cancelled == old(Deactivated()) && current.None?
      ensures enabled ==> cancelled == old(Deactivated()) + [false] && current == Some(|old(cancelled)|)
      ensures !enabled || old(data).Some? ==>
        && client.cache == old(client.cache) && client.attempts == old(client.attempts)
        && ticket.None? && waiting == old(waiting)
        && Observed() == (if enabled then old(Observed()).(isLoading := false) else old(Observed()))
      ensures enabled && old(data).None? ==>
        && ticket == Some(old(nextTicket)) && waiting.Keys == old(waiting).Keys + {ticket.value}
        && waiting[ticket.value].run == current
        && (waiting[ticket.value].awaited, client.cache)
           == StartStep(old(client.cache), cacheKey, now, Some(staleTime), old(|client.attempts|))
        && client.attempts
           == old(client.attempts) + (if waiting[ticket.value].awaited.Started? then [Running(cacheKey)] else [])
        && Observed() == old(Observed()).(isLoading := true)
      ensures forall t | t in old(waiting) :: t in waiting && waiting[t] == old(waiting[t])
    {
      Deactivate();
      ticket := None;
      if !enabled {
        return;
      }
      var r := BeginRun();
      if data.Some? {
        isLoading := false;
        return;
      }
      isLoading := true;
      var t, s := Await(now, Some(r));
      ticket := Some(t);
    }

    /** A new run of the effect starts, with its `cancelled` flag clear. */
    method BeginRun() returns (r: nat)
      requires Valid() && current.None?
      modifies this
      ensures Valid()
      ensures r == |old(cancelled)| && cancelled == old(cancelled) + [false] && current == Some(r)
      ensures Observed() == old(Observed()) && waiting == old(waiting) && nextTicket == old(nextTicket)
      ensures Settings() == old(Settings())
    {
      r := |cancelled|;
      cancelled := cancelled + [false];
      current := Some(r);
    }

    /** `await queryClient.fetchQuery(cacheKey, fetcher, {staleTime})`, inside run `run` or inside `execute`. */
    method Await(now: int, run: Option<nat>) returns (ticket: nat, s: StartResult<V>)
      requires Valid() && client.Valid()
      requires run.Some? ==> run.value < |cancelled|
      modifies this, client
      ensures Valid() && client.Valid()
      ensures ticket == old(nextTicket) && waiting == old(waiting)[ticket := Continuation(run, s)]
      ensures (s, client.cache) == StartStep(old(client.cache), cacheKey, now, Some(staleTime), old(|client.attempts|))
      ensures client.attempts == old(client.attempts) + (if s.Started? then [Running(cacheKey)] else [])
      ensures cancelled == old(cancelled) && current == old(current) && Observed() == old(Observed())
      ensures Settings() == old(Settings())
    {
      s := client.Start(cacheKey, now, Some(staleTime));
      ticket := nextTicket;
      waiting := waiting[nextTicket := Continuation(run, s)];
      nextTicket := nextTicket + 1;
    }

    /** The flags as the cleanup leaves them. */
    ghost function Deactivated(): seq<bool>
      reads this
    {
      if current.Some? && current.value < |cancelled| then cancelled[current.value := true] else cancelled
    }

    /**
     * The awaited promise of `ticket` has settled and the suspended code
     * resumes. In a run it acts only while its `cancelled` flag is clear; in
     * `execute` it always acts, and returns the value, or `undefined` on failure.
     */
    method Settle(ticket: nat) returns (result: Option<V>)
      requires Valid()
      requires ticket in waiting && Ready(waiting[ticket])
      modifies this
      ensures Valid()
      ensures waiting == old(waiting) - {ticket}
      ensures cancelled == old(cancelled) && current == old(current) && Settings() == old(Settings())
      ensures var k := old(waiting[ticket]);
              var live := k.run.None? || !old(cancelled[k.run.value]);
              && Observed() == (if live then SettleView(old(Observed()), OutcomeOf(k)) else old(Observed()))
              && result == (if k.run.None? && OutcomeOf(k).Ok? then Some(OutcomeOf(k).value) else None)
    {
      var k := waiting[ticket];
      var outcome := OutcomeOf(k);
      waiting := waiting - {ticket};
      result := None;
      if k.run.None? || !cancelled[k.run.value] {
        match outcome {
          case Ok(v) =>
            data := Some(v);
            error := None;
            if k.run.None? {
              result := Some(v);
            }
          case Err(e) =>
            error := Some(e);
        }
        isLoading := false;
      }
    }

    /**
     * `refetch()`: invalidates the key (even when disabled), then `execute()`.
     * When enabled the fetcher is always called, whatever the cache held.
     */
    method Refetch(now: int) returns (r: RefetchCall<V>)
      requires Valid() && client.Valid()
      modifies this, client
      ensures Valid() && client.Valid()
      ensures cancelled == old(cancelled) && current == old(current) && Settings() == old(Settings())
      ensures !enabled ==>
        && r == Done(old(data))
        && client.cache == InvalidateStep(old(client.cache), Some(cacheKey))
        && client.attempts == old(client.attempts)
        && Observed() == old(Observed()) && waiting == old(waiting)
      ensures enabled ==>
        && r == Pending(old(nextTicket))
        && waiting == old(waiting)[r.ticket := Continuation(None, Started(old(|client.attempts|)))]
        && client.attempts == old(client.attempts) + [Running(cacheKey)]
        && client.cache
           == StartStep(InvalidateStep(old(client.cache), Some(cacheKey)), cacheKey, now, Some(staleTime), old(|client.attempts|)).1
        && Observed() == old(Observed()).(isLoading := true)
    {
      client.InvalidateQuery(Some(cacheKey));
      if !enabled {
        return Done(data);
      }
      isLoading := true;
      InvalidateThenStart(old(client.cache), cacheKey, now, Some(staleTime), |client.attempts|);
      var t, s := Await(now, None);
      r := Pending(t);
    }

    /**
     * A later render: `useFetch(key, fetcher, options)` is called again. The
     * key is serialised afresh and the options re-read, but the `useState`
     * initialisers do not run again, so the cells keep what they hold, even
     * when they belong to the previous key. Whether the effect then re-runs
     * is the caller's next event.
     */
    method Rerender(key: QueryKey, options: Options)
      requires Valid()
      modifies this
      ensures Valid()
      ensures Settings() == (SerializeKey(key), options.enabled.GetOr(true), options.staleTime.GetOr(DEFAULT_STALE_TIME))
      ensures Observed() == old(Observed())
      ensures cancelled == old(cancelled) && current == old(current)
      ensures waiting == old(waiting) && nextTicket == old(nextTicket)
    {
      cacheKey := SerializeKey(key);
      enabled := options.enabled.GetOr(true);
      staleTime := options.staleTime.GetOr(DEFAULT_STALE_TIME);
    }

    /**
     * A render with another key, while data is held, followed by the effect
     * that the key change sets off: the new key is never fetched and the
     * previous key's data and error stay on show.
     */
    method KeyChangeKeepsOldData(key: QueryKey, options: Options, now: int) returns (ticket: Option<nat>)
      requires Valid() && client.Valid() && data.Some?
      modifies this, client
      ensures Valid() && client.Valid()
      ensures cacheKey == SerializeKey(key)
      ensures ticket.None?
      ensures client.cache == old(client.cache) && client.attempts == old(client.attempts)
      ensures data == old(data) && error == old(error)
    {
      Rerender(key, options);
      ticket := Activate(now);
    }
  }
}
