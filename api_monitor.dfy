/**
 * `WildberriesSupplyAPIMonitor` (app/api_monitor.py): a read-through cache of
 * the coefficient feed and the loop that keeps calling it. The HTTP request
 * is not modelled; each call is handed the outcome the request would have
 * (`FetchOutcome`), and the refresh loop is handed the sequence of its
 * iterations (`Step`), which is where sleeping and `stop()` from another task
 * come in.
 */
module ApiMonitor {
  import opened Wrappers
  import opened Dto
  import opened Db

  /** What `make_request` yields: a snapshot, an `aiohttp.ClientError`, or any other exception. */
  datatype FetchOutcome = Fetched(data: seq<Entry>) | ClientError | OtherError

  /** An exception other than `aiohttp.ClientError`, escaping `get_supply_data`. */
  datatype MonitorError = Unhandled

  /** Python's `a // b`: the quotient rounded towards negative infinity. */
  function FloorDiv(a: int, b: int): (q: int)
    requires b != 0
    ensures b > 0 ==> b * q <= a < b * q + b
    ensures b < 0 ==> b * q + b < a <= b * q
  {
    if b > 0 || a % b == 0 then a / b else a / b - 1
  }

  /**
   * `60 // requests_per_minute`: the most whole seconds that fit
   * `requests_per_minute` times into a minute.
   */
  function CacheRefreshInterval(requestsPerMinute: int): (seconds: int)
    requires requestsPerMinute != 0
    ensures requestsPerMinute > 0 ==> seconds * requestsPerMinute <= 60 < (seconds + 1) * requestsPerMinute
    ensures requestsPerMinute > 60 ==> seconds == 0
    ensures requestsPerMinute < 0 ==> seconds < 0
  {
    FloorDiv(60, requestsPerMinute)
  }

  /** The default rate (6 per minute) refreshes every 10 seconds; `main` uses 5, every 12. */
  lemma DefaultRefreshIntervals()
    ensures CacheRefreshInterval(6) == 10
    ensures CacheRefreshInterval(5) == 12
  {
  }

  /** One iteration of the refresh loop: a fetch attempt, or `stop()` having been called. */
  datatype Step = Tick(fetch: FetchOutcome) | StopRequested

  /** How many requests the refresh loop issues over `steps`, from whether a snapshot is cached and whether it runs. */
  function RefreshRequests(cached: bool, running: bool, steps: seq<Step>): nat
    decreases |steps|
  {
    if !running || steps == [] then 0
    else match steps[0]
      case StopRequested => 0
      case Tick(f) =>
        if cached then RefreshRequests(true, true, steps[1..])
        else 1 + RefreshRequests(f.Fetched?, true, steps[1..])
  }

  /** The cache contents after the refresh loop has run over `steps`. */
  function RefreshedEntries(entries: map<string, Value>, running: bool, steps: seq<Step>): map<string, Value>
    decreases |steps|
  {
    if !running || steps == [] then entries
    else match steps[0]
      case StopRequested => entries
      case Tick(f) =>
        var next := if SupplyDataKey !in entries && f.Fetched? then entries[SupplyDataKey := Records(f.data)] else entries;
        RefreshedEntries(next, true, steps[1..])
  }

  /** Whether the loop is still running after `steps`: it was, and nobody stopped it. */
  function StillRunning(running: bool, steps: seq<Step>): bool
    decreases |steps|
  {
    if !running || steps == [] then running
    else match steps[0]
      case StopRequested => false
      case Tick(_) => StillRunning(true, steps[1..])
  }

  /** Once a snapshot is cached, no later iteration issues a request. */
  lemma {:induction false} CachedSnapshotStopsRequests(running: bool, steps: seq<Step>)
    ensures RefreshRequests(true, running, steps) == 0
    decreases |steps|
  {
    if running && steps != [] && steps[0].Tick? {
      CachedSnapshotStopsRequests(true, steps[1..]);
    }
  }

  /** Once a snapshot is cached, the loop leaves the cache exactly as it is. */
  lemma {:induction false} CachedSnapshotIsKept(entries: map<string, Value>, running: bool, steps: seq<Step>)
    requires SupplyDataKey in entries
    ensures RefreshedEntries(entries, running, steps) == entries
    decreases |steps|
  {
    if running && steps != [] && steps[0].Tick? {
      CachedSnapshotIsKept(entries, true, steps[1..]);
    }
  }

  /**
   * The loop issues at most one request per iteration, and writes no key other
   * than the snapshot's; once it has written the snapshot, that value stays.
   */
  lemma {:induction false} RefreshTouchesOnlySnapshot(entries: map<string, Value>, running: bool, steps: seq<Step>)
    ensures RefreshRequests(SupplyDataKey in entries, running, steps) <= |steps|
    ensures var after := RefreshedEntries(entries, running, steps);
      && (forall k :: k != SupplyDataKey ==> (k in after <==> k in entries) && (k in entries ==> after[k] == entries[k]))
      && (SupplyDataKey in entries ==> after == entries)
    decreases |steps|
  {
    if running && steps != [] && steps[0].Tick? {
      var f := steps[0].fetch;
      var next := if SupplyDataKey !in entries && f.Fetched? then entries[SupplyDataKey := Records(f.data)] else entries;
      RefreshTouchesOnlySnapshot(next, true, steps[1..]);
      if SupplyDataKey in entries {
        CachedSnapshotIsKept(entries, running, steps);
      }
    }
  }

  class WildberriesSupplyApiMonitor {
    const requestsPerMinute: int
    const cacheRefreshInterval: int
    const cacheManager: WildberriesCacheManager<Value>
    var isRunning: bool
    /** How many times `make_request` has been called. */
    ghost var requestsMade: nat

    /**
     * The monitor over a cache it shares with the bot; `60 // 0` raises
     * `ZeroDivisionError`, hence the precondition.
     */
    constructor (requestsPerMinute: int, cacheManager: WildberriesCacheManager<Value>)
      requires requestsPerMinute != 0
      ensures this.requestsPerMinute == requestsPerMinute && this.cacheManager == cacheManager
      ensures cacheRefreshInterval == CacheRefreshInterval(requestsPerMinute)
      ensures !isRunning && requestsMade == 0
    {
      this.requestsPerMinute := requestsPerMinute;
      this.cacheManager := cacheManager;
      cacheRefreshInterval := CacheRefreshInterval(requestsPerMinute);
      isRunning := false;
      requestsMade := 0;
    }

    /**
     * Any cached value, even an empty one, is returned without a request. On
     * a miss the request is made: a snapshot is stored and returned, a client
     * error gives an empty list and stores nothing, any other exception escapes.
     */
    method GetSupplyData(fetch: FetchOutcome) returns (r: Result<Value, MonitorError>)
      modifies this, cacheManager
      ensures isRunning == old(isRunning)
      ensures SupplyDataKey in old(cacheManager.entries) ==>
        && r == Ok(old(cacheManager.entries)[SupplyDataKey])
        && cacheManager.entries == old(cacheManager.entries)
        && requestsMade == old(requestsMade)
      ensures SupplyDataKey !in old(cacheManager.entries) ==>
        && requestsMade == old(requestsMade) + 1
        && match fetch
           case Fetched(data) =>
             r == Ok(Records(data)) && cacheManager.entries == old(cacheManager.entries)[SupplyDataKey := Records(data)]
           case ClientError =>
             r == Ok(Records([])) && cacheManager.entries == old(cacheManager.entries)
           case OtherError =>
             r == Err(Unhandled) && cacheManager.entries == old(cacheManager.entries)
    {
      var cached := cacheManager.Get(SupplyDataKey);
      if cached.Some? {
        return Ok(cached.value);
      }
      requestsMade := requestsMade + 1;
      match fetch
      case Fetched(data) =>
        cacheManager.Set(SupplyDataKey, Records(data));
        r := Ok(Records(data));
      case ClientError =>
        r := Ok(Records([]));
      case OtherError =>
        r := Err(Unhandled);
    }

    /**
     * `while self.is_running`: each iteration calls `GetSupplyData`, catching
     * and logging whatever escapes it, then sleeps; a `StopRequested` step is
     * `stop()` called during that sleep.
     */
    method StartCacheRefresh(steps: seq<Step>)
      modifies this, cacheManager
      ensures requestsMade == old(requestsMade) + RefreshRequests(SupplyDataKey in old(cacheManager.entries), old(isRunning), steps)
      ensures cacheManager.entries == RefreshedEntries(old(cacheManager.entries), old(isRunning), steps)
      ensures isRunning == StillRunning(old(isRunning), steps)
    {
      var i := 0;
      while isRunning && i < |steps|
        invariant 0 <= i <= |steps|
        invariant requestsMade + RefreshRequests(SupplyDataKey in cacheManager.entries, isRunning, steps[i..])
               == old(requestsMade) + RefreshRequests(SupplyDataKey in old(cacheManager.entries), old(isRunning), steps)
        invariant RefreshedEntries(cacheManager.entries, isRunning, steps[i..])
               == RefreshedEntries(old(cacheManager.entries), old(isRunning), steps)
        invariant StillRunning(isRunning, steps[i..]) == StillRunning(old(isRunning), steps)
        decreases |steps| - i
      {
        assert steps[i..][0] == steps[i] && steps[i..][1..] == steps[i + 1..];
        match steps[i] {
          case Tick(f) =>
            var _ := GetSupplyData(f);
          case StopRequested =>
            Stop();
        }
        i := i + 1;
      }
    }

    /**
     * `initialize`, then the refresh loop until stopped; the `finally` block
     * leaves the monitor stopped however the loop ends.
     */
    method Run(steps: seq<Step>)
      modifies this, cacheManager
      ensures !isRunning
      ensures requestsMade == old(requestsMade) + RefreshRequests(SupplyDataKey in old(cacheManager.entries), true, steps)
      ensures cacheManager.entries == RefreshedEntries(old(cacheManager.entries), true, steps)
    {
      cacheManager.Initialize();
      isRunning := true;
      StartCacheRefresh(steps);
      isRunning := false;
    }

    method Stop()
      modifies this
      ensures !isRunning
      ensures requestsMade == old(requestsMade)
    {
      isRunning := false;
    }
  }
}
