// The HTTP face and the garbage collector of the ruleset cache
// (internal/rulesets/cache/server.go).
//
// Requests are reduced to their method and URL path; a response to its status
// code, content type and body. The JSON and RFC 3339 renderings of a body are
// not modelled: a body names the values it would carry.
module CacheServer {
  import opened Wrappers
  import opened Strings
  import opened Cache

  const NanosPerSecond: int := 1_000_000_000

  /** How often the collector runs: 5 minutes. */
  const CacheGCInterval: int := 5 * 60 * NanosPerSecond

  /** Age after which a version is stale: 24 hours. */
  const CacheMaxAge: int := 24 * 60 * 60 * NanosPerSecond

  /** Byte budget of the whole cache: 100 MiB. */
  const CacheMaxSize: int := 100 * 1024 * 1024

  /** GarbageCollectionConfig; durations in nanoseconds. */
  datatype GarbageCollectionConfig = GarbageCollectionConfig(gcInterval: int, maxAge: int, maxSize: int)

  /** DefaultGC */
  function DefaultGC(): (c: GarbageCollectionConfig)
    ensures c.gcInterval == 300 * NanosPerSecond && c.maxAge == 86400 * NanosPerSecond
    ensures c.maxSize == 104857600
  {
    GarbageCollectionConfig(CacheGCInterval, CacheMaxAge, CacheMaxSize)
  }

  /** The configuration NewServer settles on: the given one unchanged, or the
      defaults when none is given. */
  function SelectGC(gc: Option<GarbageCollectionConfig>): (c: GarbageCollectionConfig)
    ensures gc.Some? ==> c == gc.value
    ensures gc.None? ==> c == DefaultGC()
  {
    match gc
    case Some(g) => g
    case None => DefaultGC()
  }

  // ---------------------------------------------------------------------------
  // Routing
  // ---------------------------------------------------------------------------

  datatype Body =
    | Text(message: string)                      // http.Error
    | LatestJson(uuid: string, timestamp: int)   // LatestResponse
    | EntryJson(entry: RuleSetEntry)             // the entry itself

  datatype Response = Response(status: int, contentType: string, body: Body)

  /** What http.Error writes: the message and a newline, as plain text. */
  function ErrorResponse(status: int, message: string): Response
  {
    Response(status, "text/plain; charset=utf-8", Text(message + "\n"))
  }

  /** The decision handleRules takes before it consults the cache. */
  datatype Route =
    | MethodNotAllowed
    | InstanceRequired
    | LatestOf(instance: string)
    | RulesOf(instance: string)

  function RouteRequest(httpMethod: string, urlPath: string): Route
  {
    if httpMethod != "GET" then MethodNotAllowed
    else
      var path := TrimPrefix(urlPath, "/rules/");
      if path == "" then InstanceRequired
      else if HasSuffix(path, "/latest") then LatestOf(TrimSuffix(path, "/latest"))
      else RulesOf(path)
  }

  /** The response handleRules writes, given the cache contents. */
  function Serve(httpMethod: string, urlPath: string, m: Store): Response
  {
    match RouteRequest(httpMethod, urlPath)
    case MethodNotAllowed => ErrorResponse(405, "Method not allowed")
    case InstanceRequired => ErrorResponse(400, "Instance name required")
    case LatestOf(instance) =>
      (match Lookup(m, instance)
       case None => ErrorResponse(404, "Instance not found")
       case Some(e) => Response(200, "application/json", LatestJson(e.uuid, e.timestamp)))
    case RulesOf(instance) =>
      (match Lookup(m, instance)
       case None => ErrorResponse(404, "Instance not found")
       case Some(e) => Response(200, "application/json", EntryJson(e)))
  }

  /** Every method but GET is refused, whatever the path and the cache. */
  lemma ServeRejectsOtherMethods(httpMethod: string, urlPath: string, m: Store)
    ensures Serve(httpMethod, urlPath, m).status == 405 <==> httpMethod != "GET"
  {
  }

  /** A GET is a bad request exactly when nothing is left after "/rules/". */
  lemma ServeRequiresInstance(urlPath: string, m: Store)
    ensures Serve("GET", urlPath, m).status == 400 <==> TrimPrefix(urlPath, "/rules/") == ""
  {
  }

  lemma TrimLatest(instance: string)
    ensures HasSuffix(instance + "/latest", "/latest")
    ensures TrimSuffix(instance + "/latest", "/latest") == instance
    ensures TrimPrefix("/rules/" + instance + "/latest", "/rules/") == instance + "/latest"
  {
    assert ("/rules/" + instance + "/latest")[..7] == "/rules/";
    assert ("/rules/" + instance + "/latest")[7..] == instance + "/latest";
    assert (instance + "/latest")[..|instance|] == instance;
  }

  /** GET /rules/<instance>/latest answers with the UUID and timestamp of the
      newest version of any known instance, and 404 for an unknown one. */
  lemma ServeLatestPath(instance: string, m: Store)
    requires WellFormedStore(m)
    ensures var r := Serve("GET", "/rules/" + instance + "/latest", m);
      if instance in m then
        var e := m[instance].entries[|m[instance].entries| - 1];
        r == Response(200, "application/json", LatestJson(e.uuid, e.timestamp))
      else r == ErrorResponse(404, "Instance not found")
  {
    TrimLatest(instance);
    LookupWellFormed(m, instance);
  }

  /** GET /rules/<instance> answers with the newest version itself, for every
      non-empty name that does not itself end in "/latest". */
  lemma ServeRulesPath(instance: string, m: Store)
    requires WellFormedStore(m) && instance != "" && !HasSuffix(instance, "/latest")
    ensures var r := Serve("GET", "/rules/" + instance, m);
      if instance in m then
        r == Response(200, "application/json", EntryJson(m[instance].entries[|m[instance].entries| - 1]))
      else r == ErrorResponse(404, "Instance not found")
  {
    assert ("/rules/" + instance)[..7] == "/rules/";
    assert ("/rules/" + instance)[7..] == instance;
    LookupWellFormed(m, instance);
  }

  /** The two endpoints never disagree: when both answer 200, the latest
      metadata names the very entry the rules endpoint serves. */
  lemma LatestAgreesWithRules(instance: string, m: Store)
    requires instance != "" && !HasSuffix(instance, "/latest")
    requires Serve("GET", "/rules/" + instance + "/latest", m).status == 200
    ensures var e := Serve("GET", "/rules/" + instance, m).body;
      e.EntryJson? && Serve("GET", "/rules/" + instance + "/latest", m).body == LatestJson(e.entry.uuid, e.entry.timestamp)
  {
    TrimLatest(instance);
    assert ("/rules/" + instance)[..7] == "/rules/";
    assert ("/rules/" + instance)[7..] == instance;
  }

  // ---------------------------------------------------------------------------
  // Garbage collection
  // ---------------------------------------------------------------------------

  /** The cache after one tick of rungc: prune by age, then by size only when
      the total still exceeds the budget. */
  ghost function GcTickModel(m: Store, now: int, gc: GarbageCollectionConfig, order: seq<string>): Store
  {
    var aged := PruneByAgeModel(m, now, gc.maxAge);
    if TotalSizeOf(aged) > gc.maxSize then PruneBySizeModel(aged, order, TotalSizeOf(aged), gc.maxSize).store
    else aged
  }

  /** A tick keeps the cache well-formed and never changes what is served. */
  lemma GcTickKeepsLatest(m: Store, now: int, gc: GarbageCollectionConfig, order: seq<string>)
    requires WellFormedStore(m)
    ensures WellFormedStore(GcTickModel(m, now, gc, order))
    ensures GcTickModel(m, now, gc, order).Keys == m.Keys
    ensures forall i :: Lookup(GcTickModel(m, now, gc, order), i) == Lookup(m, i)
  {
    var aged := PruneByAgeModel(m, now, gc.maxAge);
    PruneByAgeModelFacts(m, now, gc.maxAge);
    PruneBySizeShape(aged, order, TotalSizeOf(aged), gc.maxSize);
    PruneBySizeKeepsLatest(aged, order, TotalSizeOf(aged), gc.maxSize);
  }

  /** After a tick over an order listing every instance once, the cache is
      within its byte budget or holds only latest versions. */
  lemma GcTickReachesLimit(m: Store, now: int, gc: GarbageCollectionConfig, order: seq<string>)
    requires WellFormedStore(m) && IsEnumeration(order, m.Keys)
    ensures var after := GcTickModel(m, now, gc, order);
      TotalSizeOf(after) <= gc.maxSize || forall i :: i in after ==> |after[i].entries| == 1
  {
    var aged := PruneByAgeModel(m, now, gc.maxAge);
    if TotalSizeOf(aged) > gc.maxSize {
      PruneByAgeModelFacts(m, now, gc.maxAge);
      PruneBySizeReachesLimit(aged, order, TotalSizeOf(aged), gc.maxSize);
      PruneBySizeAccounting(aged, order, TotalSizeOf(aged), gc.maxSize);
    }
  }

  /** When pruning by age already meets the budget, the size pass does not run. */
  lemma GcTickAgeSuffices(m: Store, now: int, gc: GarbageCollectionConfig, order: seq<string>)
    requires TotalSizeOf(PruneByAgeModel(m, now, gc.maxAge)) <= gc.maxSize
    ensures GcTickModel(m, now, gc, order) == PruneByAgeModel(m, now, gc.maxAge)
  {
  }

  /** What a tick logs: the counts removed by each pass (0 for a pass that did
      not run or removed nothing) and whether the critical over-budget error fired. */
  datatype GcReport = GcReport(prunedByAge: int, prunedBySize: int, overBudget: bool)

  class RuleSetCacheServer {
    const cache: RuleSetCache
    const gc: GarbageCollectionConfig

    /** NewServer: the HTTP listener itself is not modelled. */
    constructor (cache: RuleSetCache, gc: Option<GarbageCollectionConfig>)
      ensures this.cache == cache && this.gc == SelectGC(gc)
    {
      this.cache := cache;
      this.gc := SelectGC(gc);
    }

    /** handleRules with handleLatest and handleGetRules. */
    method HandleRules(httpMethod: string, urlPath: string) returns (resp: Response)
      ensures resp == Serve(httpMethod, urlPath, cache.entries)
    {
      if httpMethod != "GET" {
        return ErrorResponse(405, "Method not allowed");
      }
      var path := TrimPrefix(urlPath, "/rules/");
      if path == "" {
        return ErrorResponse(400, "Instance name required");
      }
      if HasSuffix(path, "/latest") {
        var instance := TrimSuffix(path, "/latest");
        var entry := cache.Get(instance);
        if entry.None? {
          return ErrorResponse(404, "Instance not found");
        }
        return Response(200, "application/json", LatestJson(entry.value.uuid, entry.value.timestamp));
      }
      var entry := cache.Get(path);
      if entry.None? {
        return ErrorResponse(404, "Instance not found");
      }
      return Response(200, "application/json", EntryJson(entry.value));
    }

    /** One tick of rungc at time now; order is the map iteration order the
        size pass would see. */
    method GcTick(now: int, order: seq<string>) returns (report: GcReport)
      requires cache.Valid() && IsEnumeration(order, cache.entries.Keys)
      modifies cache
      ensures cache.Valid()
      ensures cache.entries == GcTickModel(old(cache.entries), now, gc, order)
      ensures report.overBudget <==> TotalSizeOf(cache.entries) > gc.maxSize
      ensures report.prunedByAge == CountOf(old(cache.entries)) - CountOf(PruneByAgeModel(old(cache.entries), now, gc.maxAge))
      ensures var aged := PruneByAgeModel(old(cache.entries), now, gc.maxAge);
        report.prunedBySize == if TotalSizeOf(aged) > gc.maxSize then PruneBySizeModel(aged, order, TotalSizeOf(aged), gc.maxSize).pruned else 0
    {
      var prunedByAge := cache.Prune(gc.maxAge, now);
      var prunedBySize := 0;
      var overBudget := false;
      var currentSize := cache.TotalSize();
      if currentSize > gc.maxSize {
        prunedBySize := cache.PruneBySize(gc.maxSize, order);
        var finalSize := cache.TotalSize();
        overBudget := finalSize > gc.maxSize;
      }
      report := GcReport(prunedByAge, prunedBySize, overBudget);
    }
  }
}
