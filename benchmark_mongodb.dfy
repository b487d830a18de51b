/**
 * The MongoDB runner: a query, built once per run by the query builder it is given, is
 * sent as a database command; `ClearCache` clears the query plan cache of `edges`.
 */
module MongoDBBenchmark {
  import opened Wrappers
  import opened BenchmarkResults
  import opened Runs

  /** `ClearCache`: a find with a fresh filter on `edges`, then `planCacheClear` on `edges`. */
  function MongoReset(h: seq<Event>): seq<Event> {
    [Reset(PlanCacheCleared)]
  }

  /** A command's reply, a BSON document, as its text. */
  function DocumentText(d: string): string {
    d
  }

  /** The MongoDB `ClearCache` appends one reset and nothing else. */
  lemma MongoResetWellFormed()
    ensures WellFormedReset(MongoReset)
  {
    forall h
      ensures ResetCount(MongoReset(h)) == 1 && ClientResetOnly(MongoReset(h)) && |MongoReset(h)| >= 1
    {
      SingletonCounts(Reset(PlanCacheCleared));
    }
  }

  /** The MongoDB `ClearCache` reaches the database: every later reply may depend on it. */
  lemma MongoResetReachesServer(h: seq<Event>)
    ensures ServerView(h + MongoReset(h)) == ServerView(h) + [Reset(PlanCacheCleared)]
  {
    assert (h + MongoReset(h))[..|h|] == h;
  }

  class BenchmarkMongoDB {
    /** The query builder call this runner measures (`Func<string>`). */
    const queryBuilder: () -> string
    const queryName: string
    /** The database behind the connection string and database name. */
    const server: Server<string>
    /** Everything this runner has done so far, in order. */
    var log: seq<Event>

    /** The runner as the specification sees it. */
    function Config(): Runner<string> {
      Runner(server, queryName, MongoReset)
    }

    constructor(queryBuilder: () -> string, queryName: string, server: Server<string>)
      ensures this.queryBuilder == queryBuilder && this.queryName == queryName && this.server == server
      ensures log == []
    {
      this.queryBuilder := queryBuilder;
      this.queryName := queryName;
      this.server := server;
      log := [];
    }

    method ClearCache()
      modifies this
      ensures log == old(log) + MongoReset(old(log))
    {
      log := log + [Reset(PlanCacheCleared)];
    }

    /** Sends `query` as a command; the reply depends on everything the database has seen. */
    method ExecuteQuery(query: string) returns (result: string)
      modifies this
      ensures result == server.reply(ServerView(old(log)), query)
      ensures log == old(log) + [Executed(query)]
    {
      result := server.reply(ServerView(log), query);
      log := log + [Executed(query)];
    }

    /** `Stopwatch.StartNew()`. */
    method StartStopwatch()
      modifies this
      ensures log == old(log) + [TimerStarted]
    {
      log := log + [TimerStarted];
    }

    /** `stopwatch.Stop()`, then `ElapsedMilliseconds`. */
    method StopStopwatch() returns (elapsedMs: nat)
      modifies this
      ensures log == old(log) + [TimerStopped] && elapsedMs == server.clock(log)
    {
      log := log + [TimerStopped];
      elapsedMs := server.clock(log);
    }

    /** The `i`-th timed execution of `query` in a series labelled `cacheLabel`, and its result. */
    method TimedRun(query: string, cacheLabel: Label, i: nat) returns (result: BenchmarkResult)
      modifies this
      ensures log == old(log) + Window(query)
      ensures result == SampleResult(Config(), DocumentText, cacheLabel, query, old(log), i)
    {
      StartStopwatch();
      var output := ExecuteQuery(query);
      var elapsedMs := StopStopwatch();
      assert log == old(log) + Window(query);
      result := BenchmarkResult(Some(queryName), elapsedMs, Some(LabelText(cacheLabel, i)), Some(DocumentText(output)));
    }

    /** The untimed warm-up executions. */
    method Warmup(query: string, warmupRuns: int)
      modifies this
      ensures log == Warmups(old(log), query, Max0(warmupRuns))
    {
      var i := 0;
      while i < warmupRuns
        invariant 0 <= i <= Max0(warmupRuns)
        invariant log == Warmups(old(log), query, i)
      {
        var _ := ExecuteQuery(query);
        i := i + 1;
      }
    }

    /** The `i`-th sample of a series started after `h`: a `ClearCache` when `resetEach` holds, then a timed run. */
    method Sample(query: string, resetEach: bool, cacheLabel: Label, ghost h: seq<Event>, i: nat)
      returns (result: BenchmarkResult)
      requires log == SampleLog(MongoReset, resetEach, query, h, i)
      modifies this
      ensures log == SampleLog(MongoReset, resetEach, query, h, i + 1)
      ensures result == SampleResult(Config(), DocumentText, cacheLabel, query, SampleStart(MongoReset, resetEach, query, h, i), i)
    {
      if resetEach {
        ClearCache();
      }
      assert log == SampleStart(MongoReset, resetEach, query, h, i);
      result := TimedRun(query, cacheLabel, i);
    }

    /**
     * `runs` timed executions of `query`, each preceded by `ClearCache` when `resetEach`
     * holds, labelled by `cacheLabel`; `times` holds the stopwatch readings.
     */
    method Samples(query: string, runs: int, resetEach: bool, cacheLabel: Label)
      returns (results: seq<BenchmarkResult>, times: seq<int>)
      modifies this
      ensures log == SampleLog(MongoReset, resetEach, query, old(log), Max0(runs))
      ensures results == SampleResults(Config(), DocumentText, resetEach, cacheLabel, query, old(log), Max0(runs))
      ensures |times| == Max0(runs)
    {
      ghost var h := log;
      results, times := [], [];
      var i := 0;
      while i < runs
        invariant 0 <= i <= Max0(runs)
        invariant log == SampleLog(MongoReset, resetEach, query, h, i)
        invariant results == SampleResults(Config(), DocumentText, resetEach, cacheLabel, query, h, i)
        invariant |times| == i
      {
        var result := Sample(query, resetEach, cacheLabel, h, i);
        SampleResultsSnoc(Config(), DocumentText, resetEach, cacheLabel, query, h, i);
        results := results + [result];
        times := times + [result.executionTimeMs];
        i := i + 1;
      }
    }

    /**
     * Builds the query, runs the warm-ups, then `benchmarkRuns` warm and `benchmarkRuns`
     * cold timed executions; fails when the warm times are averaged and there are none.
     */
    method RunNonParallelTests(warmupRuns: int, benchmarkRuns: int)
      returns (res: Result<seq<BenchmarkResult>, RunError>)
      modifies this
      ensures log == NonParallelLog(MongoReset, queryBuilder(), old(log), warmupRuns, benchmarkRuns)
      ensures res == NonParallelResults(Config(), DocumentText, queryBuilder(), old(log), warmupRuns, benchmarkRuns)
    {
      var query := queryBuilder();
      log := log + [QueryBuilt(query)];
      Warmup(query, warmupRuns);
      var warm, warmTimes := Samples(query, benchmarkRuns, false, Fixed("Warm"));
      if |warmTimes| == 0 {
        return Failure(AverageOfEmptyList);
      }
      var cold, coldTimes := Samples(query, benchmarkRuns, true, Fixed("Cold"));
      return Success(warm + cold);
    }

    /**
     * Builds the query, runs the warm-ups, then one warm execution per client, one
     * `ClearCache` and one cold execution per client, the clients taken one after another;
     * fails when the warm times are averaged and there are none. `benchmarkRuns` is unused.
     */
    method RunParallelTests(warmupRuns: int, benchmarkRuns: int, parallelClients: int)
      returns (res: Result<seq<BenchmarkResult>, RunError>)
      modifies this
      ensures log == ParallelLog(MongoReset, queryBuilder(), old(log), warmupRuns, parallelClients)
      ensures res == ParallelResults(Config(), DocumentText, queryBuilder(), old(log), warmupRuns, parallelClients)
    {
      var query := queryBuilder();
      log := log + [QueryBuilt(query)];
      Warmup(query, warmupRuns);
      var warm, warmTimes := Samples(query, parallelClients, false, Client("Warm", parallelClients));
      if |warmTimes| == 0 {
        return Failure(AverageOfEmptyList);
      }
      ClearCache();
      var cold, coldTimes := Samples(query, parallelClients, false, Client("Cold", parallelClients));
      return Success(warm + cold);
    }
  }
}
