/**
 * The ArangoDB runner: a query, built once per run by the query builder it is given, is
 * run as an AQL statement whose rows come back as a list; `ClearCache` tries to restart the
 * database service over SSH and then waits one second.
 */
module ArangoDBBenchmark {
  import opened Wrappers
  import opened Text
  import opened BenchmarkResults
  import opened Runs

  /**
   * `ClearCache` after the log `h`: `systemctl restart arangodb3` over SSH when the
   * connection and the command go through (`sshWorks`), the error on the console when they
   * throw; a delay of 1000 ms either way.
   */
  function ArangoReset(sshWorks: seq<Event> -> bool, h: seq<Event>): seq<Event> {
    [Reset(if sshWorks(h) then ServiceRestarted else SshFailureLogged), Delayed(1000)]
  }

  /** `ArangoReset` as the `ClearCache` of a runner. */
  function ArangoResetOf(sshWorks: seq<Event> -> bool): seq<Event> -> seq<Event> {
    h => ArangoReset(sshWorks, h)
  }

  /** The rows of a result, each as text, joined with ", " (the sequential runs). */
  function RowsText(rows: seq<string>): string {
    JoinWith(rows, ", ")
  }

  /** The ArangoDB `ClearCache` appends one reset, then a delay, and nothing else. */
  lemma ArangoResetWellFormed(sshWorks: seq<Event> -> bool)
    ensures WellFormedReset(ArangoResetOf(sshWorks))
  {
    forall h
      ensures var e := ArangoResetOf(sshWorks)(h);
        ResetCount(e) == 1 && ClientResetOnly(e) && |e| >= 1
    {
      var x := Reset(if sshWorks(h) then ServiceRestarted else SshFailureLogged);
      SingletonCounts(x);
      SingletonCounts(Delayed(1000));
      CountsOfConcat([x], [Delayed(1000)]);
      assert ArangoResetOf(sshWorks)(h) == [x] + [Delayed(1000)];
    }
  }

  /** When SSH goes through, the restart reaches the database. */
  lemma ArangoRestartReachesServer(sshWorks: seq<Event> -> bool, h: seq<Event>)
    requires sshWorks(h)
    ensures ServerView(h + ArangoReset(sshWorks, h)) == ServerView(h) + [Reset(ServiceRestarted)]
  {
    var e := ArangoReset(sshWorks, h);
    ServerViewConcat(h, e);
    assert e == [Reset(ServiceRestarted)] + [Delayed(1000)];
    ServerViewConcat([Reset(ServiceRestarted)], [Delayed(1000)]);
    assert [Reset(ServiceRestarted)][..0] == [] && [Delayed(1000)][..0] == [];
  }

  /**
   * When SSH never goes through (the SSH client is given an empty host name), `ClearCache`
   * never reaches the database, and every "Cold" result gets the reply a warm execution
   * would get (`InvisibleResetSameReplies`).
   */
  lemma ArangoFailedSshInvisible(sshWorks: seq<Event> -> bool)
    requires forall h :: !sshWorks(h)
    ensures InvisibleReset(ArangoResetOf(sshWorks))
  {
    forall h
      ensures ServerView(h + ArangoResetOf(sshWorks)(h)) == ServerView(h)
    {
      assert h + ArangoResetOf(sshWorks)(h) == h + [Reset(SshFailureLogged)] + [Delayed(1000)];
      ServerViewSkips(h, Reset(SshFailureLogged));
      ServerViewSkips(h + [Reset(SshFailureLogged)], Delayed(1000));
    }
  }

  class BenchmarkArangoDB {
    /** The query builder call this runner measures (`Func<string>`). */
    const queryBuilder: () -> string
    const queryName: string
    /** The database behind the connection string and database name; a reply is a list of rows, each as text. */
    const server: Server<seq<string>>
    /** Whether the SSH connection and the restart command go through at a given point. */
    const sshWorks: seq<Event> -> bool
    /** `JsonConvert.SerializeObject(rows, Formatting.Indented)` (the parallel runs). */
    const serialize: seq<string> -> string
    /** Everything this runner has done so far, in order. */
    var log: seq<Event>

    /** The runner as the specification sees it. */
    function Config(): Runner<seq<string>> {
      Runner(server, queryName, ArangoResetOf(sshWorks))
    }

    constructor(queryBuilder: () -> string, queryName: string, server: Server<seq<string>>,
                sshWorks: seq<Event> -> bool, serialize: seq<string> -> string)
      ensures this.queryBuilder == queryBuilder && this.queryName == queryName && this.server == server
      ensures this.sshWorks == sshWorks && this.serialize == serialize
      ensures log == []
    {
      this.queryBuilder := queryBuilder;
      this.queryName := queryName;
      this.server := server;
      this.sshWorks := sshWorks;
      this.serialize := serialize;
      log := [];
    }

    method ClearCache()
      modifies this
      ensures log == old(log) + ArangoReset(sshWorks, old(log))
    {
      if sshWorks(log) {
        log := log + [Reset(ServiceRestarted)];
      } else {
        log := log + [Reset(SshFailureLogged)];
      }
      log := log + [Delayed(1000)];
    }

    /** Runs `query` as an AQL statement and returns its rows. */
    method ExecuteQuery(query: string) returns (result: seq<string>)
      modifies this
      ensures result == server.reply(ServerView(old(log)), query)
      ensures log == old(log) + [Executed(query)]
    {
      result := server.reply(ServerView(log), query);
      log := log + [Executed(query)];
    }

    /** `Stopwatch.StartNew()`. */
    method StartStopwatch()
      modifies this
      ensures log == old(log) + [TimerStarted]
    {
      log := log + [TimerStarted];
    }

    /** `stopwatch.Stop()`, then `ElapsedMilliseconds`. */
    method StopStopwatch() returns (elapsedMs: nat)
      modifies this
      ensures log == old(log) + [TimerStopped] && elapsedMs == server.clock(log)
    {
      log := log + [TimerStopped];
      elapsedMs := server.clock(log);
    }

    /** The `i`-th timed execution of `query` in a series labelled `cacheLabel`, and its result. */
    method TimedRun(query: string, render: seq<string> -> string, cacheLabel: Label, i: nat) returns (result: BenchmarkResult)
      modifies this
      ensures log == old(log) + Window(query)
      ensures result == SampleResult(Config(), render, cacheLabel, query, old(log), i)
    {
      StartStopwatch();
      var output := ExecuteQuery(query);
      var elapsedMs := StopStopwatch();
      assert log == old(log) + Window(query);
      result := BenchmarkResult(Some(queryName), elapsedMs, Some(LabelText(cacheLabel, i)), Some(render(output)));
    }

    /** The untimed warm-up executions. */
    method Warmup(query: string, warmupRuns: int)
      modifies this
      ensures log == Warmups(old(log), query, Max0(warmupRuns))
    {
      var i := 0;
      while i < warmupRuns
        invariant 0 <= i <= Max0(warmupRuns)
        invariant log == Warmups(old(log), query, i)
      {
        var _ := ExecuteQuery(query);
        i := i + 1;
      }
    }

    /** The `i`-th sample of a series started after `h`: a `ClearCache` when `resetEach` holds, then a timed run. */
    method Sample(query: string, render: seq<string> -> string, resetEach: bool, cacheLabel: Label, ghost h: seq<Event>, i: nat)
      returns (result: BenchmarkResult)
      requires log == SampleLog(ArangoResetOf(sshWorks), resetEach, query, h, i)
      modifies this
      ensures log == SampleLog(ArangoResetOf(sshWorks), resetEach, query, h, i + 1)
      ensures result == SampleResult(Config(), render, cacheLabel, query, SampleStart(ArangoResetOf(sshWorks), resetEach, query, h, i), i)
    {
      if resetEach {
        ClearCache();
      }
      assert log == SampleStart(ArangoResetOf(sshWorks), resetEach, query, h, i);
      result := TimedRun(query, render, cacheLabel, i);
    }

    /**
     * `runs` timed executions of `query`, each preceded by `ClearCache` when `resetEach`
     * holds, labelled by `cacheLabel`, with the rows rendered by `render`; `times` holds the
     * stopwatch readings.
     */
    method Samples(query: string, render: seq<string> -> string, runs: int, resetEach: bool, cacheLabel: Label)
      returns (results: seq<BenchmarkResult>, times: seq<int>)
      modifies this
      ensures log == SampleLog(ArangoResetOf(sshWorks), resetEach, query, old(log), Max0(runs))
      ensures results == SampleResults(Config(), render, resetEach, cacheLabel, query, old(log), Max0(runs))
      ensures |times| == Max0(runs)
    {
      ghost var h := log;
      results, times := [], [];
      var i := 0;
      while i < runs
        invariant 0 <= i <= Max0(runs)
        invariant log == SampleLog(ArangoResetOf(sshWorks), resetEach, query, h, i)
        invariant results == SampleResults(Config(), render, resetEach, cacheLabel, query, h, i)
        invariant |times| == i
      {
        var result := Sample(query, render, resetEach, cacheLabel, h, i);
        SampleResultsSnoc(Config(), render, resetEach, cacheLabel, query, h, i);
        results := results + [result];
        times := times + [result.executionTimeMs];
        i := i + 1;
      }
    }

    /**
     * Builds the query, runs the warm-ups, then `benchmarkRuns` warm and `benchmarkRuns`
     * cold timed executions; fails when the warm times are averaged and there are none.
     */
    method RunNonParallelTests(warmupRuns: int, benchmarkRuns: int)
      returns (res: Result<seq<BenchmarkResult>, RunError>)
      modifies this
      ensures log == NonParallelLog(ArangoResetOf(sshWorks), queryBuilder(), old(log), warmupRuns, benchmarkRuns)
      ensures res == NonParallelResults(Config(), RowsText, queryBuilder(), old(log), warmupRuns, benchmarkRuns)
    {
      var query := queryBuilder();
      log := log + [QueryBuilt(query)];
      Warmup(query, warmupRuns);
      var warm, warmTimes := Samples(query, RowsText, benchmarkRuns, false, Fixed("Warm"));
      if |warmTimes| == 0 {
        return Failure(AverageOfEmptyList);
      }
      var cold, coldTimes := Samples(query, RowsText, benchmarkRuns, true, Fixed("Cold"));
      return Success(warm + cold);
    }

    /**
     * Builds the query, runs the warm-ups, then one warm execution per client, one
     * `ClearCache` and one cold execution per client, the clients taken one after another;
     * fails when the warm times are averaged and there are none. `benchmarkRuns` is unused.
     */
    method RunParallelTests(warmupRuns: int, benchmarkRuns: int, parallelClients: int)
      returns (res: Result<seq<BenchmarkResult>, RunError>)
      modifies this
      ensures log == ParallelLog(ArangoResetOf(sshWorks), queryBuilder(), old(log), warmupRuns, parallelClients)
      ensures res == ParallelResults(Config(), serialize, queryBuilder(), old(log), warmupRuns, parallelClients)
    {
      var query := queryBuilder();
      log := log + [QueryBuilt(query)];
      Warmup(query, warmupRuns);
      var warm, warmTimes := Samples(query, serialize, parallelClients, false, Client("Warm", parallelClients));
      if |warmTimes| == 0 {
        return Failure(AverageOfEmptyList);
      }
      ClearCache();
      var cold, coldTimes := Samples(query, serialize, parallelClients, false, Client("Cold", parallelClients));
      return Success(warm + cold);
    }
  }
}
