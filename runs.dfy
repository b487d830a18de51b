/**
 * What the three benchmark runners have in common: the log of what a runner does,
 * the backend as an oracle over that log, and the specification of a sequential and
 * of a parallel run. Each backend's class (BenchmarkMongoDB, BenchmarkOrientDB,
 * BenchmarkArangoDB) is proved to produce exactly the log and results specified here.
 */
module Runs {
  import opened Wrappers
  import opened Text
  import opened BenchmarkResults

  /** What one `ClearCache` call amounts to. */
  datatype ResetKind =
    | PlanCacheCleared   // MongoDB: a find with a fresh GUID filter, then `planCacheClear` on `edges`
    | ConsoleMessage     // OrientDB: a console line and nothing else
    | ServiceRestarted   // ArangoDB: `systemctl restart arangodb3` over SSH went through
    | SshFailureLogged   // ArangoDB: the SSH attempt threw and the message went to the console

  /** One step of a runner, in the order it happens. */
  datatype Event =
    | QueryBuilt(text: string)
    | Executed(query: string)
    | TimerStarted
    | TimerStopped
    | Reset(kind: ResetKind)
    | Delayed(ms: nat)

  /** The events that reach the database; timers, console lines and delays stay in the client. */
  predicate ReachesServer(e: Event) {
    e.Executed? || e == Reset(PlanCacheCleared) || e == Reset(ServiceRestarted)
  }

  /** The part of a log the database has seen, in order. */
  function ServerView(h: seq<Event>): (v: seq<Event>)
    ensures forall i | 0 <= i < |v| :: ReachesServer(v[i])
  {
    if h == [] then []
    else ServerView(h[..|h| - 1]) + (if ReachesServer(h[|h| - 1]) then [h[|h| - 1]] else [])
  }

  /** Appending an event the database does not see leaves its view unchanged. */
  lemma ServerViewSkips(h: seq<Event>, e: Event)
    requires !ReachesServer(e)
    ensures ServerView(h + [e]) == ServerView(h)
  {
    assert (h + [e])[..|h + [e]| - 1] == h;
  }

  /**
   * The backend: the reply to a query, given what the database has seen so far, and the
   * stopwatch reading at a point of the log.
   */
  datatype Server<R> = Server(reply: (seq<Event>, string) -> R, clock: seq<Event> -> nat)

  /** The fixed part of a runner: its backend, its query name and what its `ClearCache` appends to the log. */
  datatype Runner<R> = Runner(server: Server<R>, name: string, reset: seq<Event> -> seq<Event>)

  /** The reply the database gives to `q` after the log `h`. */
  function Reply<R>(r: Runner<R>, h: seq<Event>, q: string): R {
    r.server.reply(ServerView(h), q)
  }

  /** The `CacheType` of a result: a fixed word, or the client number within a parallel phase. */
  datatype Label = Fixed(text: string) | Client(phase: string, total: int)

  /** The label of the `i`-th result (from 0) of a phase. */
  function LabelText(l: Label, i: nat): string {
    match l
    case Fixed(t) => t
    case Client(p, n) => p + " (Parallel) Client: " + IntToString(i + 1) + ", Total Parallel Clients: " + IntToString(n)
  }

  /** `Average()` of an empty list of times throws. */
  datatype RunError = AverageOfEmptyList

  function Max0(n: int): nat {
    if n < 0 then 0 else n
  }

  /** `k` untimed executions of `q` after the log `h`. */
  function Warmups(h: seq<Event>, q: string, k: nat): seq<Event> {
    if k == 0 then h else Warmups(h, q, k - 1) + [Executed(q)]
  }

  /** The log a sample starts from: `h`, followed by a `ClearCache` when `resetEach` holds. */
  function BeforeSample(reset: seq<Event> -> seq<Event>, resetEach: bool, h: seq<Event>): seq<Event> {
    if resetEach then h + reset(h) else h
  }

  /** The log after `k` timed executions of `q` from `h`, each preceded by a `ClearCache` when `resetEach` holds. */
  function SampleLog(reset: seq<Event> -> seq<Event>, resetEach: bool, q: string, h: seq<Event>, k: nat): seq<Event> {
    if k == 0 then h else BeforeSample(reset, resetEach, SampleLog(reset, resetEach, q, h, k - 1)) + Window(q)
  }

  /** The log just before the `i`-th (from 0) timed execution of a series of samples. */
  function SampleStart(reset: seq<Event> -> seq<Event>, resetEach: bool, q: string, h: seq<Event>, i: nat): seq<Event> {
    BeforeSample(reset, resetEach, SampleLog(reset, resetEach, q, h, i))
  }

  /**
   * The result of the timed execution of the `i`-th sample, which starts after the log
   * `before`: named after the runner, labelled by position, with the reply the database
   * gave and the stopwatch reading at the end of its window.
   */
  function SampleResult<R>(r: Runner<R>, render: R -> string, cacheLabel: Label, q: string, before: seq<Event>, i: nat): BenchmarkResult {
    BenchmarkResult(Some(r.name), r.server.clock(before + Window(q)), Some(LabelText(cacheLabel, i)),
                    Some(render(Reply(r, before + [TimerStarted], q))))
  }

  /** The results of `k` samples, in order. */
  function SampleResults<R>(r: Runner<R>, render: R -> string, resetEach: bool, cacheLabel: Label,
                            q: string, h: seq<Event>, k: nat): seq<BenchmarkResult>
  {
    seq(k, i requires 0 <= i < k => SampleResult(r, render, cacheLabel, q, SampleStart(r.reset, resetEach, q, h, i), i))
  }

  /** The log up to the end of the warm phase: query build, warm-ups and `n` warm samples. */
  function WarmPhaseLog(reset: seq<Event> -> seq<Event>, q: string, h: seq<Event>, warmupRuns: int, n: nat): seq<Event> {
    SampleLog(reset, false, q, OpeningLog(q, h, warmupRuns), n)
  }

  /** The log after the query build and the warm-ups. */
  function OpeningLog(q: string, h: seq<Event>, warmupRuns: int): seq<Event> {
    Warmups(h + [QueryBuilt(q)], q, Max0(warmupRuns))
  }

  /**
   * The log of `RunNonParallelTests`: build the query, run the warm-ups, then
   * `benchmarkRuns` warm samples and `benchmarkRuns` cold ones. With no warm sample the
   * average of the warm times throws before the cold loop starts.
   */
  function NonParallelLog(reset: seq<Event> -> seq<Event>, q: string, h: seq<Event>,
                          warmupRuns: int, benchmarkRuns: int): seq<Event>
  {
    if benchmarkRuns <= 0 then OpeningLog(q, h, warmupRuns)
    else SampleLog(reset, true, q, WarmPhaseLog(reset, q, h, warmupRuns, benchmarkRuns), benchmarkRuns)
  }

  /** The results of `RunNonParallelTests`: the warm ones, then the cold ones, or the exception. */
  function NonParallelResults<R>(r: Runner<R>, render: R -> string, q: string, h: seq<Event>,
                                 warmupRuns: int, benchmarkRuns: int): Result<seq<BenchmarkResult>, RunError>
  {
    if benchmarkRuns <= 0 then Failure(AverageOfEmptyList)
    else
      var n := benchmarkRuns;
      var warm := SampleResults(r, render, false, Fixed("Warm"), q, OpeningLog(q, h, warmupRuns), n);
      var cold := SampleResults(r, render, true, Fixed("Cold"), q, WarmPhaseLog(r.reset, q, h, warmupRuns, n), n);
      Success(warm + cold)
  }

  /**
   * The log of `RunParallelTests`, with the clients of a phase taken one after another:
   * build the query, run the warm-ups, one warm sample per client, a single `ClearCache`,
   * then one cold sample per client. With no client the average of the warm times throws.
   */
  function ParallelLog(reset: seq<Event> -> seq<Event>, q: string, h: seq<Event>,
                       warmupRuns: int, parallelClients: int): seq<Event>
  {
    if parallelClients <= 0 then OpeningLog(q, h, warmupRuns)
    else
      var n := parallelClients;
      SampleLog(reset, false, q, BeforeSample(reset, true, WarmPhaseLog(reset, q, h, warmupRuns, n)), n)
  }

  /** The results of `RunParallelTests`: one warm result per client, then one cold one, or the exception. */
  function ParallelResults<R>(r: Runner<R>, render: R -> string, q: string, h: seq<Event>,
                              warmupRuns: int, parallelClients: int): Result<seq<BenchmarkResult>, RunError>
  {
    if parallelClients <= 0 then Failure(AverageOfEmptyList)
    else
      var n := parallelClients;
      var h2 := BeforeSample(r.reset, true, WarmPhaseLog(r.reset, q, h, warmupRuns, n));
      var warm := SampleResults(r, render, false, Client("Warm", n), q, OpeningLog(q, h, warmupRuns), n);
      var cold := SampleResults(r, render, false, Client("Cold", n), q, h2, n);
      Success(warm + cold)
  }

  /** The timed window around one execution. */
  function Window(q: string): seq<Event> {
    [TimerStarted, Executed(q), TimerStopped]
  }

  // ----- counting and shapes of logs -----

  function ExecutionCount(e: seq<Event>): nat {
    if e == [] then 0 else ExecutionCount(e[..|e| - 1]) + (if e[|e| - 1].Executed? then 1 else 0)
  }

  function ResetCount(e: seq<Event>): nat {
    if e == [] then 0 else ResetCount(e[..|e| - 1]) + (if e[|e| - 1].Reset? then 1 else 0)
  }

  function BuildCount(e: seq<Event>): nat {
    if e == [] then 0 else BuildCount(e[..|e| - 1]) + (if e[|e| - 1].QueryBuilt? then 1 else 0)
  }

  /** Every execution in `e` runs `q`. */
  predicate OnlyExecutes(e: seq<Event>, q: string) {
    forall i | 0 <= i < |e| :: e[i].Executed? ==> e[i].query == q
  }

  /** Every timer start in `e` is followed by exactly one execution of `q` and the timer stop. */
  predicate TimedWindows(e: seq<Event>, q: string) {
    forall i | 0 <= i < |e| && e[i] == TimerStarted :: i + 2 < |e| && e[i + 1] == Executed(q) && e[i + 2] == TimerStopped
  }

  /** Every timer start in `e` comes right after a `ClearCache`. */
  predicate ResetBeforeEachTimer(e: seq<Event>) {
    forall i | 0 <= i < |e| && e[i] == TimerStarted :: 1 <= i && (e[i - 1].Reset? || e[i - 1].Delayed?)
  }

  /** Events a `ClearCache` may append: resets and delays only. */
  predicate ClientResetOnly(e: seq<Event>) {
    forall i | 0 <= i < |e| :: e[i].Reset? || e[i].Delayed?
  }

  /** A `ClearCache` appends exactly one reset, possibly with delays, and nothing else. */
  ghost predicate WellFormedReset(reset: seq<Event> -> seq<Event>) {
    forall h :: ResetCount(reset(h)) == 1 && ClientResetOnly(reset(h)) && |reset(h)| >= 1
  }

  lemma {:induction false} CountsOfConcat(a: seq<Event>, b: seq<Event>)
    ensures ExecutionCount(a + b) == ExecutionCount(a) + ExecutionCount(b)
    ensures ResetCount(a + b) == ResetCount(a) + ResetCount(b)
    ensures BuildCount(a + b) == BuildCount(a) + BuildCount(b)
    decreases |b|
  {
    if b == [] {
      assert a + b == a;
    } else {
      var b' := b[..|b| - 1];
      assert (a + b)[..|a + b| - 1] == a + b';
      CountsOfConcat(a, b');
    }
  }

  lemma OnlyExecutesConcat(a: seq<Event>, b: seq<Event>, q: string)
    requires OnlyExecutes(a, q) && OnlyExecutes(b, q)
    ensures OnlyExecutes(a + b, q)
  {
    assert forall i | |a| <= i < |a + b| :: (a + b)[i] == b[i - |a|];
  }

  lemma TimedWindowsConcat(a: seq<Event>, b: seq<Event>, q: string)
    requires TimedWindows(a, q) && TimedWindows(b, q)
    ensures TimedWindows(a + b, q)
  {
    forall i | 0 <= i < |a + b| && (a + b)[i] == TimerStarted
      ensures i + 2 < |a + b| && (a + b)[i + 1] == Executed(q) && (a + b)[i + 2] == TimerStopped
    {
      if i < |a| {
        assert a[i] == TimerStarted;
      } else {
        assert b[i - |a|] == TimerStarted;
      }
    }
  }

  lemma ResetFirstConcat(a: seq<Event>, b: seq<Event>)
    requires ResetBeforeEachTimer(a) && ResetBeforeEachTimer(b) && (|b| >= 1 ==> b[0] != TimerStarted)
    ensures ResetBeforeEachTimer(a + b)
  {
    forall i | 0 <= i < |a + b| && (a + b)[i] == TimerStarted
      ensures 1 <= i && ((a + b)[i - 1].Reset? || (a + b)[i - 1].Delayed?)
    {
      if i < |a| {
        assert a[i] == TimerStarted;
      } else {
        assert b[i - |a|] == TimerStarted;
      }
    }
  }

  lemma ShapesOfConcat(a: seq<Event>, b: seq<Event>, q: string)
    ensures OnlyExecutes(a, q) && OnlyExecutes(b, q) ==> OnlyExecutes(a + b, q)
    ensures TimedWindows(a, q) && TimedWindows(b, q) ==> TimedWindows(a + b, q)
  {
    if OnlyExecutes(a, q) && OnlyExecutes(b, q) {
      OnlyExecutesConcat(a, b, q);
    }
    if TimedWindows(a, q) && TimedWindows(b, q) {
      TimedWindowsConcat(a, b, q);
    }
  }

  lemma SingletonCounts(x: Event)
    ensures ExecutionCount([x]) == (if x.Executed? then 1 else 0)
    ensures ResetCount([x]) == (if x.Reset? then 1 else 0)
    ensures BuildCount([x]) == (if x.QueryBuilt? then 1 else 0)
  {
    assert [x][..0] == [];
  }

  lemma WindowShape(q: string)
    ensures ExecutionCount(Window(q)) == 1 && ResetCount(Window(q)) == 0 && BuildCount(Window(q)) == 0
    ensures OnlyExecutes(Window(q), q) && TimedWindows(Window(q), q)
  {
    SingletonCounts(TimerStarted);
    SingletonCounts(Executed(q));
    SingletonCounts(TimerStopped);
    CountsOfConcat([TimerStarted], [Executed(q)]);
    CountsOfConcat([TimerStarted] + [Executed(q)], [TimerStopped]);
    assert Window(q) == [TimerStarted] + [Executed(q)] + [TimerStopped];
  }

  /** The events of a `ClearCache` contain no execution, no query build and no timer. */
  lemma {:induction false} ClientResetNoWork(e: seq<Event>, q: string)
    requires ClientResetOnly(e)
    ensures ExecutionCount(e) == 0 && BuildCount(e) == 0
    ensures OnlyExecutes(e, q) && TimedWindows(e, q) && ResetBeforeEachTimer(e)
    decreases |e|
  {
    if e != [] {
      var e' := e[..|e| - 1];
      assert ClientResetOnly(e') by {
        forall i | 0 <= i < |e'| ensures e'[i].Reset? || e'[i].Delayed? {
          assert e'[i] == e[i];
        }
      }
      ClientResetNoWork(e', q);
    }
  }

  /** A timed window right after the events of a `ClearCache` starts right after a reset or delay. */
  lemma ResetThenWindow(pre: seq<Event>, q: string)
    requires ClientResetOnly(pre) && |pre| >= 1
    ensures ResetBeforeEachTimer(pre + Window(q))
  {
    var b := pre + Window(q);
    assert forall i | 0 <= i < |pre| :: b[i] == pre[i];
    assert b[|pre|..] == Window(q);
    assert b[|pre| - 1] == pre[|pre| - 1];
  }

  /** One block of samples holds one execution and the resets of its `ClearCache`. */
  lemma BlockCounts(pre: seq<Event>, q: string)
    requires ClientResetOnly(pre)
    ensures var b := pre + Window(q);
      ExecutionCount(b) == 1 && ResetCount(b) == ResetCount(pre) && BuildCount(b) == 0
  {
    WindowShape(q);
    ClientResetNoWork(pre, q);
    CountsOfConcat(pre, Window(q));
  }

  /** In one block of samples, the only execution runs `q`. */
  lemma BlockOnlyExecutes(pre: seq<Event>, q: string)
    requires ClientResetOnly(pre)
    ensures OnlyExecutes(pre + Window(q), q)
  {
    WindowShape(q);
    ClientResetNoWork(pre, q);
    OnlyExecutesConcat(pre, Window(q), q);
  }

  /** In one block of samples, the timer brackets exactly the execution of `q`. */
  lemma BlockTimedWindows(pre: seq<Event>, q: string)
    requires ClientResetOnly(pre)
    ensures TimedWindows(pre + Window(q), q)
  {
    WindowShape(q);
    ClientResetNoWork(pre, q);
    TimedWindowsConcat(pre, Window(q), q);
  }

  /** A block that starts with a `ClearCache` starts the timer right after it. */
  lemma BlockResetFirst(pre: seq<Event>, q: string)
    requires ClientResetOnly(pre) && |pre| >= 1
    ensures ResetBeforeEachTimer(pre + Window(q)) && (pre + Window(q))[0] != TimerStarted
  {
    ResetThenWindow(pre, q);
    assert (pre + Window(q))[0] == pre[0];
  }

  /** What the `k`-th sample appends to what the first `k - 1` added. */
  lemma SampleSplit(reset: seq<Event> -> seq<Event>, resetEach: bool, q: string, h: seq<Event>, k: nat)
    requires k > 0
    ensures var l := SampleLog(reset, resetEach, q, h, k);
            var prev := SampleLog(reset, resetEach, q, h, k - 1);
            var pre := if resetEach then reset(prev) else [];
      |h| <= |prev| && |h| <= |l| && l[|h|..] == prev[|h|..] + (pre + Window(q))
  {
    SamplesExtend(reset, resetEach, q, h, k - 1);
    SampleBlock(reset, resetEach, q, h, k);
    var prev := SampleLog(reset, resetEach, q, h, k - 1);
    assert prev == prev[..|h|] + prev[|h|..];
  }

  // ----- properties of the specification -----

  /** `k` samples extend the log. */
  lemma {:induction false} SamplesExtend(reset: seq<Event> -> seq<Event>, resetEach: bool, q: string, h: seq<Event>, k: nat)
    ensures var l := SampleLog(reset, resetEach, q, h, k);
      |h| <= |l| && l[..|h|] == h
    decreases k
  {
    if k > 0 {
      SamplesExtend(reset, resetEach, q, h, k - 1);
    }
  }

  /**
   * Every result of `rs` is named `name`, labelled by its position with `l`, and carries an
   * output and a time.
   */
  predicate Labelled(rs: seq<BenchmarkResult>, name: string, l: Label) {
    forall j | 0 <= j < |rs| :: rs[j].queryName == Some(name) && rs[j].cacheType == Some(LabelText(l, j))
                              && rs[j].queryOutput.Some? && rs[j].executionTimeMs >= 0
  }

  /** `k` samples give `k` results, named after the runner and labelled by position. */
  lemma SamplesResults<R>(r: Runner<R>, render: R -> string, resetEach: bool, cacheLabel: Label,
                          q: string, h: seq<Event>, k: nat)
    ensures var rs := SampleResults(r, render, resetEach, cacheLabel, q, h, k);
      |rs| == k && Labelled(rs, r.name, cacheLabel)
  {
  }

  /** One more sample appends its result to those of the samples before it. */
  lemma SampleResultsSnoc<R>(r: Runner<R>, render: R -> string, resetEach: bool, cacheLabel: Label,
                             q: string, h: seq<Event>, k: nat)
    ensures SampleResults(r, render, resetEach, cacheLabel, q, h, k + 1)
         == SampleResults(r, render, resetEach, cacheLabel, q, h, k)
            + [SampleResult(r, render, cacheLabel, q, SampleStart(r.reset, resetEach, q, h, k), k)]
  {
    var a := SampleResults(r, render, resetEach, cacheLabel, q, h, k + 1);
    var b := SampleResults(r, render, resetEach, cacheLabel, q, h, k);
    assert forall j | 0 <= j < k :: a[j] == b[j];
  }

  /** Two phases of `n` results one after the other: the first labelled from 0, the second from 0 again. */
  lemma LabelledPhases(a: seq<BenchmarkResult>, b: seq<BenchmarkResult>, name: string, la: Label, lb: Label, n: nat)
    requires |a| == n && |b| == n && Labelled(a, name, la) && Labelled(b, name, lb)
    ensures var rs := a + b;
      && |rs| == 2 * n
      && (forall j | 0 <= j < |rs| :: rs[j].queryName == Some(name) && rs[j].queryOutput.Some?)
      && (forall j | 0 <= j < n :: rs[j].cacheType == Some(LabelText(la, j)))
      && (forall j | n <= j < |rs| :: rs[j].cacheType == Some(LabelText(lb, j - n)))
  {
    assert forall j | n <= j < |a + b| :: (a + b)[j] == b[j - n];
  }

  /** What the `k`-th sample appends: the events of a `ClearCache` when `resetEach` holds, then a window. */
  lemma SampleBlock(reset: seq<Event> -> seq<Event>, resetEach: bool, q: string, h: seq<Event>, k: nat)
    requires k > 0
    ensures var prev := SampleLog(reset, resetEach, q, h, k - 1);
            var pre := if resetEach then reset(prev) else [];
      SampleLog(reset, resetEach, q, h, k) == prev + (pre + Window(q))
  {
  }

  /** `k` samples add exactly `k` executions, no query build, and `k` resets exactly when `resetEach` holds. */
  lemma {:induction false} SamplesCounts(reset: seq<Event> -> seq<Event>, resetEach: bool, q: string, h: seq<Event>, k: nat)
    requires WellFormedReset(reset)
    ensures var l := SampleLog(reset, resetEach, q, h, k);
      |h| <= |l| &&
      var e := l[|h|..];
      && ExecutionCount(e) == k && BuildCount(e) == 0
      && ResetCount(e) == (if resetEach then k else 0)
    decreases k
  {
    if k == 0 {
      assert h[|h|..] == [];
    } else {
      var prev := SampleLog(reset, resetEach, q, h, k - 1);
      var pre := if resetEach then reset(prev) else [];
      SamplesCounts(reset, resetEach, q, h, k - 1);
      SampleSplit(reset, resetEach, q, h, k);
      assert ClientResetOnly(pre);
      BlockCounts(pre, q);
      CountsOfConcat(prev[|h|..], pre + Window(q));
    }
  }


  /** Every execution that `k` samples add runs `q`. */
  lemma {:induction false} SamplesOnlyExecute(reset: seq<Event> -> seq<Event>, resetEach: bool, q: string, h: seq<Event>, k: nat)
    requires WellFormedReset(reset)
    ensures var l := SampleLog(reset, resetEach, q, h, k);
      |h| <= |l| && OnlyExecutes(l[|h|..], q)
    decreases k
  {
    if k == 0 {
      assert h[|h|..] == [];
    } else {
      var prev := SampleLog(reset, resetEach, q, h, k - 1);
      var pre := if resetEach then reset(prev) else [];
      SamplesOnlyExecute(reset, resetEach, q, h, k - 1);
      SampleSplit(reset, resetEach, q, h, k);
      assert ClientResetOnly(pre);
      BlockOnlyExecutes(pre, q);
      OnlyExecutesConcat(prev[|h|..], pre + Window(q), q);
    }
  }


  /** Every timed window that `k` samples add holds exactly one execution of `q`. */
  lemma {:induction false} SamplesTimedWindows(reset: seq<Event> -> seq<Event>, resetEach: bool, q: string, h: seq<Event>, k: nat)
    requires WellFormedReset(reset)
    ensures var l := SampleLog(reset, resetEach, q, h, k);
      |h| <= |l| && TimedWindows(l[|h|..], q)
    decreases k
  {
    if k == 0 {
      assert h[|h|..] == [];
    } else {
      var prev := SampleLog(reset, resetEach, q, h, k - 1);
      var pre := if resetEach then reset(prev) else [];
      SamplesTimedWindows(reset, resetEach, q, h, k - 1);
      SampleSplit(reset, resetEach, q, h, k);
      assert ClientResetOnly(pre);
      BlockTimedWindows(pre, q);
      TimedWindowsConcat(prev[|h|..], pre + Window(q), q);
    }
  }


  /** When `resetEach` holds, every timed window that `k` samples add comes right after a `ClearCache`. */
  lemma {:induction false} SamplesResetFirst(reset: seq<Event> -> seq<Event>, resetEach: bool, q: string, h: seq<Event>, k: nat)
    requires WellFormedReset(reset)
    ensures var l := SampleLog(reset, resetEach, q, h, k);
      |h| <= |l| && (resetEach ==> ResetBeforeEachTimer(l[|h|..]))
    decreases k
  {
    if k == 0 {
      assert h[|h|..] == [];
    } else {
      var prev := SampleLog(reset, resetEach, q, h, k - 1);
      var pre := if resetEach then reset(prev) else [];
      SamplesResetFirst(reset, resetEach, q, h, k - 1);
      SampleSplit(reset, resetEach, q, h, k);
      assert ClientResetOnly(pre);
      if resetEach {
        BlockResetFirst(pre, q);
        ResetFirstConcat(prev[|h|..], pre + Window(q));
      }
    }
  }


  /** The query build and the warm-ups that open every run. */
  lemma {:induction false} OpeningShape(h: seq<Event>, q: string, k: nat)
    ensures var w := Warmups(h + [QueryBuilt(q)], q, k);
      && |h| < |w| && w[..|h|] == h
      && var e := w[|h|..];
      && e[0] == QueryBuilt(q) && BuildCount(e) == 1 && ExecutionCount(e) == k && ResetCount(e) == 0
      && OnlyExecutes(e, q) && TimedWindows(e, q)
  {
    var h0 := h + [QueryBuilt(q)];
    var w := Warmups(h0, q, k);
    WarmupsShape(h0, q, k);
    var e := w[|h|..];
    assert e == [QueryBuilt(q)] + w[|h0|..];
    CountsOfConcat([QueryBuilt(q)], w[|h0|..]);
    assert [QueryBuilt(q)][..0] == [];
    assert w[..|h|] == w[..|h0|][..|h|];
  }

  /** The warm-ups add `k` executions of `q` and nothing else. */
  lemma {:induction false} WarmupsShape(h: seq<Event>, q: string, k: nat)
    ensures var w := Warmups(h, q, k);
      && |w| == |h| + k && w[..|h|] == h
      && (forall i | |h| <= i < |w| :: w[i] == Executed(q))
      && ExecutionCount(w[|h|..]) == k && ResetCount(w[|h|..]) == 0 && BuildCount(w[|h|..]) == 0
    decreases k
  {
    if k > 0 {
      WarmupsShape(h, q, k - 1);
      var w0 := Warmups(h, q, k - 1);
      assert Warmups(h, q, k)[|h|..] == w0[|h|..] + [Executed(q)];
      CountsOfConcat(w0[|h|..], [Executed(q)]);
      assert [Executed(q)][..0] == [];
    } else {
      assert h[|h|..] == [];
    }
  }

  /** Counts and shapes of three pieces of log put together, from those of the pieces. */
  lemma ThreeParts(a: seq<Event>, b: seq<Event>, c: seq<Event>, q: string)
    ensures ExecutionCount(a + b + c) == ExecutionCount(a) + ExecutionCount(b) + ExecutionCount(c)
    ensures ResetCount(a + b + c) == ResetCount(a) + ResetCount(b) + ResetCount(c)
    ensures BuildCount(a + b + c) == BuildCount(a) + BuildCount(b) + BuildCount(c)
    ensures OnlyExecutes(a, q) && OnlyExecutes(b, q) && OnlyExecutes(c, q) ==> OnlyExecutes(a + b + c, q)
    ensures TimedWindows(a, q) && TimedWindows(b, q) && TimedWindows(c, q) ==> TimedWindows(a + b + c, q)
  {
    CountsOfConcat(a, b);
    CountsOfConcat(a + b, c);
    ShapesOfConcat(a, b, q);
    ShapesOfConcat(a + b, c, q);
  }

  /** What a log extended twice adds to its first part. */
  lemma DropPrefix(h: seq<Event>, m: seq<Event>, x: seq<Event>)
    requires |h| <= |m| && m[..|h|] == h
    ensures (m + x)[..|h|] == h && (m + x)[|h|..] == m[|h|..] + x
  {
    assert m == h + m[|h|..];
  }

  /** Two successive extensions of a log: what they add, together. */
  lemma TwoSuffixes(h: seq<Event>, h1: seq<Event>, h2: seq<Event>)
    requires |h| <= |h1| && h1[..|h|] == h
    requires |h1| <= |h2| && h2[..|h1|] == h1
    ensures |h| <= |h2| && h2[..|h|] == h
    ensures h2[|h|..] == h1[|h|..] + h2[|h1|..]
  {
    assert h1 == h + h1[|h|..];
    assert h2 == h1 + h2[|h1|..];
  }

  /**
   * The warm phase: after the query build (first) and the warm-ups, `n` warm samples; it
   * executes only the query, keeps each timed execution alone in its window and resets nothing.
   */
  lemma WarmPhaseShape(reset: seq<Event> -> seq<Event>, q: string, h: seq<Event>, warmupRuns: int, n: nat)
    requires WellFormedReset(reset)
    ensures var m := WarmPhaseLog(reset, q, h, warmupRuns, n);
      && |h| < |m| && m[..|h|] == h
      && var e := m[|h|..];
      && e[0] == QueryBuilt(q) && BuildCount(e) == 1 && ResetCount(e) == 0
      && ExecutionCount(e) == Max0(warmupRuns) + n
      && OnlyExecutes(e, q) && TimedWindows(e, q)
  {
    var h1 := OpeningLog(q, h, warmupRuns);
    OpeningShape(h, q, Max0(warmupRuns));
    var m := SampleLog(reset, false, q, h1, n);
    SamplesExtend(reset, false, q, h1, n);
    SamplesCounts(reset, false, q, h1, n);
    SamplesOnlyExecute(reset, false, q, h1, n);
    SamplesTimedWindows(reset, false, q, h1, n);
    TwoSuffixes(h, h1, m);
    var e1, e2 := h1[|h|..], m[|h1|..];
    CountsOfConcat(e1, e2);
    ShapesOfConcat(e1, e2, q);
    assert (e1 + e2)[0] == e1[0];
  }

  /** The cold phase of a sequential run: `n` samples, each right after a `ClearCache`. */
  lemma SequentialColdShape(reset: seq<Event> -> seq<Event>, q: string, m: seq<Event>, n: nat)
    requires WellFormedReset(reset)
    ensures var o := SampleLog(reset, true, q, m, n);
      && |m| <= |o| && o[..|m|] == m
      && var c := o[|m|..];
      && ExecutionCount(c) == n && ResetCount(c) == n && BuildCount(c) == 0
      && OnlyExecutes(c, q) && TimedWindows(c, q) && ResetBeforeEachTimer(c)
  {
    SamplesExtend(reset, true, q, m, n);
    SamplesCounts(reset, true, q, m, n);
    SamplesOnlyExecute(reset, true, q, m, n);
    SamplesTimedWindows(reset, true, q, m, n);
    SamplesResetFirst(reset, true, q, m, n);
  }

  /** The cold phase of a parallel run: one `ClearCache`, then `n` samples with no further reset. */
  lemma ParallelColdShape(reset: seq<Event> -> seq<Event>, q: string, m: seq<Event>, n: nat)
    requires WellFormedReset(reset)
    ensures var pre := reset(m);
            var o := SampleLog(reset, false, q, m + pre, n);
      && |m + pre| <= |o| && o == m + (pre + o[|m + pre|..])
      && ClientResetOnly(pre) && ResetCount(pre) == 1 && ExecutionCount(pre) == 0 && BuildCount(pre) == 0
      && var c := o[|m + pre|..];
      && ExecutionCount(c) == n && ResetCount(c) == 0 && BuildCount(c) == 0
      && OnlyExecutes(c, q) && TimedWindows(c, q)
  {
    var pre := reset(m);
    var h2 := m + pre;
    SamplesExtend(reset, false, q, h2, n);
    SamplesCounts(reset, false, q, h2, n);
    SamplesOnlyExecute(reset, false, q, h2, n);
    SamplesTimedWindows(reset, false, q, h2, n);
    ClientResetNoWork(pre, q);
    var o := SampleLog(reset, false, q, h2, n);
    assert o == h2 + o[|h2|..];
  }

  /**
   * A sequential run builds the query once, first; executes nothing but that query; keeps
   * every execution alone in a timed window; runs `warmupRuns` untimed executions, then
   * `benchmarkRuns` warm and `benchmarkRuns` cold ones with one cache reset before each
   * cold one, or stops after the warm-ups when `benchmarkRuns <= 0`.
   */
  lemma NonParallelRunLog(reset: seq<Event> -> seq<Event>, q: string, h: seq<Event>, warmupRuns: int, benchmarkRuns: int)
    requires WellFormedReset(reset)
    ensures var o := NonParallelLog(reset, q, h, warmupRuns, benchmarkRuns);
      && |h| < |o| && o[..|h|] == h
      && var e := o[|h|..];
      && e[0] == QueryBuilt(q) && BuildCount(e) == 1
      && OnlyExecutes(e, q) && TimedWindows(e, q)
      && ExecutionCount(e) == Max0(warmupRuns) + 2 * Max0(benchmarkRuns)
      && ResetCount(e) == Max0(benchmarkRuns)
  {
    if benchmarkRuns <= 0 {
      OpeningShape(h, q, Max0(warmupRuns));
    } else {
      var n := benchmarkRuns;
      var m := WarmPhaseLog(reset, q, h, warmupRuns, n);
      var o := SampleLog(reset, true, q, m, n);
      WarmPhaseShape(reset, q, h, warmupRuns, n);
      SequentialColdShape(reset, q, m, n);
      TwoSuffixes(h, m, o);
      var e1, e2 := m[|h|..], o[|m|..];
      CountsOfConcat(e1, e2);
      ShapesOfConcat(e1, e2, q);
      assert (e1 + e2)[0] == e1[0];
    }
  }

  /**
   * In a sequential run the warm phase resets nothing, and the cold phase holds
   * `benchmarkRuns` executions, `benchmarkRuns` resets, and a reset right before each
   * timed window.
   */
  lemma NonParallelRunPhases(reset: seq<Event> -> seq<Event>, q: string, h: seq<Event>, warmupRuns: int, benchmarkRuns: int)
    requires WellFormedReset(reset) && benchmarkRuns > 0
    ensures var o := NonParallelLog(reset, q, h, warmupRuns, benchmarkRuns);
            var m := WarmPhaseLog(reset, q, h, warmupRuns, benchmarkRuns);
      && |h| <= |m| <= |o| && o[..|m|] == m && m[..|h|] == h
      && ResetCount(m[|h|..]) == 0 && ExecutionCount(m[|h|..]) == Max0(warmupRuns) + benchmarkRuns
      && var cold := o[|m|..];
      && ExecutionCount(cold) == benchmarkRuns && ResetCount(cold) == benchmarkRuns
      && ResetBeforeEachTimer(cold) && TimedWindows(cold, q)
  {
    var m := WarmPhaseLog(reset, q, h, warmupRuns, benchmarkRuns);
    WarmPhaseShape(reset, q, h, warmupRuns, benchmarkRuns);
    SequentialColdShape(reset, q, m, benchmarkRuns);
  }

  /**
   * A sequential run fails exactly when `benchmarkRuns <= 0`; otherwise it returns
   * `benchmarkRuns` "Warm" results followed by `benchmarkRuns` "Cold" ones, all named after
   * the runner and all with an output.
   */
  lemma NonParallelRunResults<R>(r: Runner<R>, render: R -> string, q: string, h: seq<Event>,
                                 warmupRuns: int, benchmarkRuns: int)
    ensures var o := NonParallelResults(r, render, q, h, warmupRuns, benchmarkRuns);
      && (benchmarkRuns <= 0 <==> o.Failure?)
      && (o.Success? ==>
            var rs := o.value;
            && |rs| == 2 * benchmarkRuns
            && (forall j | 0 <= j < |rs| :: rs[j].queryName == Some(r.name) && rs[j].queryOutput.Some?)
            && (forall j | 0 <= j < benchmarkRuns :: rs[j].cacheType == Some("Warm"))
            && (forall j | benchmarkRuns <= j < |rs| :: rs[j].cacheType == Some("Cold")))
  {
    if benchmarkRuns > 0 {
      var n := benchmarkRuns;
      var warm := SampleResults(r, render, false, Fixed("Warm"), q, OpeningLog(q, h, warmupRuns), n);
      var cold := SampleResults(r, render, true, Fixed("Cold"), q, WarmPhaseLog(r.reset, q, h, warmupRuns, n), n);
      SamplesResults(r, render, false, Fixed("Warm"), q, OpeningLog(q, h, warmupRuns), n);
      SamplesResults(r, render, true, Fixed("Cold"), q, WarmPhaseLog(r.reset, q, h, warmupRuns, n), n);
      LabelledPhases(warm, cold, r.name, Fixed("Warm"), Fixed("Cold"), n);
    }
  }


  /** The client labels of a parallel phase are pairwise distinct. */
  lemma ClientLabelsDistinct(phase: string, n: int, i: nat, j: nat)
    ensures LabelText(Client(phase, n), i) == LabelText(Client(phase, n), j) ==> i == j
  {
    var pre := phase + " (Parallel) Client: ";
    var post := ", Total Parallel Clients: " + IntToString(n);
    assert LabelText(Client(phase, n), i) == pre + IntToString(i + 1) + post;
    assert LabelText(Client(phase, n), j) == pre + IntToString(j + 1) + post;
    if LabelText(Client(phase, n), i) == LabelText(Client(phase, n), j) {
      Cancel(pre, IntToString(i + 1), IntToString(j + 1), post);
      IntToStringInjective(i + 1, j + 1);
    }
  }

  /**
   * A parallel run builds the query once, first; executes nothing but that query; keeps
   * every execution alone in a timed window; runs `warmupRuns` untimed executions, then one
   * warm and one cold execution per client with a single cache reset between the phases,
   * or stops after the warm-ups when `parallelClients <= 0`.
   */
  lemma ParallelRunLog(reset: seq<Event> -> seq<Event>, q: string, h: seq<Event>, warmupRuns: int, parallelClients: int)
    requires WellFormedReset(reset)
    ensures var o := ParallelLog(reset, q, h, warmupRuns, parallelClients);
      && |h| < |o| && o[..|h|] == h
      && var e := o[|h|..];
      && e[0] == QueryBuilt(q) && BuildCount(e) == 1
      && OnlyExecutes(e, q) && TimedWindows(e, q)
      && ExecutionCount(e) == Max0(warmupRuns) + 2 * Max0(parallelClients)
      && ResetCount(e) == (if parallelClients <= 0 then 0 else 1)
  {
    if parallelClients <= 0 {
      OpeningShape(h, q, Max0(warmupRuns));
    } else {
      var n := parallelClients;
      var m := WarmPhaseLog(reset, q, h, warmupRuns, n);
      var pre := reset(m);
      var o := SampleLog(reset, false, q, m + pre, n);
      WarmPhaseShape(reset, q, h, warmupRuns, n);
      ParallelColdShape(reset, q, m, n);
      ClientResetNoWork(pre, q);
      var e1, c := m[|h|..], o[|m + pre|..];
      DropPrefix(h, m, pre + c);
      assert e1 + (pre + c) == e1 + pre + c;
      ThreeParts(e1, pre, c, q);
      assert (e1 + pre + c)[0] == e1[0];
    }
  }

  /**
   * In a parallel run the warm phase resets nothing, and what follows it is one
   * `ClearCache` and then `parallelClients` timed executions with no further reset.
   */
  lemma ParallelRunPhases(reset: seq<Event> -> seq<Event>, q: string, h: seq<Event>, warmupRuns: int, parallelClients: int)
    requires WellFormedReset(reset) && parallelClients > 0
    ensures var o := ParallelLog(reset, q, h, warmupRuns, parallelClients);
            var m := WarmPhaseLog(reset, q, h, warmupRuns, parallelClients);
            var pre := reset(m);
      && |h| <= |m| && m[..|h|] == h
      && ResetCount(m[|h|..]) == 0 && ExecutionCount(m[|h|..]) == Max0(warmupRuns) + parallelClients
      && |m + pre| <= |o| && o == m + (pre + o[|m + pre|..]) && ResetCount(pre) == 1
      && var cold := o[|m + pre|..];
      && ResetCount(cold) == 0 && ExecutionCount(cold) == parallelClients && TimedWindows(cold, q)
  {
    var m := WarmPhaseLog(reset, q, h, warmupRuns, parallelClients);
    WarmPhaseShape(reset, q, h, warmupRuns, parallelClients);
    ParallelColdShape(reset, q, m, parallelClients);
  }

  /**
   * A parallel run fails exactly when `parallelClients <= 0`; otherwise it returns, for each
   * client `i` from 1 to `parallelClients`, a warm result labelled with `i` and the total,
   * then the cold results labelled likewise.
   */
  lemma ParallelRunResults<R>(r: Runner<R>, render: R -> string, q: string, h: seq<Event>,
                              warmupRuns: int, parallelClients: int)
    ensures var o := ParallelResults(r, render, q, h, warmupRuns, parallelClients);
      && (parallelClients <= 0 <==> o.Failure?)
      && (o.Success? ==>
            var rs := o.value;
            var n := parallelClients;
            && |rs| == 2 * n
            && (forall j | 0 <= j < |rs| :: rs[j].queryName == Some(r.name) && rs[j].queryOutput.Some?)
            && (forall j | 0 <= j < n :: rs[j].cacheType == Some(LabelText(Client("Warm", n), j)))
            && (forall j | n <= j < |rs| :: rs[j].cacheType == Some(LabelText(Client("Cold", n), j - n))))
  {
    if parallelClients > 0 {
      var n := parallelClients;
      var h2 := BeforeSample(r.reset, true, WarmPhaseLog(r.reset, q, h, warmupRuns, n));
      PhaseResults(r, render, q, OpeningLog(q, h, warmupRuns), h2, false, Client("Warm", n), Client("Cold", n), n);
    }
  }


  // ----- a ClearCache the database never sees -----

  /** What the database sees of two logs one after the other is what it sees of each. */
  lemma {:induction false} ServerViewConcat(a: seq<Event>, b: seq<Event>)
    ensures ServerView(a + b) == ServerView(a) + ServerView(b)
    decreases |b|
  {
    if b == [] {
      assert a + b == a;
    } else {
      var b' := b[..|b| - 1];
      assert (a + b)[..|a + b| - 1] == a + b';
      ServerViewConcat(a, b');
    }
  }

  /** A warm phase of `n` samples after `hw`, then a cold phase of `n` samples after `hc`. */
  lemma PhaseResults<R>(r: Runner<R>, render: R -> string, q: string, hw: seq<Event>, hc: seq<Event>,
                        resetCold: bool, lw: Label, lc: Label, n: nat)
    ensures var rs := SampleResults(r, render, false, lw, q, hw, n) + SampleResults(r, render, resetCold, lc, q, hc, n);
      && |rs| == 2 * n
      && (forall j | 0 <= j < |rs| :: rs[j].queryName == Some(r.name) && rs[j].queryOutput.Some?)
      && (forall j | 0 <= j < n :: rs[j].cacheType == Some(LabelText(lw, j)))
      && (forall j | n <= j < |rs| :: rs[j].cacheType == Some(LabelText(lc, j - n)))
  {
    var warm := SampleResults(r, render, false, lw, q, hw, n);
    var cold := SampleResults(r, render, resetCold, lc, q, hc, n);
    SamplesResults(r, render, false, lw, q, hw, n);
    SamplesResults(r, render, resetCold, lc, q, hc, n);
    LabelledPhases(warm, cold, r.name, lw, lc, n);
  }

  /** A `ClearCache` whose events never reach the database. */
  ghost predicate InvisibleReset(reset: seq<Event> -> seq<Event>) {
    forall h :: ServerView(h + reset(h)) == ServerView(h)
  }

  /** With such a `ClearCache`, samples with a reset before each one look to the database like samples without. */
  lemma {:induction false} InvisibleResetSameView(reset: seq<Event> -> seq<Event>, q: string, h: seq<Event>, k: nat)
    requires InvisibleReset(reset)
    ensures ServerView(SampleLog(reset, true, q, h, k)) == ServerView(SampleLog(reset, false, q, h, k))
    decreases k
  {
    if k > 0 {
      InvisibleResetSameView(reset, q, h, k - 1);
      var c := SampleLog(reset, true, q, h, k - 1);
      var w := SampleLog(reset, false, q, h, k - 1);
      assert ServerView(c + reset(c)) == ServerView(c);
      ServerViewConcat(c + reset(c), Window(q));
      ServerViewConcat(w, Window(q));
    }
  }

  /**
   * With such a `ClearCache`, every "cold" sample gets the reply a warm sample at the same
   * point would get: resetting before each sample changes nothing the database answers.
   */
  lemma InvisibleResetSameReplies<R>(r: Runner<R>, render: R -> string, cacheLabel: Label,
                                     q: string, h: seq<Event>, k: nat)
    requires InvisibleReset(r.reset)
    ensures var c := SampleResults(r, render, true, cacheLabel, q, h, k);
            var w := SampleResults(r, render, false, cacheLabel, q, h, k);
      |c| == k && |w| == k && forall j | 0 <= j < k :: c[j].queryOutput == w[j].queryOutput
  {
    SamplesResults(r, render, true, cacheLabel, q, h, k);
    SamplesResults(r, render, false, cacheLabel, q, h, k);
    var cs := SampleResults(r, render, true, cacheLabel, q, h, k);
    var ws := SampleResults(r, render, false, cacheLabel, q, h, k);
    forall j | 0 <= j < k
      ensures cs[j].queryOutput == ws[j].queryOutput
    {
      var c := SampleLog(r.reset, true, q, h, j);
      var w := SampleLog(r.reset, false, q, h, j);
      InvisibleResetSameView(r.reset, q, h, j);
      assert ServerView(c + r.reset(c)) == ServerView(c);
      ServerViewConcat(c + r.reset(c), [TimerStarted]);
      ServerViewConcat(w, [TimerStarted]);
    }
  }
}
