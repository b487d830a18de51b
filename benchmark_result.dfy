/** The record every benchmark run produces, one per timed execution. */
module BenchmarkResults {
  import opened Wrappers

  /**
   * The three text fields are nullable references in the program, hence `Option`;
   * the elapsed time is a 64-bit integer that the runners only ever fill with a
   * stopwatch reading, which is never negative.
   */
  datatype BenchmarkResult = BenchmarkResult(
    queryName: Option<string>,
    executionTimeMs: int,
    cacheType: Option<string>,
    queryOutput: Option<string>)
}
