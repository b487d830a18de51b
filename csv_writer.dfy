/**
 * The CSV export of benchmark results: a header line, then one line per result in
 * list order. Fields are joined with bare commas; no field is escaped, and only the
 * query output is wrapped in double quotes.
 */
module CsvWriter {
  import opened Wrappers
  import opened Text
  import opened BenchmarkResults
  import Runs

  const Comma: char := ','
  /** The column names of the export without and with the query output. */
  const ColumnsWithoutResult: seq<string> := ["QueryName", "ExecutionTimeMs", "CacheType"]
  const ColumnsWithResult: seq<string> := ColumnsWithoutResult + ["QueryOutput"]
  /** The header lines: the column names joined by commas. */
  const HeaderWithResult: string := JoinWith(ColumnsWithResult, [Comma])
  const HeaderWithoutResult: string := JoinWith(ColumnsWithoutResult, [Comma])

  /** A nullable text field as written: a missing value becomes the empty string. */
  function Field(o: Option<string>): string {
    o.GetOr("")
  }

  /** One line of the export with the query output, which is quoted but not escaped. */
  function RowWithResult(r: BenchmarkResult): string {
    Field(r.queryName) + [Comma] + IntToString(r.executionTimeMs) + [Comma] + Field(r.cacheType)
      + [Comma] + "\"" + Field(r.queryOutput) + "\""
  }

  /** One line of the export without the query output. */
  function RowWithoutResult(r: BenchmarkResult): string {
    Field(r.queryName) + [Comma] + IntToString(r.executionTimeMs) + [Comma] + Field(r.cacheType)
  }

  /** The lines written by `WriteResultsToCsvWithResult`: the header, then one row per result, in order. */
  method WriteResultsToCsvWithResult(results: seq<BenchmarkResult>) returns (lines: seq<string>)
    ensures |lines| == |results| + 1 && lines[0] == HeaderWithResult
    ensures forall k :: 0 <= k < |results| ==> lines[k + 1] == RowWithResult(results[k])
  {
    lines := [HeaderWithResult];
    for i := 0 to |results|
      invariant |lines| == i + 1 && lines[0] == HeaderWithResult
      invariant forall k :: 0 <= k < i ==> lines[k + 1] == RowWithResult(results[k])
    {
      lines := lines + [RowWithResult(results[i])];
    }
  }

  /** The lines written by `WriteResultsToCsvWithoutResult`: the header, then one row per result, in order. */
  method WriteResultsToCsvWithoutResult(results: seq<BenchmarkResult>) returns (lines: seq<string>)
    ensures |lines| == |results| + 1 && lines[0] == HeaderWithoutResult
    ensures forall k :: 0 <= k < |results| ==> lines[k + 1] == RowWithoutResult(results[k])
  {
    lines := [HeaderWithoutResult];
    for i := 0 to |results|
      invariant |lines| == i + 1 && lines[0] == HeaderWithoutResult
      invariant forall k :: 0 <= k < i ==> lines[k + 1] == RowWithoutResult(results[k])
    {
      lines := lines + [RowWithoutResult(results[i])];
    }
  }

  /** Read back with a split on commas, the headers give their three and four column names. */
  lemma HeaderColumns()
    ensures Split(HeaderWithoutResult, Comma) == ColumnsWithoutResult
    ensures Split(HeaderWithResult, Comma) == ColumnsWithResult
  {
    assert forall k :: 0 <= k < |ColumnsWithResult| ==> Comma !in ColumnsWithResult[k];
    SplitJoin(ColumnsWithoutResult, Comma);
    SplitJoin(ColumnsWithResult, Comma);
  }

  /**
   * Read back with a split on commas, a row without output has one field per comma in
   * the name and the cache label beyond the three columns.
   */
  lemma RowWithoutResultFieldCount(r: BenchmarkResult)
    ensures |Split(RowWithoutResult(r), Comma)| == 3 + Count(Field(r.queryName), Comma) + Count(Field(r.cacheType), Comma)
  {
    var n, t, c := Field(r.queryName), IntToString(r.executionTimeMs), Field(r.cacheType);
    IntToStringPlain(r.executionTimeMs);
    CountAbsent(t, Comma);
    SplitLength(RowWithoutResult(r), Comma);
    CountConcat(n + [Comma] + t + [Comma], c, Comma);
    CountConcat(n + [Comma] + t, [Comma], Comma);
    CountConcat(n + [Comma], t, Comma);
    CountConcat(n, [Comma], Comma);
  }

  /** The same with the output column, whose commas split it as well. */
  lemma RowWithResultFieldCount(r: BenchmarkResult)
    ensures |Split(RowWithResult(r), Comma)|
         == 4 + Count(Field(r.queryName), Comma) + Count(Field(r.cacheType), Comma) + Count(Field(r.queryOutput), Comma)
  {
    var a, o := RowWithoutResult(r), Field(r.queryOutput);
    assert RowWithResult(r) == a + [Comma] + "\"" + o + "\"";
    RowWithoutResultFieldCount(r);
    SplitLength(a, Comma);
    SplitLength(RowWithResult(r), Comma);
    CountConcat(a + [Comma] + "\"" + o, "\"", Comma);
    CountConcat(a + [Comma] + "\"", o, Comma);
    CountConcat(a + [Comma], "\"", Comma);
    CountConcat(a, [Comma], Comma);
  }

  lemma {:induction false} CountAbsent(s: string, c: char)
    requires c !in s
    ensures Count(s, c) == 0
  {
    if s != [] {
      assert c !in s[1..] by {
        forall k | 0 <= k < |s[1..]| ensures s[1..][k] != c { assert s[1..][k] == s[k + 1]; }
      }
      CountAbsent(s[1..], c);
    }
  }

  /**
   * When neither the name nor the cache label holds a comma, a row without output reads
   * back as its three columns, and the time parses back to the recorded value.
   */
  lemma RowWithoutResultReadBack(r: BenchmarkResult)
    requires Comma !in Field(r.queryName) && Comma !in Field(r.cacheType)
    ensures Split(RowWithoutResult(r), Comma) == [Field(r.queryName), IntToString(r.executionTimeMs), Field(r.cacheType)]
    ensures ParseDecimal(Split(RowWithoutResult(r), Comma)[1]) == Some(r.executionTimeMs)
  {
    var n, t, c := Field(r.queryName), IntToString(r.executionTimeMs), Field(r.cacheType);
    IntToStringPlain(r.executionTimeMs);
    assert RowWithoutResult(r) == n + [Comma] + (t + [Comma] + c);
    SplitField(n, t + [Comma] + c, Comma);
    SplitField(t, c, Comma);
    SplitWithout(c, Comma);
    ParseDecimalIntToString(r.executionTimeMs);
  }

  /**
   * When no text field holds a comma, a row with output reads back as its four columns,
   * the last one being the output between double quotes.
   */
  lemma RowWithResultReadBack(r: BenchmarkResult)
    requires Comma !in Field(r.queryName) && Comma !in Field(r.cacheType) && Comma !in Field(r.queryOutput)
    ensures Split(RowWithResult(r), Comma)
         == [Field(r.queryName), IntToString(r.executionTimeMs), Field(r.cacheType), "\"" + Field(r.queryOutput) + "\""]
  {
    var n, t, c, o := Field(r.queryName), IntToString(r.executionTimeMs), Field(r.cacheType), Field(r.queryOutput);
    var q := "\"" + o + "\"";
    IntToStringPlain(r.executionTimeMs);
    assert RowWithResult(r) == n + [Comma] + (t + [Comma] + (c + [Comma] + q));
    SplitField(n, t + [Comma] + (c + [Comma] + q), Comma);
    SplitField(t, c + [Comma] + q, Comma);
    SplitField(c, q, Comma);
    assert Comma !in q by {
      forall k | 0 <= k < |q| ensures q[k] != Comma {
        if 0 < k < |q| - 1 { assert q[k] == o[k - 1]; }
      }
    }
    SplitWithout(q, Comma);
  }

  /**
   * A client label of a parallel run holds exactly one comma more than its phase name,
   * so each parallel row spills into one column more than the header names.
   */
  lemma ClientLabelCommas(phase: string, total: nat, i: nat)
    ensures Count(Runs.LabelText(Runs.Client(phase, total), i), Comma) == Count(phase, Comma) + 1
  {
    var m, e := " (Parallel) Client: ", " Total Parallel Clients: ";
    assert Comma !in m && Comma !in e;
    assert [Comma] + e == ", Total Parallel Clients: ";
    IntToStringPlain(i + 1);
    IntToStringPlain(total);
    LabelCommas(phase, m, IntToString(i + 1), e, IntToString(total));
  }

  lemma LabelCommas(p: string, m: string, a: string, e: string, b: string)
    requires Comma !in m && Comma !in e && Comma !in a && Comma !in b
    ensures Count(p + m + a + ([Comma] + e) + b, Comma) == Count(p, Comma) + 1
  {
    CountAbsent(m, Comma);
    CountAbsent(e, Comma);
    CountAbsent(a, Comma);
    CountAbsent(b, Comma);
    CountConcat(p + m + a + ([Comma] + e), b, Comma);
    CountConcat(p + m + a, [Comma] + e, Comma);
    CountConcat([Comma], e, Comma);
    CountConcat(p + m, a, Comma);
    CountConcat(p, m, Comma);
  }

  /** The rows of a parallel run's results, whose phase names hold no comma, have four columns and five with output. */
  lemma ParallelRowColumns(r: BenchmarkResult, phase: string, total: nat, i: nat)
    requires r.cacheType == Some(Runs.LabelText(Runs.Client(phase, total), i))
    requires Comma !in phase && Comma !in Field(r.queryName)
    ensures |Split(RowWithoutResult(r), Comma)| == 4
    ensures Comma !in Field(r.queryOutput) ==> |Split(RowWithResult(r), Comma)| == 5
  {
    ClientLabelCommas(phase, total, i);
    CountAbsent(phase, Comma);
    CountAbsent(Field(r.queryName), Comma);
    RowWithoutResultFieldCount(r);
    RowWithResultFieldCount(r);
    if Comma !in Field(r.queryOutput) {
      CountAbsent(Field(r.queryOutput), Comma);
    }
  }

  /** With no escaping, two different results can be written as the same row. */
  lemma RowsCanCollide()
    ensures RowWithoutResult(BenchmarkResult(Some("a,1"), 2, Some("b"), None))
         == RowWithoutResult(BenchmarkResult(Some("a"), 1, Some("2,b"), None))
  {
    assert IntToString(2) == "2" && IntToString(1) == "1";
  }
}
