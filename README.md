# Multi-model database benchmark, modelled in Dafny

The repository benchmarks one social-network dataset on three multi-model databases:
MongoDB, OrientDB and ArangoDB. Its own logic is in four places.

- **Dataset tools** cut a dataset down to size. `DatasetFilter` collects the nodes of an
  edge file and filters the other files down to those nodes. It also checks that every
  edge node is described by a feature or a circle line. `DatasetSubsetGenerator` writes a
  random subset of at most `maxLines` lines.
- **Importers** load the files into each database. They turn the edge, feature, circle,
  ego-feature and feature-name files into documents, one per parsed line. ArangoDB and
  OrientDB also insert each edge endpoint as a user unless a lookup finds it.
- **Query builders** produce the query text for each benchmark query on each database.
  Every builder fills a fixed template with its arguments, unescaped.
- **Benchmark runners** time the queries. A run builds the query once, runs untimed
  warm-ups, and then takes "Warm" and "Cold" timed samples. A cold sample follows a cache
  reset. The parallel variant labels each result with its client number. `CsvWriter`
  exports the results.

The model follows the source file by file:

| Dafny file | module | models |
|---|---|---|
| `wrappers.dfy` | `Wrappers` | `Option` and `Result` |
| `text.dfy` | `Text` | `String.Split`, `string.Join`, `int.ToString`, `int.Parse`, CR LF template text |
| `benchmark_result.dfy` | `BenchmarkResults` | the `BenchmarkResult` record |
| `runs.dfy` | `Runs` | what the three runners share: the event log, the backend oracle, the specification of both run kinds |
| `benchmark_mongodb.dfy`, `benchmark_orientdb.dfy`, `benchmark_arangodb.dfy` | `MongoDBBenchmark`, `OrientDBBenchmark`, `ArangoDBBenchmark` | one runner class each |
| `mongodb_query_builder.dfy`, `arangodb_query_builder.dfy`, `orientdb_query_builder.dfy` | `MongoQueries`, `ArangoQueries`, `OrientQueries` | the twelve builders of each database |
| `csv_writer.dfy` | `CsvWriter` | the two CSV exports |
| `dataset_filter.dfy` | `DatasetFilter` | node extraction, filtering, coverage check |
| `dataset_subset.dfy` | `DatasetSubset` | the random subset |
| `dataset_files.dfy` | `DatasetFiles` | the line formats of the dataset files, and loading a file line by line |
| `mongodb_importer.dfy`, `arangodb_importer.dfy`, `orientdb_importer.dfy` | `MongoDBImport`, `ArangoDBImport`, `OrientDBImport` | one importer class each |

## How the model works

**Files.** A file is its sequence of lines (`seq<string>`). A line has no line break;
`WriteLine`'s line break is the boundary between two elements.

**Runners.** The program's loops become `while` loops in methods of a class per database.
The class has one mutable field, `log`, which records, in order:

- each query build;
- each execution;
- each stopwatch start and stop;
- each cache reset;
- each delay.

The database is an oracle `Server(reply, clock)`. Its reply to a query depends only on
the part of the log the database has seen (`ServerView`). The stopwatch reading is a
natural number given by the log. Each run method is proved to leave exactly the log of a
specification function (`NonParallelLog`, `ParallelLog`). It is also proved to return
exactly the results of another (`NonParallelResults`, `ParallelResults`). A missing
average, that is `Average()` over no times, is the error value `AverageOfEmptyList`.
Lemmas about these specification functions state what a run does:

- how many builds, executions and resets it makes;
- where the resets fall relative to the timed windows;
- which labels, in which order.

**Importers.** Each importer is a class whose fields are the collections it fills. Loading
a file is specified by a fold over its lines:

- `Load` for MongoDB and OrientDB;
- `ImportedEdges` and `ImportedKeyed` for ArangoDB.

A line that throws stops the fold, and the documents stored before it stay. ArangoDB
rejects a document whose `_key` is already taken or is the empty key. MongoDB and OrientDB never
reject a document. Each lookup of a user key says whether it fails, through a parameter:

- `lookupFails` for ArangoDB, where a server error reads as "absent";
- `loadFails` for OrientDB, where any exception reads as "absent".

**Shuffle.** The shuffle of `DatasetSubsetGenerator` is an arbitrary permutation of the
line positions, given as a parameter.

## Model

| member | source | states |
|---|---|---|
| `Text.Split` | Benchmarking_MultiModel_SplitDataset/DatasetFilter.cs:14 | `line.Split(' ')` has at least one part, even for the empty line |
| `Text.SplitLength` | Benchmarking_MultiModel_SplitDataset/DatasetFilter.cs:14-15 | the number of parts of `Split` is the number of separators plus one, so empty parts are kept |
| `Text.SplitPartsHaveNoSeparator` | Benchmarking_MultiModel_DBImporter/MongoDBImporter.cs:25 | no part of a split contains the separator |
| `Text.JoinSplit` | Benchmarking_MultiModel_DBImporter/MongoDBImporter.cs:25 | joining the parts with the separator gives back the line, so a split loses no character |
| `Text.SplitJoin` | Benchmarking_MultiModel_DBs/CsvWriter.cs:10 | parts free of the separator, joined by it, split back into the same parts |
| `Text.SplitTrailing` | Benchmarking_MultiModel_SplitDataset/DatasetFilter.cs:14-15 | a trailing separator adds one empty part |
| `Text.SplitTwoSeparators` | Benchmarking_MultiModel_SplitDataset/DatasetFilter.cs:14-15 | a line with two separators anywhere has at least three parts |
| `Text.ParseInt` | Benchmarking_MultiModel_DBImporter/MongoDBImporter.cs:52 | `int.Parse` succeeds only with a value in the 32-bit range |
| `Text.ParseIntToString` | Benchmarking_MultiModel_DBImporter/MongoDBImporter.cs:52 | `int.Parse` of the decimal rendering of any 32-bit integer gives the integer back |
| `Text.ParseDecimalIntToString` | Benchmarking_MultiModel_DBs/CsvWriter.cs:15 | the decimal rendering of any integer, such as a 64-bit execution time, reads back as that integer |
| `Text.IntToStringInjective` | Benchmarking_MultiModel_DBImporter/ArangoDBImporter.cs:195 | distinct integers have distinct renderings (`index.ToString()`) |
| `Text.IntToStringPlain` | Benchmarking_MultiModel_DBs/CsvWriter.cs:15 | a decimal rendering contains no space, comma or quote |
| `Runs.ServerView` | Benchmarking_MultiModel_DBs/Benchmark_MongoDB.cs:180-183 | the part of the log the database sees: only executions and the resets that reach it, in order |
| `Runs.LabelText` | Benchmarking_MultiModel_DBs/Benchmark_MongoDB.cs:124 | a fixed `CacheType`, or "`phase` (Parallel) Client: `i+1`, Total Parallel Clients: `n`"; stated by `ClientLabelsDistinct`, `ParallelRunResults` and `CsvWriter.ClientLabelCommas` |
| `Runs.SampleResult` | Benchmarking_MultiModel_DBs/Benchmark_MongoDB.cs:51-63 | the result of one timed window: runner's name, stopwatch reading at the stop, label, rendered reply; stated by `SamplesResults` |
| `Runs.SampleLog` | Benchmarking_MultiModel_DBs/Benchmark_MongoDB.cs:49-84 | the log of `k` samples, each an optional reset then a timed window; stated by `SamplesCounts`, `SamplesTimedWindows`, `SamplesResetFirst` |
| `Runs.NonParallelLog` | Benchmarking_MultiModel_DBs/Benchmark_MongoDB.cs:33-89 | the log of a sequential run; stated by `NonParallelRunLog` and `NonParallelRunPhases` |
| `Runs.NonParallelResults` | Benchmarking_MultiModel_DBs/Benchmark_MongoDB.cs:33-89 | the results of a sequential run, or the exception of `Average()`; stated by `NonParallelRunResults` |
| `Runs.ParallelLog` | Benchmarking_MultiModel_DBs/Benchmark_MongoDB.cs:92-177 | the log of a parallel run, clients one after another; stated by `ParallelRunLog` and `ParallelRunPhases` |
| `Runs.ParallelResults` | Benchmarking_MultiModel_DBs/Benchmark_MongoDB.cs:92-177 | the results of a parallel run, or the exception; stated by `ParallelRunResults` |
| `Runs.OpeningShape` | Benchmarking_MultiModel_DBs/Benchmark_MongoDB.cs:39-45 | a run opens with exactly one query build, then exactly `warmupRuns` executions of that query, with no reset and no timer |
| `Runs.WarmupsShape` | Benchmarking_MultiModel_DBs/Benchmark_MongoDB.cs:42-45 | the warm-ups add `k` executions of the query and nothing else |
| `Runs.SamplesCounts` | Benchmarking_MultiModel_DBs/Benchmark_MongoDB.cs:49-84 | `k` samples add `k` executions, `k` resets when each sample resets and none otherwise, and no build |
| `Runs.SamplesTimedWindows` | Benchmarking_MultiModel_DBs/Benchmark_MongoDB.cs:51-53 | every stopwatch start in the samples is followed by one execution of the query and the stop, so a reset is never timed |
| `Runs.SamplesResetFirst` | Benchmarking_MultiModel_DBs/Benchmark_MongoDB.cs:68-73 | with a reset before each sample, every stopwatch start comes right after a reset |
| `Runs.SamplesResults` | Benchmarking_MultiModel_DBs/Benchmark_MongoDB.cs:57-63 | `k` samples give `k` results, each named after the runner, labelled by its position, with an output and a non-negative time |
| `Runs.WarmPhaseShape` | Benchmarking_MultiModel_DBs/Benchmark_MongoDB.cs:39-64 | up to the end of the warm samples: one build first, `warmupRuns + n` executions of that query only, no reset, every execution timed alone |
| `Runs.SequentialColdShape` | Benchmarking_MultiModel_DBs/Benchmark_MongoDB.cs:68-85 | the sequential cold phase holds `n` executions and `n` resets, with a reset right before each stopwatch start |
| `Runs.ParallelColdShape` | Benchmarking_MultiModel_DBs/Benchmark_MongoDB.cs:141-165 | the parallel cold phase is one `ClearCache`, then `n` timed executions and no further reset |
| `Runs.NonParallelRunLog` | Benchmarking_MultiModel_DBs/Benchmark_MongoDB.cs:33-89 | a sequential run builds the query once, first; executes only it; times each execution alone; executes `warmupRuns + 2 * benchmarkRuns` times and resets `benchmarkRuns` times (negative counts read as 0) |
| `Runs.NonParallelRunPhases` | Benchmarking_MultiModel_DBs/Benchmark_MongoDB.cs:47-86 | the warm phase resets nothing; the cold phase holds `benchmarkRuns` executions and `benchmarkRuns` resets, one right before each timed window |
| `Runs.NonParallelRunResults` | Benchmarking_MultiModel_DBs/Benchmark_MongoDB.cs:49-88 | a sequential run fails exactly when `benchmarkRuns <= 0` (the average of no times throws); otherwise it gives `2 * benchmarkRuns` results, first "Warm" and then "Cold", all named after the runner, each with an output |
| `Runs.ClientLabelsDistinct` | Benchmarking_MultiModel_DBs/Benchmark_MongoDB.cs:124 | the client labels of a phase are pairwise distinct |
| `Runs.ParallelRunLog` | Benchmarking_MultiModel_DBs/Benchmark_MongoDB.cs:92-177 | a parallel run builds the query once, first; executes only it; times each execution alone; executes `warmupRuns + 2 * parallelClients` times; resets exactly once, or never when `parallelClients <= 0`; does not depend on `benchmarkRuns` |
| `Runs.ParallelRunPhases` | Benchmarking_MultiModel_DBs/Benchmark_MongoDB.cs:106-165 | the single reset of a parallel run falls between the warm phase and the cold phase |
| `Runs.ParallelRunResults` | Benchmarking_MultiModel_DBs/Benchmark_MongoDB.cs:110-165 | a parallel run fails exactly when `parallelClients <= 0`; otherwise warm result `i` is labelled "Warm (Parallel) Client: i+1, Total Parallel Clients: n", and the cold ones likewise |
| `Runs.InvisibleResetSameView` | Benchmarking_MultiModel_DBs/Benchmark_OrientDB.cs:24-30 | with a `ClearCache` the database never sees, samples with resets look to the database like samples without |
| `Runs.InvisibleResetSameReplies` | Benchmarking_MultiModel_DBs/Benchmark_OrientDB.cs:68-83 | with such a `ClearCache`, every cold sample gets the reply a warm sample at the same point would get |
| `MongoDBBenchmark.MongoReset` | Benchmarking_MultiModel_DBs/Benchmark_MongoDB.cs:24-30 | the find with a fresh filter and `planCacheClear`, as one reset the database sees; stated by `MongoResetWellFormed` and `MongoResetReachesServer` |
| `MongoDBBenchmark.DocumentText` | Benchmarking_MultiModel_DBs/Benchmark_MongoDB.cs:62 | the reply document's text, which the reply oracle already returns (`ToString()`) |
| `MongoDBBenchmark.MongoResetWellFormed` | Benchmarking_MultiModel_DBs/Benchmark_MongoDB.cs:24-30 | the MongoDB `ClearCache` appends one reset and nothing else |
| `MongoDBBenchmark.MongoResetReachesServer` | Benchmarking_MultiModel_DBs/Benchmark_MongoDB.cs:24-30 | the plan-cache clear reaches the database |
| `MongoDBBenchmark.BenchmarkMongoDB.constructor` | Benchmarking_MultiModel_DBs/Benchmark_MongoDB.cs:15-22 | a runner keeps its query builder and query name, with an empty log |
| `MongoDBBenchmark.BenchmarkMongoDB.ClearCache` | Benchmarking_MultiModel_DBs/Benchmark_MongoDB.cs:24-30 | appends the plan-cache reset |
| `MongoDBBenchmark.BenchmarkMongoDB.ExecuteQuery` | Benchmarking_MultiModel_DBs/Benchmark_MongoDB.cs:180-183 | the reply is the database's reply to the query, given what it has seen; the execution is logged |
| `MongoDBBenchmark.BenchmarkMongoDB.TimedRun` | Benchmarking_MultiModel_DBs/Benchmark_MongoDB.cs:51-63 | stopwatch start, execution, stop; the result carries the name, the reading, the label and the reply's text |
| `MongoDBBenchmark.BenchmarkMongoDB.Warmup` | Benchmarking_MultiModel_DBs/Benchmark_MongoDB.cs:42-45 | `warmupRuns` untimed executions, none when it is negative |
| `MongoDBBenchmark.BenchmarkMongoDB.Sample` | Benchmarking_MultiModel_DBs/Benchmark_MongoDB.cs:70-83 | one sample: a `ClearCache` when the phase resets, then a timed run |
| `MongoDBBenchmark.BenchmarkMongoDB.Samples` | Benchmarking_MultiModel_DBs/Benchmark_MongoDB.cs:49-64 | a loop of samples leaves the log `SampleLog` and the results `SampleResults` |
| `MongoDBBenchmark.BenchmarkMongoDB.RunNonParallelTests` | Benchmarking_MultiModel_DBs/Benchmark_MongoDB.cs:33-89 | leaves exactly the log `NonParallelLog` and returns exactly `NonParallelResults`, whose properties are the `Runs.NonParallelRun*` lemmas |
| `MongoDBBenchmark.BenchmarkMongoDB.RunParallelTests` | Benchmarking_MultiModel_DBs/Benchmark_MongoDB.cs:92-177 | leaves exactly the log `ParallelLog` and returns exactly `ParallelResults`, whose properties are the `Runs.ParallelRun*` lemmas |
| `OrientDBBenchmark.OrientReset` | Benchmarking_MultiModel_DBs/Benchmark_OrientDB.cs:24-30 | one console line that reaches no database; stated by `OrientResetWellFormed` and `OrientResetInvisible` |
| `OrientDBBenchmark.ResultText` | Benchmarking_MultiModel_DBs/Benchmark_OrientDB.cs:169-175 | the result's text, the empty string for a null result |
| `OrientDBBenchmark.OrientResetWellFormed` | Benchmarking_MultiModel_DBs/Benchmark_OrientDB.cs:24-30 | the OrientDB `ClearCache` appends one reset and nothing else |
| `OrientDBBenchmark.OrientResetInvisible` | Benchmarking_MultiModel_DBs/Benchmark_OrientDB.cs:24-30 | the OrientDB `ClearCache` only writes to the console: it never reaches the database, so cold samples get warm replies |
| `OrientDBBenchmark.BenchmarkOrientDB.constructor` | Benchmarking_MultiModel_DBs/Benchmark_OrientDB.cs:13-21 | a runner keeps its query builder and query name, with an empty log |
| `OrientDBBenchmark.BenchmarkOrientDB.ClearCache` | Benchmarking_MultiModel_DBs/Benchmark_OrientDB.cs:24-30 | appends the console message |
| `OrientDBBenchmark.BenchmarkOrientDB.ExecuteQuery` | Benchmarking_MultiModel_DBs/Benchmark_OrientDB.cs:169-175 | the reply's text, the empty string for a null result |
| `OrientDBBenchmark.BenchmarkOrientDB.TimedRun` | Benchmarking_MultiModel_DBs/Benchmark_OrientDB.cs:51-63 | stopwatch start, execution, stop, and the result of that window |
| `OrientDBBenchmark.BenchmarkOrientDB.Warmup` | Benchmarking_MultiModel_DBs/Benchmark_OrientDB.cs:42-45 | `warmupRuns` untimed executions |
| `OrientDBBenchmark.BenchmarkOrientDB.Sample` | Benchmarking_MultiModel_DBs/Benchmark_OrientDB.cs:68-82 | one sample, with a `ClearCache` first when the phase resets |
| `OrientDBBenchmark.BenchmarkOrientDB.Samples` | Benchmarking_MultiModel_DBs/Benchmark_OrientDB.cs:49-64 | a loop of samples leaves `SampleLog` and returns `SampleResults` |
| `OrientDBBenchmark.BenchmarkOrientDB.RunNonParallelTests` | Benchmarking_MultiModel_DBs/Benchmark_OrientDB.cs:33-88 | leaves exactly `NonParallelLog` and returns exactly `NonParallelResults` |
| `OrientDBBenchmark.BenchmarkOrientDB.RunParallelTests` | Benchmarking_MultiModel_DBs/Benchmark_OrientDB.cs:91-166 | leaves exactly `ParallelLog` and returns exactly `ParallelResults` |
| `ArangoDBBenchmark.ArangoReset` | Benchmarking_MultiModel_DBs/Benchmark_ArangoDB.cs:28-46 | the service restart when SSH goes through, the logged error otherwise, then the 1000 ms delay; stated by `ArangoResetWellFormed`, `ArangoRestartReachesServer`, `ArangoFailedSshInvisible` |
| `ArangoDBBenchmark.RowsText` | Benchmarking_MultiModel_DBs/Benchmark_ArangoDB.cs:73 | the rows joined with ", " |
| `ArangoDBBenchmark.ArangoResetWellFormed` | Benchmarking_MultiModel_DBs/Benchmark_ArangoDB.cs:28-46 | the ArangoDB `ClearCache` appends one reset and the delay, whether or not SSH goes through |
| `ArangoDBBenchmark.ArangoRestartReachesServer` | Benchmarking_MultiModel_DBs/Benchmark_ArangoDB.cs:34-38 | when SSH goes through, the service restart reaches the database |
| `ArangoDBBenchmark.ArangoFailedSshInvisible` | Benchmarking_MultiModel_DBs/Benchmark_ArangoDB.cs:30-45 | when SSH always fails, the failure is swallowed and `ClearCache` never reaches the database |
| `ArangoDBBenchmark.BenchmarkArangoDB.constructor` | Benchmarking_MultiModel_DBs/Benchmark_ArangoDB.cs:14-26 | a runner keeps its query builder and query name, with an empty log |
| `ArangoDBBenchmark.BenchmarkArangoDB.ClearCache` | Benchmarking_MultiModel_DBs/Benchmark_ArangoDB.cs:28-46 | appends the restart or the logged SSH error, then the 1000 ms delay |
| `ArangoDBBenchmark.BenchmarkArangoDB.ExecuteQuery` | Benchmarking_MultiModel_DBs/Benchmark_ArangoDB.cs:171-174 | the reply's rows, given what the database has seen |
| `ArangoDBBenchmark.BenchmarkArangoDB.TimedRun` | Benchmarking_MultiModel_DBs/Benchmark_ArangoDB.cs:63-74 | stopwatch start, execution, stop, and the result with the rows rendered |
| `ArangoDBBenchmark.BenchmarkArangoDB.Warmup` | Benchmarking_MultiModel_DBs/Benchmark_ArangoDB.cs:55-58 | `warmupRuns` untimed executions |
| `ArangoDBBenchmark.BenchmarkArangoDB.Sample` | Benchmarking_MultiModel_DBs/Benchmark_ArangoDB.cs:81-93 | one sample, with a `ClearCache` first when the phase resets |
| `ArangoDBBenchmark.BenchmarkArangoDB.Samples` | Benchmarking_MultiModel_DBs/Benchmark_ArangoDB.cs:61-75 | a loop of samples leaves `SampleLog` and returns `SampleResults` |
| `ArangoDBBenchmark.BenchmarkArangoDB.RunNonParallelTests` | Benchmarking_MultiModel_DBs/Benchmark_ArangoDB.cs:48-98 | leaves exactly `NonParallelLog` and returns exactly `NonParallelResults`, the output being the rows joined with ", " |
| `ArangoDBBenchmark.BenchmarkArangoDB.RunParallelTests` | Benchmarking_MultiModel_DBs/Benchmark_ArangoDB.cs:100-169 | leaves exactly `ParallelLog` and returns exactly `ParallelResults`, the output being the JSON serialisation of the rows |
| `MongoQueries.BuildFindFriendsDocumentQuery` | Benchmarking_MultiModel_DBs/MongoDBBenchmark_QueryBuilder.cs:11-19 | the `find` command on `edges` for the user's friends, the id spliced raw; stated by `FindFriendsDocumentFilter` and `SingleUserBuildersInjective` |
| `MongoQueries.BuildFindFriendsGraphQuery` | Benchmarking_MultiModel_DBs/MongoDBBenchmark_QueryBuilder.cs:22-44 | an `aggregate` on `edges`: `$match` on the user, a `$graphLookup` of depth 0; the id spliced raw (`SingleUserBuildersInjective`) |
| `MongoQueries.BuildFindFriendsOfFriendsDocumentQuery` | Benchmarking_MultiModel_DBs/MongoDBBenchmark_QueryBuilder.cs:47-67 | an `aggregate` with `$match` on the user and a `$lookup` of the friends' edges (`SingleUserBuildersInjective`) |
| `MongoQueries.BuildFindFriendsOfFriendsGraphQuery` | Benchmarking_MultiModel_DBs/MongoDBBenchmark_QueryBuilder.cs:70-93 | an `aggregate` with `$match` on the user and a `$graphLookup` of depth 1 (`SingleUserBuildersInjective`) |
| `MongoQueries.BuildFindMutualFriendsDocumentQuery` | Benchmarking_MultiModel_DBs/MongoDBBenchmark_QueryBuilder.cs:96-109 | an `aggregate` whose `$match` holds both users in one `$or`; stated by `MutualFriendsDocumentOr` |
| `MongoQueries.BuildFindMutualFriendsGraphQuery` | Benchmarking_MultiModel_DBs/MongoDBBenchmark_QueryBuilder.cs:112-135 | an `aggregate` that matches the first user's edges and then `friends.to` on the second; stated by `MutualFriendsGraphFirstUser` and `MutualFriendsGraphSecondUser` |
| `MongoQueries.BuildCountFriendsDocumentQuery` | Benchmarking_MultiModel_DBs/MongoDBBenchmark_QueryBuilder.cs:138-145 | a `count` command on `edges`; stated by `CountFriendsDocumentCommand` and `CountFriendsDocumentFilter` |
| `MongoQueries.BuildCountFriendsGraphQuery` | Benchmarking_MultiModel_DBs/MongoDBBenchmark_QueryBuilder.cs:148-169 | an `aggregate` on `edges` ending in `$count`; stated by `CountFriendsGraphCommand` |
| `MongoQueries.BuildFindUsersWithMoreThanNFriendsDocumentQuery` | Benchmarking_MultiModel_DBs/MongoDBBenchmark_QueryBuilder.cs:172-184 | an `aggregate` grouping edges by `from` and keeping counts above `n`; stated by `MoreThanNDocumentThreshold` and `MoreThanNInjective` |
| `MongoQueries.BuildFindUsersWithMoreThanNFriendsGraphQuery` | Benchmarking_MultiModel_DBs/MongoDBBenchmark_QueryBuilder.cs:187-209 | the same after a `$graphLookup`; stated by `MoreThanNGraphThreshold` and `MoreThanNInjective` |
| `MongoQueries.BuildFindShortestPathDocumentQuery` | Benchmarking_MultiModel_DBs/MongoDBBenchmark_QueryBuilder.cs:212-236 | an `aggregate` from the start user, a `$graphLookup` restricted to the end user, and a final `$match` on it; stated by `ShortestPathEndTwice` |
| `MongoQueries.BuildFindShortestPathGraphQuery` | Benchmarking_MultiModel_DBs/MongoDBBenchmark_QueryBuilder.cs:239-263 | the same template as the document variant; stated by `ShortestPathVariantsAgree` |
| `MongoQueries.SingleUserBuildersInjective` | Benchmarking_MultiModel_DBs/MongoDBBenchmark_QueryBuilder.cs:11-169 | each single-user builder splices the id raw between fixed texts, so distinct ids give distinct queries |
| `MongoQueries.FindFriendsDocumentFilter` | Benchmarking_MultiModel_DBs/MongoDBBenchmark_QueryBuilder.cs:16 | the friends query filters `from: '<userId>'`, with the id verbatim |
| `MongoQueries.MutualFriendsDocumentOr` | Benchmarking_MultiModel_DBs/MongoDBBenchmark_QueryBuilder.cs:102 | both users sit in one `$or`, the first user first |
| `MongoQueries.MutualFriendsGraphFirstUser` | Benchmarking_MultiModel_DBs/MongoDBBenchmark_QueryBuilder.cs:118 | the graph mutual-friends query matches `from` on the first user |
| `MongoQueries.MutualFriendsGraphSecondUser` | Benchmarking_MultiModel_DBs/MongoDBBenchmark_QueryBuilder.cs:130 | and `friends.to` on the second |
| `MongoQueries.CountFriendsDocumentCommand` | Benchmarking_MultiModel_DBs/MongoDBBenchmark_QueryBuilder.cs:140-142 | the document count query opens with the command document's first line `count: 'edges',`, so `count` is its first key and the command counts `edges` |
| `MongoQueries.CountFriendsDocumentFilter` | Benchmarking_MultiModel_DBs/MongoDBBenchmark_QueryBuilder.cs:143 | whose query is `from: '<userId>'` |
| `MongoQueries.CountFriendsGraphCommand` | Benchmarking_MultiModel_DBs/MongoDBBenchmark_QueryBuilder.cs:152 | the graph count query is an `aggregate` on `edges` |
| `MongoQueries.MoreThanNDocumentThreshold` | Benchmarking_MultiModel_DBs/MongoDBBenchmark_QueryBuilder.cs:179 | `n` is written in decimal as the bound of `$gt` |
| `MongoQueries.MoreThanNGraphThreshold` | Benchmarking_MultiModel_DBs/MongoDBBenchmark_QueryBuilder.cs:204 | the same for the graph variant |
| `MongoQueries.MoreThanNInjective` | Benchmarking_MultiModel_DBs/MongoDBBenchmark_QueryBuilder.cs:172-209 | distinct thresholds give distinct queries |
| `MongoQueries.ShortestPathEndTwice` | Benchmarking_MultiModel_DBs/MongoDBBenchmark_QueryBuilder.cs:218-231 | the start user is matched first; the end user appears in `restrictSearchWithMatch` and again in the final `$match` |
| `MongoQueries.ShortestPathVariantsAgree` | Benchmarking_MultiModel_DBs/MongoDBBenchmark_QueryBuilder.cs:212-263 | the document and graph shortest-path builders give the same text |
| `ArangoQueries.BuildFindFriendsDocumentQuery` | Benchmarking_MultiModel_DBs/ArangoDBBenchmark_QueryBuilder.cs:4-10 | a scan of `edges` filtered on `_from`; stated by `FindFriendsDocumentFilter` and `SingleUserBuildersInjective` |
| `ArangoQueries.BuildFindFriendsGraphQuery` | Benchmarking_MultiModel_DBs/ArangoDBBenchmark_QueryBuilder.cs:13-18 | an outbound traversal `1..1` from the user; stated by `FindFriendsGraphDepthOne` |
| `ArangoQueries.BuildFindFriendsOfFriendsDocumentQuery` | Benchmarking_MultiModel_DBs/ArangoDBBenchmark_QueryBuilder.cs:21-33 | a nested scan of `edges` over the friends' edges (`SingleUserBuildersInjective`) |
| `ArangoQueries.BuildFindFriendsOfFriendsGraphQuery` | Benchmarking_MultiModel_DBs/ArangoDBBenchmark_QueryBuilder.cs:36-41 | an outbound traversal `2..2` from the user; stated by `FindFriendsOfFriendsGraphDepthTwo` |
| `ArangoQueries.BuildFindMutualFriendsDocumentQuery` | Benchmarking_MultiModel_DBs/ArangoDBBenchmark_QueryBuilder.cs:44-59 | two scans, one per user, and their `INTERSECTION`; stated by `MutualFriendsDocumentUsers` and `MutualFriendsDocumentIntersection` |
| `ArangoQueries.BuildFindMutualFriendsGraphQuery` | Benchmarking_MultiModel_DBs/ArangoDBBenchmark_QueryBuilder.cs:62-75 | two traversals, one per user, and their `INTERSECTION`; stated by `MutualFriendsGraphUsers` and `MutualFriendsGraphIntersection` |
| `ArangoQueries.BuildCountFriendsDocumentQuery` | Benchmarking_MultiModel_DBs/ArangoDBBenchmark_QueryBuilder.cs:78-86 | a count of the user's edges by scan (`SingleUserBuildersInjective`) |
| `ArangoQueries.BuildCountFriendsGraphQuery` | Benchmarking_MultiModel_DBs/ArangoDBBenchmark_QueryBuilder.cs:89-96 | a count of the user's neighbours by traversal (`SingleUserBuildersInjective`) |
| `ArangoQueries.BuildFindUsersWithMoreThanNFriendsDocumentQuery` | Benchmarking_MultiModel_DBs/ArangoDBBenchmark_QueryBuilder.cs:99-107 | users grouped by `_from`, kept when the count exceeds `n`; stated by `MoreThanNThreshold` and `MoreThanNInjective` |
| `ArangoQueries.BuildFindUsersWithMoreThanNFriendsGraphQuery` | Benchmarking_MultiModel_DBs/ArangoDBBenchmark_QueryBuilder.cs:110-122 | a traversal from the literal vertex `users/{userId}`, kept when the count exceeds `n`; stated by `MoreThanNThreshold` and `MoreThanNGraphFixedStart` |
| `ArangoQueries.BuildFindShortestPathDocumentQuery` | Benchmarking_MultiModel_DBs/ArangoDBBenchmark_QueryBuilder.cs:125-130 | `SHORTEST_PATH` from the start user to the end user; stated by `ShortestPathDocumentEnds` |
| `ArangoQueries.BuildFindShortestPathGraphQuery` | Benchmarking_MultiModel_DBs/ArangoDBBenchmark_QueryBuilder.cs:133-138 | the same in the graph variant; stated by `ShortestPathGraphEnds` |
| `ArangoQueries.SingleUserBuildersInjective` | Benchmarking_MultiModel_DBs/ArangoDBBenchmark_QueryBuilder.cs:4-96 | distinct ids give distinct queries |
| `ArangoQueries.FindFriendsDocumentFilter` | Benchmarking_MultiModel_DBs/ArangoDBBenchmark_QueryBuilder.cs:8 | the friends query filters `edge._from == '<userId>'` |
| `ArangoQueries.FindFriendsGraphDepthOne` | Benchmarking_MultiModel_DBs/ArangoDBBenchmark_QueryBuilder.cs:16 | the graph friends query traverses `1..1` from the user |
| `ArangoQueries.FindFriendsOfFriendsGraphDepthTwo` | Benchmarking_MultiModel_DBs/ArangoDBBenchmark_QueryBuilder.cs:39 | the graph friends-of-friends query traverses `2..2` |
| `ArangoQueries.MutualFriendsDocumentUsers` | Benchmarking_MultiModel_DBs/ArangoDBBenchmark_QueryBuilder.cs:49-54 | the first scan filters on the first user, the second on the second |
| `ArangoQueries.MutualFriendsDocumentIntersection` | Benchmarking_MultiModel_DBs/ArangoDBBenchmark_QueryBuilder.cs:57 | the result is the `INTERSECTION` of the two scans |
| `ArangoQueries.MutualFriendsGraphUsers` | Benchmarking_MultiModel_DBs/ArangoDBBenchmark_QueryBuilder.cs:66-70 | the first traversal starts at the first user, the second at the second |
| `ArangoQueries.MutualFriendsGraphIntersection` | Benchmarking_MultiModel_DBs/ArangoDBBenchmark_QueryBuilder.cs:73 | the result is the `INTERSECTION` of the two traversals |
| `ArangoQueries.MoreThanNThreshold` | Benchmarking_MultiModel_DBs/ArangoDBBenchmark_QueryBuilder.cs:105-120 | both builders write `n` in decimal after `FILTER count > ` |
| `ArangoQueries.MoreThanNInjective` | Benchmarking_MultiModel_DBs/ArangoDBBenchmark_QueryBuilder.cs:99-122 | distinct thresholds give distinct queries |
| `ArangoQueries.MoreThanNGraphFixedStart` | Benchmarking_MultiModel_DBs/ArangoDBBenchmark_QueryBuilder.cs:114 | the graph variant always starts at the literal vertex `users/{userId}`: the doubled braces leave the placeholder unfilled |
| `ArangoQueries.ShortestPathDocumentEnds` | Benchmarking_MultiModel_DBs/ArangoDBBenchmark_QueryBuilder.cs:128 | `SHORTEST_PATH` from the start user `TO` the end user |
| `ArangoQueries.ShortestPathGraphEnds` | Benchmarking_MultiModel_DBs/ArangoDBBenchmark_QueryBuilder.cs:136 | the same in the graph variant |
| `OrientQueries.BuildFindFriendsDocumentQuery` | Benchmarking_MultiModel_DBs/OrientDBBenchmark_QueryBuilder.cs:8-14 | expands `out('edges')` of the user with that `_key`; stated by `FindFriendsShape` and `SingleUserBuildersInjective` |
| `OrientQueries.BuildFindFriendsGraphQuery` | Benchmarking_MultiModel_DBs/OrientDBBenchmark_QueryBuilder.cs:17-23 | the same text as the document variant; stated by `GraphVariantsEqualDocumentVariants` |
| `OrientQueries.BuildFindFriendsOfFriendsDocumentQuery` | Benchmarking_MultiModel_DBs/OrientDBBenchmark_QueryBuilder.cs:26-32 | expands `out('edges').out('edges')` of the user; stated by `FindFriendsOfFriendsShape` |
| `OrientQueries.BuildFindFriendsOfFriendsGraphQuery` | Benchmarking_MultiModel_DBs/OrientDBBenchmark_QueryBuilder.cs:35-41 | the same text as the document variant; stated by `GraphVariantsEqualDocumentVariants` |
| `OrientQueries.BuildFindMutualFriendsDocumentQuery` | Benchmarking_MultiModel_DBs/OrientDBBenchmark_QueryBuilder.cs:44-59 | `friends1` and `friends2` selected by the two keys, and their `intersect`; stated by `MutualFriendsUsers` and `MutualFriendsIntersect` |
| `OrientQueries.BuildFindMutualFriendsGraphQuery` | Benchmarking_MultiModel_DBs/OrientDBBenchmark_QueryBuilder.cs:62-77 | the same text as the document variant; stated by `GraphVariantsEqualDocumentVariants` |
| `OrientQueries.BuildCountFriendsDocumentQuery` | Benchmarking_MultiModel_DBs/OrientDBBenchmark_QueryBuilder.cs:80-86 | counts `out('edges')` of the user; stated by `CountFriendsShape` |
| `OrientQueries.BuildCountFriendsGraphQuery` | Benchmarking_MultiModel_DBs/OrientDBBenchmark_QueryBuilder.cs:89-95 | the same text as the document variant; stated by `GraphVariantsEqualDocumentVariants` |
| `OrientQueries.BuildFindUsersWithMoreThanNFriendsDocumentQuery` | Benchmarking_MultiModel_DBs/OrientDBBenchmark_QueryBuilder.cs:98-104 | users whose `count(out('edges'))` exceeds `n`; stated by `MoreThanNThreshold` and `MoreThanNInjective` |
| `OrientQueries.BuildFindUsersWithMoreThanNFriendsGraphQuery` | Benchmarking_MultiModel_DBs/OrientDBBenchmark_QueryBuilder.cs:107-113 | the same text as the document variant; stated by `GraphVariantsEqualDocumentVariants` |
| `OrientQueries.BuildFindShortestPathDocumentQuery` | Benchmarking_MultiModel_DBs/OrientDBBenchmark_QueryBuilder.cs:116-121 | `shortestPath` from the start vertex to the end vertex, `'OUTBOUND'`; stated by `ShortestPathStart` and `ShortestPathEnd` |
| `OrientQueries.BuildFindShortestPathGraphQuery` | Benchmarking_MultiModel_DBs/OrientDBBenchmark_QueryBuilder.cs:124-129 | the same text as the document variant; stated by `GraphVariantsEqualDocumentVariants` |
| `OrientQueries.GraphVariantsEqualDocumentVariants` | Benchmarking_MultiModel_DBs/OrientDBBenchmark_QueryBuilder.cs:8-129 | every graph builder gives exactly the text of its document builder |
| `OrientQueries.SingleUserBuildersInjective` | Benchmarking_MultiModel_DBs/OrientDBBenchmark_QueryBuilder.cs:8-95 | distinct ids give distinct queries |
| `OrientQueries.FindFriendsShape` | Benchmarking_MultiModel_DBs/OrientDBBenchmark_QueryBuilder.cs:8-14 | the friends query selects `_key = '<userId>'` and expands `out('edges')` |
| `OrientQueries.FindFriendsOfFriendsShape` | Benchmarking_MultiModel_DBs/OrientDBBenchmark_QueryBuilder.cs:26-32 | the friends-of-friends query selects the same key and expands `out('edges').out('edges')` |
| `OrientQueries.CountFriendsShape` | Benchmarking_MultiModel_DBs/OrientDBBenchmark_QueryBuilder.cs:80-86 | the count query counts `out('edges')` of the user with that key |
| `OrientQueries.MutualFriendsUsers` | Benchmarking_MultiModel_DBs/OrientDBBenchmark_QueryBuilder.cs:46-55 | `friends1` is selected by the first user's key, `friends2` by the second's |
| `OrientQueries.MutualFriendsIntersect` | Benchmarking_MultiModel_DBs/OrientDBBenchmark_QueryBuilder.cs:57 | the result is their `intersect` |
| `OrientQueries.MoreThanNThreshold` | Benchmarking_MultiModel_DBs/OrientDBBenchmark_QueryBuilder.cs:103 | the query ends with `count(out('edges')) > n`, `n` in decimal |
| `OrientQueries.MoreThanNInjective` | Benchmarking_MultiModel_DBs/OrientDBBenchmark_QueryBuilder.cs:98-104 | distinct thresholds give distinct queries |
| `OrientQueries.ShortestPathStart` | Benchmarking_MultiModel_DBs/OrientDBBenchmark_QueryBuilder.cs:119 | `shortestPath` takes the start user's vertex first |
| `OrientQueries.ShortestPathEnd` | Benchmarking_MultiModel_DBs/OrientDBBenchmark_QueryBuilder.cs:120 | then the end user's vertex, direction `'OUTBOUND'` |
| `CsvWriter.RowWithResult` | Benchmarking_MultiModel_DBs/CsvWriter.cs:15 | name, time, label and quoted output, comma separated, nothing escaped; stated by `RowWithResultFieldCount` and `RowWithResultReadBack` |
| `CsvWriter.RowWithoutResult` | Benchmarking_MultiModel_DBs/CsvWriter.cs:30 | name, time and label, comma separated; stated by `RowWithoutResultFieldCount` and `RowWithoutResultReadBack` |
| `CsvWriter.WriteResultsToCsvWithResult` | Benchmarking_MultiModel_DBs/CsvWriter.cs:5-18 | `results.Count + 1` lines: the header, then line `k + 1` is the row of `results[k]` |
| `CsvWriter.WriteResultsToCsvWithoutResult` | Benchmarking_MultiModel_DBs/CsvWriter.cs:20-33 | the same with the three-column header and rows |
| `CsvWriter.HeaderColumns` | Benchmarking_MultiModel_DBs/CsvWriter.cs:10-25 | the headers split on commas into exactly their four and three column names |
| `CsvWriter.RowWithoutResultFieldCount` | Benchmarking_MultiModel_DBs/CsvWriter.cs:30 | a row splits into 3 fields plus one per comma in the name and the cache label: nothing is escaped |
| `CsvWriter.RowWithResultFieldCount` | Benchmarking_MultiModel_DBs/CsvWriter.cs:15 | a row with output splits into 4 fields plus one per comma in the name, the label and the output: the quotes do not protect the output's commas |
| `CsvWriter.RowWithoutResultReadBack` | Benchmarking_MultiModel_DBs/CsvWriter.cs:30 | without commas in the text fields, a row reads back as name, time and label, and the time parses to the recorded value; a null field is written as "" |
| `CsvWriter.RowWithResultReadBack` | Benchmarking_MultiModel_DBs/CsvWriter.cs:15 | without commas in the text fields, a row reads back as its four fields, the output between quotes |
| `CsvWriter.ClientLabelCommas` | Benchmarking_MultiModel_DBs/Benchmark_MongoDB.cs:124 | a parallel client label holds one comma more than its phase name |
| `CsvWriter.ParallelRowColumns` | Benchmarking_MultiModel_DBs/CsvWriter.cs:15-30 | so every parallel row has one field more than the header names: 4, or 5 with output |
| `CsvWriter.RowsCanCollide` | Benchmarking_MultiModel_DBs/CsvWriter.cs:30 | two different results can be written as the same row |
| `DatasetFilter.EdgeNodes` | Benchmarking_MultiModel_SplitDataset/DatasetFilter.cs:14-19 | both tokens of a line that splits into exactly two, none otherwise; stated by `EdgeLineNodes` and `TwoSpacesIgnored` |
| `DatasetFilter.UniqueNodes` | Benchmarking_MultiModel_SplitDataset/DatasetFilter.cs:5-24 | every node of every edge line; stated by `UniqueNodesOfLine` and `ExtractUniqueNodes` |
| `DatasetFilter.Filtered` | Benchmarking_MultiModel_SplitDataset/DatasetFilter.cs:26-41 | the lines whose first token names a node to keep; stated by `FilteredIndices`, `FilteredLinesKept`, `FilteredIdempotent` |
| `DatasetFilter.FeatureNodes` | Benchmarking_MultiModel_SplitDataset/DatasetFilter.cs:50-54 | the first token of every feature line |
| `DatasetFilter.CircleNodes` | Benchmarking_MultiModel_SplitDataset/DatasetFilter.cs:60-67 | every token after the first of every circle line |
| `DatasetFilter.ExtractUniqueNodes` | Benchmarking_MultiModel_SplitDataset/DatasetFilter.cs:5-24 | the nodes are exactly both tokens of every line that splits into exactly two |
| `DatasetFilter.EdgeLineNodes` | Benchmarking_MultiModel_SplitDataset/DatasetFilter.cs:14-19 | a line `a b` of space-free names yields exactly `{a, b}` |
| `DatasetFilter.TwoSpacesIgnored` | Benchmarking_MultiModel_SplitDataset/DatasetFilter.cs:14-15 | a line with two or more spaces anywhere adds no node, since it splits into three or more parts |
| `DatasetFilter.UniqueNodesOfLine` | Benchmarking_MultiModel_SplitDataset/DatasetFilter.cs:12-20 | every line's nodes are among the file's nodes |
| `DatasetFilter.FilterFileByNodes` | Benchmarking_MultiModel_SplitDataset/DatasetFilter.cs:26-41 | the output is `Filtered(lines, keep)` |
| `DatasetFilter.FilteredIndices` | Benchmarking_MultiModel_SplitDataset/DatasetFilter.cs:32-38 | the filter keeps, unchanged and in increasing position, exactly the lines whose first token is kept: a subsequence of the input |
| `DatasetFilter.FilteredLinesKept` | Benchmarking_MultiModel_SplitDataset/DatasetFilter.cs:34-35 | every line written starts with a node to keep |
| `DatasetFilter.FilteredIdempotent` | Benchmarking_MultiModel_SplitDataset/DatasetFilter.cs:32-38 | filtering the output again with the same nodes changes nothing |
| `DatasetFilter.ValidateNodeCoverage` | Benchmarking_MultiModel_SplitDataset/DatasetFilter.cs:43-71 | true exactly when every edge node starts a feature line or is a member (a token after the first) of a circle line |
| `DatasetFilter.RemoveAll` | Benchmarking_MultiModel_SplitDataset/DatasetFilter.cs:63-66 | removing a line's members one by one removes all of them |
| `DatasetFilter.CoverageIgnoresOrder` | Benchmarking_MultiModel_SplitDataset/DatasetFilter.cs:50-67 | the coverage result does not depend on the order of the feature and circle lines |
| `DatasetSubset.Shuffled` | Benchmarking_MultiModel_SplitDataset/DatasetSubsetGenerator.cs:25-26 | the lines in the order of the permutation, as many as the input; stated by `ShuffledIsPermutation` |
| `DatasetSubset.SubsetSize` | Benchmarking_MultiModel_SplitDataset/DatasetSubsetGenerator.cs:19-23 | the file's length when it is no longer than `maxLines`, else `maxLines`, and 0 for a negative `maxLines`; stated by `SubsetLength` |
| `DatasetSubset.Subset` | Benchmarking_MultiModel_SplitDataset/DatasetSubsetGenerator.cs:25-35 | the first `SubsetSize` lines of the shuffle; stated by `SubsetLength`, `SubsetOfInput`, `ShortFileWhole` |
| `DatasetSubset.GenerateRandomSubset` | Benchmarking_MultiModel_SplitDataset/DatasetSubsetGenerator.cs:5-36 | the lines written are the first `SubsetSize` lines of the shuffle |
| `DatasetSubset.SubsetLength` | Benchmarking_MultiModel_SplitDataset/DatasetSubsetGenerator.cs:19-34 | `min(count, maxLines)` lines are written, and none when `maxLines` is negative |
| `DatasetSubset.ShuffledIsPermutation` | Benchmarking_MultiModel_SplitDataset/DatasetSubsetGenerator.cs:25-26 | the shuffle is a permutation of the input, as a multiset |
| `DatasetSubset.SubsetOfInput` | Benchmarking_MultiModel_SplitDataset/DatasetSubsetGenerator.cs:26-35 | every line written is an input line, never more often than in the input |
| `DatasetSubset.ShortFileWhole` | Benchmarking_MultiModel_SplitDataset/DatasetSubsetGenerator.cs:19-23 | a file no longer than `maxLines` is written whole: every line, as often as in the input |
| `DatasetFiles.EdgeLine` | Benchmarking_MultiModel_DBImporter/MongoDBImporter.cs:25-34 | a line of exactly two tokens is an edge, any other line is skipped; stated by `EdgeLineTotal` and `EdgeLineRoundTrip` |
| `DatasetFiles.FeatureLine` | Benchmarking_MultiModel_DBImporter/MongoDBImporter.cs:48-58 | a node and its integer features from a line of two or more tokens; a token that does not parse throws; stated by `FeatureLineRoundTrip` and `FeatureLineTrailingSpace` |
| `DatasetFiles.CircleLine` | Benchmarking_MultiModel_DBImporter/MongoDBImporter.cs:74-84 | a circle name and its members from a line of two or more tokens; stated by `CircleLineTotal` and `CircleLineRoundTrip` |
| `DatasetFiles.EgoFeatures` | Benchmarking_MultiModel_DBImporter/MongoDBImporter.cs:91-110 | the first line's integers; nothing for an empty file; a throw when a token does not parse |
| `DatasetFiles.Load` | Benchmarking_MultiModel_DBImporter/MongoDBImporter.cs:46-61 | a file read line by line, stopping at the first line that throws; stated by `LoadStops`, `LoadFailure`, `LoadIndices`, `ParsedIndicesExact` |
| `DatasetFiles.ParseIntsEach` | Benchmarking_MultiModel_DBImporter/MongoDBImporter.cs:52 | `Select(int.Parse)` succeeds exactly when every token parses, and then gives each token's value, in order |
| `DatasetFiles.RenderParse` | Benchmarking_MultiModel_DBImporter/MongoDBImporter.cs:52 | rendered 32-bit integers parse back to themselves |
| `DatasetFiles.EdgeLineTotal` | Benchmarking_MultiModel_DBImporter/MongoDBImporter.cs:25-34 | an edge line never throws |
| `DatasetFiles.CircleLineTotal` | Benchmarking_MultiModel_DBImporter/MongoDBImporter.cs:74-85 | a circle line never throws |
| `DatasetFiles.EdgeLineRoundTrip` | Benchmarking_MultiModel_DBImporter/MongoDBImporter.cs:25-32 | an edge written as `from to` reads back as that edge |
| `DatasetFiles.FeatureLineRoundTrip` | Benchmarking_MultiModel_DBImporter/MongoDBImporter.cs:48-58 | a node and its 32-bit features, space separated, read back as that document |
| `DatasetFiles.CircleLineRoundTrip` | Benchmarking_MultiModel_DBImporter/MongoDBImporter.cs:74-84 | a circle and its members, space separated, read back as that document |
| `DatasetFiles.FeatureLineTrailingSpace` | Benchmarking_MultiModel_DBImporter/MongoDBImporter.cs:52 | a feature line with a trailing space throws: its last token is empty |
| `DatasetFiles.LoadStops` | Benchmarking_MultiModel_DBImporter/MongoDBImporter.cs:46-61 | once a line has thrown, the rest of the file changes nothing |
| `DatasetFiles.LoadFailure` | Benchmarking_MultiModel_DBImporter/MongoDBImporter.cs:46-61 | a load fails exactly when some line throws, at the first such line, keeping the documents of the lines before it |
| `DatasetFiles.LoadIndices` | Benchmarking_MultiModel_DBImporter/MongoDBImporter.cs:23-35 | a load with no throwing line keeps, in file order, one document per line that gives one, and that line's document |
| `DatasetFiles.ParsedIndicesExact` | Benchmarking_MultiModel_DBImporter/MongoDBImporter.cs:23-35 | those lines are, in increasing order, exactly the lines that give a document |
| `DatasetFiles.ParseIntList` | Benchmarking_MultiModel_DBImporter/MongoDBImporter.cs:52 | the tokens parsed one after another give `ParseInts` |
| `MongoDBImport.FeatureNamesOf` | Benchmarking_MultiModel_DBImporter/MongoDBImporter.cs:119-129 | one feature name per line, empty lines included |
| `MongoDBImport.MongoDBImporter.constructor` | Benchmarking_MultiModel_DBImporter/MongoDBImporter.cs:10-14 | a connection to a database holding the given collections |
| `MongoDBImport.MongoDBImporter.ImportEdges` | Benchmarking_MultiModel_DBImporter/MongoDBImporter.cs:16-37 | appends one `{from, to}` document per two-token line, in file order, duplicates included |
| `MongoDBImport.MongoDBImporter.ImportFeatures` | Benchmarking_MultiModel_DBImporter/MongoDBImporter.cs:39-63 | appends one document per line of two or more tokens; a token that does not parse ends the import, the earlier documents staying, and the result says whether it ended so |
| `MongoDBImport.MongoDBImporter.ImportCircles` | Benchmarking_MultiModel_DBImporter/MongoDBImporter.cs:65-89 | appends one `{circleName, members}` document per line of two or more tokens, with the members as text |
| `MongoDBImport.MongoDBImporter.ImportEgoFeatures` | Benchmarking_MultiModel_DBImporter/MongoDBImporter.cs:91-110 | the first line's integers under node "ego"; nothing for an empty file; failure when a token does not parse |
| `MongoDBImport.MongoDBImporter.ImportFeatureNames` | Benchmarking_MultiModel_DBImporter/MongoDBImporter.cs:112-131 | appends `{index: k, name: line k}` for every line, `k` counting from 0 |
| `ArangoDBImport.ValidKey` | Benchmarking_MultiModel_DBImporter/ArangoDBImporter.cs:69-76 | a key the server accepts: not the empty key, which a line with a trailing space gives as its second token |
| `ArangoDBImport.AddUser` | Benchmarking_MultiModel_DBImporter/ArangoDBImporter.cs:69-76 | the lookup, then the insert when the lookup says absent; the insert of a present or an illegal key is rejected; stated by `AddUserKeepsUnique`, `SelfLoopAddsOnce`, `TrailingSpaceEndsImport` |
| `ArangoDBImport.EdgeStep` | Benchmarking_MultiModel_DBImporter/ArangoDBImporter.cs:63-85 | one line of the edge file: both endpoints, then the edge; a rejected insert ends the import |
| `ArangoDBImport.ImportedEdges` | Benchmarking_MultiModel_DBImporter/ArangoDBImporter.cs:61-86 | the edge file line by line; stated by `ImportedEdgesStops`, `UsersStayUnique`, `UsersStayLegal`, `EdgesWithoutLookupFailures` |
| `ArangoDBImport.KeyedStep` | Benchmarking_MultiModel_DBImporter/ArangoDBImporter.cs:104-116 | one keyed document, rejected when its key is taken or illegal, which ends the import |
| `ArangoDBImport.ImportedKeyed` | Benchmarking_MultiModel_DBImporter/ArangoDBImporter.cs:102-117 | a keyed file line by line; stated by `ImportedKeyedStops`, `KeyedGrows`, `KeyedComplete`, `KeyedFailsOnRejectedKey` |
| `ArangoDBImport.ArangoDBImporter.constructor` | Benchmarking_MultiModel_DBImporter/ArangoDBImporter.cs:12-22 | a connection to a database holding the given collections |
| `ArangoDBImport.ArangoDBImporter.CollectionExists` | Benchmarking_MultiModel_DBImporter/ArangoDBImporter.cs:24-28 | true exactly when the collection exists |
| `ArangoDBImport.ArangoDBImporter.EnsureCollection` | Benchmarking_MultiModel_DBImporter/ArangoDBImporter.cs:45-48 | creates the collection only when it is absent |
| `ArangoDBImport.ArangoDBImporter.DocumentExists` | Benchmarking_MultiModel_DBImporter/ArangoDBImporter.cs:30-41 | true exactly when the user is there and the lookup raises no server error |
| `ArangoDBImport.ArangoDBImporter.AddUserIfAbsent` | Benchmarking_MultiModel_DBImporter/ArangoDBImporter.cs:69-72 | inserts the key when the lookup says absent, as `AddUser`; the insert of a key in fact present, or of the empty key, is rejected |
| `ArangoDBImport.ArangoDBImporter.ImportEdgeLine` | Benchmarking_MultiModel_DBImporter/ArangoDBImporter.cs:63-85 | one line of the edge file, as `EdgeStep` |
| `ArangoDBImport.ArangoDBImporter.ImportEdges` | Benchmarking_MultiModel_DBImporter/ArangoDBImporter.cs:43-88 | creates `users` and `edges` only if absent; the users, edges and outcome are those of `ImportedEdges` |
| `ArangoDBImport.ArangoDBImporter.ImportFeatureLine` | Benchmarking_MultiModel_DBImporter/ArangoDBImporter.cs:104-116 | one line of the feature file, as `KeyedStep`: rejected when its node key is taken or empty (a line ` 5 1`) |
| `ArangoDBImport.ArangoDBImporter.ImportFeatures` | Benchmarking_MultiModel_DBImporter/ArangoDBImporter.cs:90-119 | creates `features` only if absent; documents keyed by node, as `ImportedKeyed` |
| `ArangoDBImport.ArangoDBImporter.ImportCircleLine` | Benchmarking_MultiModel_DBImporter/ArangoDBImporter.cs:135-147 | one line of the circle file, as `KeyedStep`: rejected when its name is taken or empty |
| `ArangoDBImport.ArangoDBImporter.ImportCircles` | Benchmarking_MultiModel_DBImporter/ArangoDBImporter.cs:121-150 | creates `circles` only if absent; documents keyed by circle name |
| `ArangoDBImport.ArangoDBImporter.ImportEgoFeatures` | Benchmarking_MultiModel_DBImporter/ArangoDBImporter.cs:152-176 | the first line's integers under key "ego"; fails when a token does not parse or "ego" is taken |
| `ArangoDBImport.ArangoDBImporter.ImportFeatureNames` | Benchmarking_MultiModel_DBImporter/ArangoDBImporter.cs:178-202 | creates `featureNames` only if absent; line `k` keyed by `k` in decimal |
| `ArangoDBImport.ImportedEdgesStops` | Benchmarking_MultiModel_DBImporter/ArangoDBImporter.cs:61-86 | once an insert is rejected, the rest of the edge file changes nothing |
| `ArangoDBImport.ImportedKeyedStops` | Benchmarking_MultiModel_DBImporter/ArangoDBImporter.cs:102-117 | once a line throws, the rest of a keyed file changes nothing |
| `ArangoDBImport.EnsuredIdempotent` | Benchmarking_MultiModel_DBImporter/ArangoDBImporter.cs:45-53 | a collection exists after it is ensured, ensuring it again changes nothing, and an existing collection keeps its type |
| `ArangoDBImport.AddUserKeepsUnique` | Benchmarking_MultiModel_DBImporter/ArangoDBImporter.cs:69-76 | an accepted user insert keeps user keys unique |
| `ArangoDBImport.UsersStayLegal` | Benchmarking_MultiModel_DBImporter/ArangoDBImporter.cs:69-76 | a `users` collection holding only legal keys keeps only legal keys through an edge file |
| `ArangoDBImport.UsersStayUnique` | Benchmarking_MultiModel_DBImporter/ArangoDBImporter.cs:69-76 | user keys stay unique through a whole edge file, whatever the lookups do |
| `ArangoDBImport.EdgesWithoutLookupFailures` | Benchmarking_MultiModel_DBImporter/ArangoDBImporter.cs:61-86 | with no lookup error and only legal keys stored, the import runs to the end exactly when no endpoint is the empty key; then the users become the old users plus every endpoint of every two-token line, and one edge `users/from` to `users/to` is added per such line, in order |
| `ArangoDBImport.SelfLoopAddsOnce` | Benchmarking_MultiModel_DBImporter/ArangoDBImporter.cs:69-76 | a self-loop line `a a` with a legal key inserts `a` once |
| `ArangoDBImport.TrailingSpaceEndsImport` | Benchmarking_MultiModel_DBImporter/ArangoDBImporter.cs:64-75 | a line `a ` splits into `a` and the empty key, whose insert is rejected, so the import ends |
| `ArangoDBImport.FailedLookupEndsImport` | Benchmarking_MultiModel_DBImporter/ArangoDBImporter.cs:37-39 | a server error while looking up a present user makes the importer insert it again, which ends the import |
| `ArangoDBImport.KeyedGrows` | Benchmarking_MultiModel_DBImporter/ArangoDBImporter.cs:102-117 | a keyed import keeps every earlier document |
| `ArangoDBImport.KeyedComplete` | Benchmarking_MultiModel_DBImporter/ArangoDBImporter.cs:102-117 | an import that runs to the end met no malformed line and no illegal key, and stored each parsed line's document under its key |
| `ArangoDBImport.ReimportFails` | Benchmarking_MultiModel_DBImporter/ArangoDBImporter.cs:110-115 | importing the same file again fails at its first document: the key is taken |
| `ArangoDBImport.KeyedFailsOnRejectedKey` | Benchmarking_MultiModel_DBImporter/ArangoDBImporter.cs:110-115 | a line whose key is already taken or empty ends the import |
| `ArangoDBImport.LeadingSpaceFeatureEndsImport` | Benchmarking_MultiModel_DBImporter/ArangoDBImporter.cs:104-115 | a feature line with a leading space, such as ` 5 1`, has the empty key and ends the import |
| `ArangoDBImport.FeatureNamesStored` | Benchmarking_MultiModel_DBImporter/ArangoDBImporter.cs:190-199 | into a collection without the keys "0", "1", ..., every feature-name line is stored under its position |
| `ArangoDBImport.KeyedOnlyParsedKeys` | Benchmarking_MultiModel_DBImporter/ArangoDBImporter.cs:102-117 | every key added comes from a line of the file |
| `OrientDBImport.KeyedNamesOf` | Benchmarking_MultiModel_DBImporter/OrientDBImporter.cs:199-208 | one feature name per line, keyed by its position |
| `OrientDBImport.AddUser` | Benchmarking_MultiModel_DBImporter/OrientDBImporter.cs:72-76 | the lookup, then a save when the lookup says absent; never rejected; stated by `AddUserWithoutLoadFailure` and `FailedLoadDuplicatesUser` |
| `OrientDBImport.UsersStep` | Benchmarking_MultiModel_DBImporter/OrientDBImporter.cs:65-81 | the users after one edge line: both endpoints in turn |
| `OrientDBImport.ImportedUsers` | Benchmarking_MultiModel_DBImporter/OrientDBImporter.cs:65-91 | the users after the edge file; stated by `UsersWithoutLoadFailures` |
| `OrientDBImport.OrientDBImporter.constructor` | Benchmarking_MultiModel_DBImporter/OrientDBImporter.cs:14-20 | a connection to a database holding the given classes |
| `OrientDBImport.OrientDBImporter.CollectionExists` | Benchmarking_MultiModel_DBImporter/OrientDBImporter.cs:22-26 | true exactly when the class exists |
| `OrientDBImport.OrientDBImporter.EnsureClass` | Benchmarking_MultiModel_DBImporter/OrientDBImporter.cs:46-49 | creates the class only when it is absent |
| `OrientDBImport.OrientDBImporter.DocumentExists` | Benchmarking_MultiModel_DBImporter/OrientDBImporter.cs:28-41 | true exactly when the user is there and its load throws nothing |
| `OrientDBImport.OrientDBImporter.AddUserIfAbsent` | Benchmarking_MultiModel_DBImporter/OrientDBImporter.cs:72-76 | saves a user document when the lookup says absent |
| `OrientDBImport.OrientDBImporter.ImportEdgeLine` | Benchmarking_MultiModel_DBImporter/OrientDBImporter.cs:65-90 | one line of the edge file: its users as `UsersStep`, and its edge |
| `OrientDBImport.OrientDBImporter.ImportEdges` | Benchmarking_MultiModel_DBImporter/OrientDBImporter.cs:43-93 | creates `users` (vertex) and `edges` (edge) only if absent; users as `ImportedUsers`; one edge `users/from` to `users/to` per two-token line, in order |
| `OrientDBImport.OrientDBImporter.ImportFeatures` | Benchmarking_MultiModel_DBImporter/OrientDBImporter.cs:95-125 | one document per line of two or more tokens; a token that does not parse ends the import |
| `OrientDBImport.OrientDBImporter.ImportCircles` | Benchmarking_MultiModel_DBImporter/OrientDBImporter.cs:127-157 | one document per line of two or more tokens |
| `OrientDBImport.OrientDBImporter.ImportEgoFeatures` | Benchmarking_MultiModel_DBImporter/OrientDBImporter.cs:159-184 | the first line's integers under "ego"; nothing for an empty file |
| `OrientDBImport.OrientDBImporter.ImportFeatureNames` | Benchmarking_MultiModel_DBImporter/OrientDBImporter.cs:186-211 | one document per line, keyed "0", "1", ... in line order |
| `OrientDBImport.UsersWithoutLoadFailures` | Benchmarking_MultiModel_DBImporter/OrientDBImporter.cs:72-81 | with no load error, user keys stay unique and become the old users plus every endpoint of every two-token line |
| `OrientDBImport.AddUserWithoutLoadFailure` | Benchmarking_MultiModel_DBImporter/OrientDBImporter.cs:72-76 | a lookup that does not throw adds a key only when it is absent |
| `OrientDBImport.FailedLoadDuplicatesUser` | Benchmarking_MultiModel_DBImporter/OrientDBImporter.cs:36-39 | a load that throws for a present user saves that user a second time |

## Left out

- Database drivers: each database is in-memory state. For the runners this is a reply oracle; for the importers it is sequences and maps of documents. Whether queries for the different databases mean the same thing needs database semantics and is not modelled.
- Stopwatch: each reading is a natural number taken from an oracle over the log. Wall-clock time is not modelled.
- SSH and `Task.Delay`: the restart is an oracle (`sshWorks`) that says whether it goes through, and the delay is a log event. The SSH client is built with an empty host name, so the source's restart presumably always fails; `ArangoFailedSshInvisible` states what follows when it does.
- Concurrency: the parallel runs are modelled with the clients of a phase one after another. The unsynchronised `List.Add` from concurrent tasks can lose or reorder results in the source; the model does not capture that.
- `Average()`: only the exception on an empty list is kept. The double it computes only goes to the console.
- Console output and file streams are left out. A file is its sequence of lines, and all input lines are read before any output, as the source does.
- `Random(42)`: the shuffle is a permutation given as a parameter, so the particular order .NET produces is not modelled.
- `int.Parse`: an optional sign and at least one ASCII digit, within the 32-bit range. Surrounding whitespace, culture-specific formats and the different exception types are not modelled.
- MongoDB `ClearCache`: the `find` with a fresh GUID filter and the `planCacheClear` command together form one reset event.
- `BsonDocument.ToString()`: the MongoDB reply oracle returns the document's text directly, and `DocumentText` passes it on unchanged. `JsonConvert.SerializeObject` is the `serialize` parameter of the ArangoDB runner. Neither format is modelled.
- Connection strings, credentials, pool settings and the `IMongoDatabase` and query-builder fields the runners never read are left out.
- An unmatched closing brace at the end of `OrientDBImporter.cs` and the never-assigned `_database` field of the MongoDB query builder have no behaviour, so they are left out.
- Importer documents hold their fields, not their driver representation. BSON arrays, `ODocument` and dictionaries are not modelled, nor are the `_id` values MongoDB assigns.
- `ArangoDBImport.ArangoDBImporter.ImportEdges`: on a rejected user insert the source throws out of the method. The model returns `false` instead, with the state at that point.
- `ArangoDBImport.EdgesWithoutLookupFailures`: the endpoints are proved present only when no lookup raises a server error. With such errors the import may stop early (`FailedLookupEndsImport`).
- `ArangoDBImport.ValidKey`: only the empty key is illegal in the model. ArangoDB's other rules on keys (the allowed characters, at most 254 bytes) are not modelled, so a key such as `a/b` is accepted here although the server would reject it.
- `OrientDBImport.UsersWithoutLoadFailures`: user keys are proved unique only when no load throws. With load errors they need not be (`FailedLoadDuplicatesUser`).
- `OrientQueries.FindFriendsOfFriendsShape`: states the line that distinguishes friends-of-friends from friends, not that the two texts differ in nothing else.
- Every query builder is a total function with no precondition, which follows from its signature; no lemma states it separately.
