# sqlsmith-rs core, modelled in Dafny

sqlsmith-rs is a SQL fuzzer. A linear congruential generator (`LcgRng`) is
seeded once. Statement generators then draw from it to build random SELECT,
INSERT, UPDATE, DELETE, upsert and PRAGMA statements over the current schema.
Engines pick a statement kind by configurable weights, execute the statement
on a driver, and count the outcomes.

This project models that core:

- **The generator.** `Rng` models the wrapping 32-bit update `next * 1103515245 + 12345` and the output `(next / 65536) % 32768`.
- **The shared statement builders.** `SelectStmtCommon`, `InsertStmtCommon`, `UpdateStmtCommon`, `DeleteStmtCommon`, `UpsertStmtCommon`, `DataType` and `PragmaStmtCommon` model them. One reverse Fisher–Yates shuffle, in `Sampling`, serves all of them.
- **The SQLite executor's dispatch.** `SqliteGenerators` models `get_stmt_by_seed`.
- **The engines.**
  - `SqliteExecutor` models the SQLite engine: the weighted choice, the per-worker loop, outcome classification and the histogram merge.
  - `Engines` models the Limbo engine, its run-count split, and `with_driver_kind`.
- **The legacy single-threaded engine.** `LegacyEngine` models it, together with its INSERT builder in `LegacyInsert`.

Code that mutates state is modelled as imperative Dafny:

- `LcgRng` is a class, and every generator that draws from it is a `method` with `modifies rng`.
- The shuffle works in place on an `array`.
- The engines are classes whose `Run` methods are loops.

Each method is proved equal to a state-passing specification function of the old generator state. The properties are lemmas about those functions.

The generator is `Rng.LcgRng`:

- One draw is `Draw(s) = (Output(Next(s)), Next(s))`.
- `Advance(s, n)` is the state after `n` draws.
- `Draws(s, n)` is the sequence of the first `n` outputs.

Everything the model proves about draw order is stated with these three functions.

## Model

| member | source | states |
|---|---|---|
| Rng.Output | src/utils/rand_by_seed.rs:16 | every output is at most `RAND_MAX` (32767) |
| Rng.Draws | src/utils/rand_by_seed.rs:10-17 | `n` draws give exactly `n` outputs |
| Rng.AbsOfDraw | src/utils/rand_by_seed.rs:16 | an output is non-negative, so the generators' `abs()` and `unsigned_abs()` leave it unchanged |
| Rng.AdvanceAdd | src/utils/rand_by_seed.rs:14 | `a` draws followed by `b` draws are `a + b` draws |
| Rng.AdvanceOne | src/utils/rand_by_seed.rs:14 | one draw is one state transition |
| Rng.DrawsSplit | src/utils/rand_by_seed.rs:10-17 | the first `a + b` outputs are the first `a`, then the first `b` from the state after them |
| Rng.SeedOneFirstDraws | src/utils/rand_by_seed.rs:30-33 | seed 1 gives 16838, 5758, 10113 |
| Rng.SeedTwoDiffersFromSeedOne | src/utils/rand_by_seed.rs:35-38 | each of seed 2's first three outputs differs from seed 1's at the same position |
| Rng.SeedsTenAndTwentyDiffer | src/utils/rand_by_seed.rs:88-102 | seeds 10 and 20 differ within their first five outputs |
| Rng.ReseedValuesDiffer | src/utils/rand_by_seed.rs:63-86 | the first outputs of seeds 54321 and 98765 differ |
| Rng.LcgRng.constructor | src/utils/rand_by_seed.rs:6-8 | the state is the seed |
| Rng.LcgRng.Rand | src/utils/rand_by_seed.rs:10-17 | the state takes one wrapping LCG step, and the result is the output of the new state, in 0..32767 |
| Rng.LcgRng.Srand | src/utils/rand_by_seed.rs:19-21 | reseeding sets the state to the seed |
| Rng.CollectDraws | src/utils/rand_by_seed.rs:42-61 | a loop of `rand()` calls returns `Draws(seed, n)` and leaves the state `Advance(seed, n)` |
| Rng.ReseedReplays | src/utils/rand_by_seed.rs:63-86 | draws after `srand(seed)` repeat those of a fresh generator on `seed`, whatever state came before |
| Text.JoinSingle | executor/generators/common/insert_stmt_common.rs:39 | joining one item yields the item, with no separator |
| Text.NatToString | executor/generators/common/data_type.rs:5 | the decimal text of a number is non-empty, all digits, and one character exactly for 0..9 |
| Text.NatToStringRoundTrip | executor/generators/common/data_type.rs:5 | reading the decimal text back gives the number |
| Text.NatToStringInjective | executor/generators/common/data_type.rs:5 | different numbers print differently |
| Text.DigitRoundTrip | executor/generators/common/data_type.rs:5 | converting a digit to a character and back gives the digit |
| Text.ToUpperIdempotent | executor/generators/common/data_type.rs:4 | upper-casing twice is upper-casing once |
| Text.TrimStartSuffix | src/engines/mod.rs:34 | `trim_start` drops exactly a whitespace prefix, so the result is a suffix that does not start with whitespace |
| Schema.NamesPrefix | executor/generators/common/insert_stmt_common.rs:27-31 | names of a column prefix are the prefix of the names |
| Schema.DistinctPrefix | executor/generators/common/insert_stmt_common.rs:27 | a prefix of a duplicate-free list is duplicate-free |
| Schema.MultisetMembers | executor/generators/common/insert_stmt_common.rs:27 | a sub-multiset only holds members of the whole |
| Sampling.TableIndex | executor/generators/common/insert_stmt_common.rs:14 | the picked table index is in range |
| Sampling.Swap | executor/generators/common/insert_stmt_common.rs:25 | `swap(i, j)` exchanges the two positions and changes nothing else |
| Sampling.Shuffle | executor/generators/common/insert_stmt_common.rs:22-26 | the shuffle keeps the length |
| Sampling.SwapPermutes | executor/generators/common/insert_stmt_common.rs:25 | a swap is a permutation |
| Sampling.ShuffleLoopPermutes | executor/generators/common/insert_stmt_common.rs:23-26 | every suffix of the swap loop yields a permutation |
| Sampling.ShuffleLoopKeepsDistinct | executor/generators/common/insert_stmt_common.rs:23-26 | the swap loop introduces no duplicates |
| Sampling.ShuffleLoopDraws | executor/generators/common/insert_stmt_common.rs:23-26 | the swap loop from position `i` takes exactly `i` draws |
| Sampling.ShuffleLoopNames | executor/generators/common/insert_stmt_common.rs:23-31 | shuffling columns and then taking names equals shuffling the names with the same draws |
| Sampling.ShufflePermutes | executor/generators/common/insert_stmt_common.rs:22-26 | the shuffled columns are a permutation of the columns |
| Sampling.ShuffleKeepsDistinct | executor/generators/common/insert_stmt_common.rs:22-26 | shuffling duplicate-free columns keeps them duplicate-free |
| Sampling.SampleDraws | executor/generators/common/insert_stmt_common.rs:21-26 | the count draw plus the swaps take one draw per column between them |
| Sampling.SampleProperties | executor/generators/common/insert_stmt_common.rs:21-27 | the sample holds between one and all of the columns, as many as the count draw modulo the column count, plus one; it is a prefix of a permutation of the columns, so every member is a column; it has no duplicates when the columns have none; it uses one draw per column |
| Sampling.SampleNames | executor/generators/common/insert_stmt_common.rs:21-31 | the names of the sampled columns are the sampled names |
| Sampling.ShuffleInPlace | executor/generators/common/insert_stmt_common.rs:22-26 | the in-place array swap loop leaves the array and the generator as the shuffle specification says |
| Sampling.SampleColumns | executor/generators/common/insert_stmt_common.rs:20-27 | the count draw, the in-place shuffle and the prefix yield the specified sample and state |
| Sampling.SelectedProperties | executor/generators/common/insert_stmt_common.rs:14-27 | after the table draw, every selected column comes from the picked table; the selection numbers 1 to all of the columns; its names are distinct when the table's are; one more draw than the table has columns is used |
| SelectStmtCommon.GenSelectStmt | src/generators/common/select_stmt_common.rs:10-32 | the generator's statement and final state are those of the specification function |
| SelectStmtCommon.SelectStmt | src/generators/common/select_stmt_common.rs:10-32 | the model of `gen_select_stmt` as a state-passing function (a definition, no contract of its own): table draw, count draw, swap loop, prefix, text; `SelectNone` and `SelectProperties` state what it yields |
| SelectStmtCommon.SelectNone | src/generators/common/select_stmt_common.rs:11-19 | no statement exactly when there is no table or the picked one has no columns; with no table nothing is drawn |
| SelectStmtCommon.SelectProperties | src/generators/common/select_stmt_common.rs:14-31 | the statement is `SELECT <cols> FROM <table>;`; the columns are a non-empty prefix of a permutation of the picked table's columns, with no duplicates when the table has none; one more draw than the table has columns is used |
| DataType.SmallInteger | executor/generators/common/data_type.rs:5 | a number below 1000 prints as 1 to 3 digits |
| DataType.RealTextIsDecimal | executor/generators/common/data_type.rs:6 | the REAL literal is an unsigned decimal |
| DataType.TagIgnoresCase | executor/generators/common/data_type.rs:4 | the type-name match ignores case |
| DataType.ValueByType | executor/generators/common/data_type.rs:3-11 | the model of `generate_value_by_type` (a definition): the match on the upper-cased type name; `ValueByTypeProperties` states what each arm yields and draws |
| DataType.ValueByTypeProperties | executor/generators/common/data_type.rs:3-11 | each literal has its type's syntax: INTEGER is a number below 1000 and TEXT is `'val<n>'`, each from one draw; REAL is a decimal from one draw; BLOB is `'blob'` and any other type `NULL`, with no draw |
| DataType.Values | executor/generators/common/insert_stmt_common.rs:32-35 | one literal per column |
| DataType.ValuesDraws | executor/generators/common/insert_stmt_common.rs:32-35 | the literals use exactly the draws of their types, added up |
| DataType.ValueAt | executor/generators/common/insert_stmt_common.rs:32-35 | literal `k` is its column's literal drawn after the earlier columns' draws |
| DataType.ValuesAt | executor/generators/common/insert_stmt_common.rs:32-35 | every literal has its column type's syntax, and the draws add up |
| DataType.GenerateValues | executor/generators/common/insert_stmt_common.rs:32-35 | the per-column literal loop returns the specified literals and state |
| InsertStmtCommon.GenInsertStmt | executor/generators/common/insert_stmt_common.rs:10-42 | the generator's statement and final state are those of the specification function |
| InsertStmtCommon.InsertStmt | executor/generators/common/insert_stmt_common.rs:10-42 | the model of `gen_insert_stmt` (a definition); `InsertNone`, `InsertShape` and `InsertLiterals` state what it yields |
| InsertStmtCommon.InsertNone | executor/generators/common/insert_stmt_common.rs:11-19 | no statement exactly when there is no table or the picked one has no columns |
| InsertStmtCommon.InsertShape | executor/generators/common/insert_stmt_common.rs:14-41 | the statement names the picked table and the selected columns, followed by one literal per selected column, drawn after the sampling |
| InsertStmtCommon.InsertLiterals | executor/generators/common/insert_stmt_common.rs:27-41 | type consistency: literal `k` belongs to selected column `k`'s type and has its syntax; the draw total is sampling plus literals |
| UpdateStmtCommon.GenUpdateStmt | executor/generators/common/update_stmt_common.rs:9-45 | the generator's statement and final state are those of the specification function |
| UpdateStmtCommon.UpdateStmt | executor/generators/common/update_stmt_common.rs:9-45 | the model of `gen_update_stmt` (a definition); `UpdateNone`, `UpdateShape` and `UpdateItems` state what it yields |
| UpdateStmtCommon.UpdateNone | executor/generators/common/update_stmt_common.rs:10-18 | no statement exactly when there is no table or the picked one has no columns |
| UpdateStmtCommon.UpdateShape | executor/generators/common/update_stmt_common.rs:13-44 | `UPDATE <table> SET <items> WHERE 1=1;` over the selected columns of the picked table |
| UpdateStmtCommon.UpdateItems | executor/generators/common/update_stmt_common.rs:27-44 | item `k` is `name = literal` for selected column `k`, with a literal of its type's syntax; there are 1 to all of the columns; the draw total is stated |
| DeleteStmtCommon.DeleteStmt | executor/generators/common/delete_stmt_common.rs:4-38 | the model of `gen_delete_stmt`, a pure function on the generator state (a definition); `DeleteNone` and `DeleteProperties` state what it yields |
| DeleteStmtCommon.PredicateValue | executor/generators/common/delete_stmt_common.rs:23-28 | the model of the four-way right-hand side of the WHERE predicate (a definition); `DeleteProperties` states each arm |
| DeleteStmtCommon.WherePredicates | executor/generators/common/delete_stmt_common.rs:16-31 | the model of `take(1).map(...)`: a predicate for the first column only (a definition); `DeleteProperties` states that there is exactly one |
| DeleteStmtCommon.DeleteNone | executor/generators/common/delete_stmt_common.rs:4-15 | no statement exactly when there is no table or the picked one has no columns |
| DeleteStmtCommon.DeleteProperties | executor/generators/common/delete_stmt_common.rs:8-37 | one predicate, on the first column; the selector modulo 4 gives a number below 1000, `'val<n>'`, `NULL` or `1`, with 3, 3, 2 or 2 draws |
| UpsertStmtCommon.GenUpsertStmt | executor/generators/common/upsert_stmt_common.rs:4-56 | the generator's statement and final state are those of the specification function |
| UpsertStmtCommon.UpsertStmt | executor/generators/common/upsert_stmt_common.rs:4-56 | the model of `gen_upsert_stmt` (a definition), with the SET literals drawn before the VALUES literals; `UpsertNone` and `UpsertProperties` state what it yields |
| UpsertStmtCommon.UpsertNone | executor/generators/common/upsert_stmt_common.rs:5-13 | no statement exactly when there is no table or the picked one has no columns |
| UpsertStmtCommon.UpsertProperties | executor/generators/common/upsert_stmt_common.rs:16-55 | the conflict target is the first selected column; the SET literals are drawn first, then the INSERT literals, and all have their types' syntax; the draw total is sampling plus twice the literals' draws |
| PragmaStmtCommon.PragmaStmt | executor/generators/common/pragma_stmt_common.rs:11-91 | the model of `get_pragma_stmt_by_seed`, a pure function on the generator state (a definition): pick `PRAGMAS[draw % 30]`, then render it; `PragmaAlwaysSome` and `PragmaDraws` state what it yields |
| PragmaStmtCommon.RenderPragma | executor/generators/common/pragma_stmt_common.rs:47-89 | the model of the match on the descriptor kind (a definition); `RenderNoArg`, `RenderBoolArg`, `RenderIntArg` and `RenderStringArg` state each arm |
| PragmaStmtCommon.Choices | executor/generators/common/pragma_stmt_common.rs:62-86 | the mode lists of the five string pragmas, and none for other names (a definition); `CatalogWellFormed` states that every string pragma in the catalog has one |
| PragmaStmtCommon.CatalogWellFormed | executor/generators/common/pragma_stmt_common.rs:13-44 | the catalog has 30 well-formed entries, and every string pragma has a non-empty mode list |
| PragmaStmtCommon.PragmaAlwaysSome | executor/generators/common/pragma_stmt_common.rs:45-90 | a statement is always produced, rendering the entry at index `draw % 30` |
| PragmaStmtCommon.RenderNoArg | executor/generators/common/pragma_stmt_common.rs:48 | `PRAGMA name;`, with no draw |
| PragmaStmtCommon.RenderBoolArg | executor/generators/common/pragma_stmt_common.rs:49-56 | an even draw gives ON and an odd one OFF; one draw |
| PragmaStmtCommon.RenderIntArg | executor/generators/common/pragma_stmt_common.rs:57-60 | the value lies in `[min, max]` and equals `min + draw % (max - min + 1)`; one draw |
| PragmaStmtCommon.RenderStringArg | executor/generators/common/pragma_stmt_common.rs:61-88 | the value is the pragma's mode list at `draw % length`; one draw |
| PragmaStmtCommon.PragmaDraws | executor/generators/common/pragma_stmt_common.rs:45-89 | one draw for argument-less pragmas and two for the rest |
| SqliteGenerators.Wrapped | executor/generators/sqlite/mod.rs:78-85 | the wrapped tables keep each `(name, columns)` pair in order |
| SqliteGenerators.HasIdColumn | executor/generators/sqlite/mod.rs:121 | the trigger table has a primary key exactly when some column is named `id` |
| SqliteGenerators.WrapTables | executor/generators/sqlite/mod.rs:78-85 | the wrapping loop builds `Wrapped(pairs)` |
| SqliteGenerators.WrapTriggerTables | executor/generators/sqlite/mod.rs:116-127 | the trigger-wrapping loop builds `TriggerWrapped(pairs)` |
| SqliteGenerators.GetStmtBySeed | executor/generators/sqlite/mod.rs:68-132 | dispatching by kind gives the specified statement and state |
| SqliteGenerators.StmtBySeed | executor/generators/sqlite/mod.rs:68-132 | the model of the per-kind dispatch (a definition); `SelectDispatchNone`, `SelectDispatch`, `NoSchemaKinds`, `DropTriggerNone` and `WrappedKinds` state what each kind yields |
| SqliteGenerators.SelectDispatchNone | executor/generators/sqlite/mod.rs:70-74 | a failed or empty schema read gives no SELECT and no draw |
| SqliteGenerators.SelectDispatch | executor/generators/sqlite/mod.rs:70-76 | otherwise SELECT is the shared SELECT generator over the schema |
| SqliteGenerators.NoSchemaKinds | executor/generators/sqlite/mod.rs:110-115 | VACUUM and PRAGMA do not depend on the schema; PRAGMA always yields a statement; VACUUM draws nothing |
| SqliteGenerators.DropTriggerNone | executor/generators/sqlite/mod.rs:130 | DROP TRIGGER falls through to `gen_stmt`, which gives None and draws nothing |
| SqliteGenerators.WrappedKinds | executor/generators/sqlite/mod.rs:77-109 | INSERT, UPDATE and DELETE depend only on the tables-with-columns list |
| SqliteExecutor.WeightsTotal | executor/engines/sqlite_engine.rs:24-35 | the total the cumulative scan runs against is the source's `total`: the eight threshold weights added up, DATE_FUNC not among them |
| SqliteExecutor.SumPrefixStep | executor/engines/sqlite_engine.rs:41-44 | `accum += prob`: extending the scanned prefix by one threshold adds its weight |
| SqliteExecutor.FirstAbove | executor/engines/sqlite_engine.rs:41-48 | the scan stops within bounds |
| SqliteExecutor.SumMonotone | executor/engines/sqlite_engine.rs:43-44 | the cumulative weight never decreases |
| SqliteExecutor.FirstAboveBounds | executor/engines/sqlite_engine.rs:41-48 | the stop index is the first whose cumulative weight exceeds `r`, and the scan falls off the end only when the total is at most `r` |
| SqliteExecutor.FirstMatch | executor/engines/sqlite_engine.rs:40-48 | for `r` below the total, the chosen kind is in range, has positive weight, and is the unique `k` with `Sum(ws[..k]) <= r < Sum(ws[..k+1])` |
| SqliteExecutor.GenerateSqlByProb | executor/engines/sqlite_engine.rs:16-51 | the method's statement, counted kind and state are those of the specification function |
| SqliteExecutor.SqlByProb | executor/engines/sqlite_engine.rs:16-51 | the model of `generate_sql_by_prob` (a definition), also recording the kind the counting closure sees; `ZeroTotal`, `WeightedChoice` and `ZeroWeightNeverChosen` state what it yields |
| SqliteExecutor.ZeroTotal | executor/engines/sqlite_engine.rs:35-38 | a zero total gives `SELECT 1;`, counts nothing and draws nothing |
| SqliteExecutor.WeightedChoice | executor/engines/sqlite_engine.rs:40-50 | one draw; the kind is the first threshold above `draw % total` and has positive weight; the statement is that kind's, or `SELECT 1;` when the generator yields None |
| SqliteExecutor.ZeroWeightNeverChosen | executor/engines/sqlite_engine.rs:43-47 | a kind of weight zero is never chosen or counted |
| SqliteExecutor.DateFuncIgnored | executor/engines/sqlite_engine.rs:24-33 | the DATE_FUNC weight has no effect |
| SqliteExecutor.Classify | executor/engines/sqlite_engine.rs:108-136 | the model of the result match and the `ignorable_errors` test (a definition); `ClassifyCases` states its three cases |
| SqliteExecutor.ClassifyCases | executor/engines/sqlite_engine.rs:108-136 | Ok is a success; a ConstraintViolation SQLite failure is an expected failure; every other error is a new failure |
| SqliteExecutor.Record | executor/engines/sqlite_engine.rs:108-136 | each execution increments exactly one counter |
| SqliteExecutor.AddTally | executor/engines/sqlite_engine.rs:115-135 | adding tallies adds their totals |
| SqliteExecutor.Bump | executor/engines/sqlite_engine.rs:101 | the chosen kind's count rises by one and no other count changes |
| SqliteExecutor.Merge | executor/engines/sqlite_engine.rs:141-146 | the model of the histogram merge (a definition); `MergeGet` and `MergeProperties` state what it yields |
| SqliteExecutor.MergeGet | executor/engines/sqlite_engine.rs:141-146 | merging adds the local count of each kind to the global one |
| SqliteExecutor.MergeProperties | executor/engines/sqlite_engine.rs:141-146 | merging adds counts per kind and leaves kinds absent locally unchanged; the totals add up; any two workers' merges commute |
| SqliteExecutor.MergeCommutes | executor/engines/sqlite_engine.rs:141-146 | merging two workers' histograms in either order gives the same global histogram |
| SqliteExecutor.BumpTotal | executor/engines/sqlite_engine.rs:101 | counting one statement adds one to the histogram's total over the eight kinds |
| SqliteExecutor.MergeCounts | executor/engines/sqlite_engine.rs:141-146 | the merge loop returns the specified merge |
| SqliteExecutor.Iteration | executor/engines/sqlite_engine.rs:99-106 | the model of one statement choice, by the weights or `SELECT 1;` without them (a definition); `IterationCounted` states what it yields |
| SqliteExecutor.SourceOf | executor/engines/sqlite_engine.rs:99-106 | the statement source a worker uses for given weights (a definition); `SourceNoProb` and `SourceCountsSome` state what it yields |
| SqliteExecutor.SourceNoProb | executor/engines/sqlite_engine.rs:104-106 | without weights every call gives `SELECT 1;`, counts nothing and leaves the generator state alone |
| SqliteExecutor.SourceCountsSome | executor/engines/sqlite_engine.rs:99-103 | with a positive total every call counts some kind |
| SqliteExecutor.WorkerLoop | executor/engines/sqlite_engine.rs:97-139 | the model of a worker's statement loop over a statement source (a definition); `WorkerTotal`, `WorkerNoCount`, `WorkerCountsEvery` and `WorkerZeroWeight` state what it yields |
| SqliteExecutor.Worker | executor/engines/sqlite_engine.rs:91-146 | the model of one worker thread: a generator on its seed, zero counters, an empty local histogram (a definition) |
| SqliteExecutor.RunWorker | executor/engines/sqlite_engine.rs:91-146 | the worker loop returns the specified tally and local histogram |
| SqliteExecutor.WorkerTotal | executor/engines/sqlite_engine.rs:97-139 | each iteration is counted exactly once, so a worker's counters add up to its run count |
| SqliteExecutor.IterationCounted | executor/engines/sqlite_engine.rs:99-106 | with no profile weights the statement is `SELECT 1;` and nothing is counted; with a positive total a kind is always counted; zero-weight kinds never are |
| SqliteExecutor.WorkerNoCount | executor/engines/sqlite_engine.rs:99-106 | on a source that never counts (the no-weights case, by `SourceNoProb`) the histogram stays unchanged |
| SqliteExecutor.WorkerCountsEvery | executor/engines/sqlite_engine.rs:99-103 | on a source that always counts (positive total, by `SourceCountsSome`), each iteration adds one histogram entry |
| SqliteExecutor.WorkerZeroWeight | executor/engines/sqlite_engine.rs:99-103 | a zero-weight kind's histogram count never moves |
| SqliteExecutor.ThreadSeed | executor/engines/sqlite_engine.rs:77-80 | worker `n`'s seed is `base + n` with wrap-around, truncated to the generator's 32 bits |
| SqliteExecutor.RunFrom | executor/engines/sqlite_engine.rs:77-146 | the model of the worker fan-out, folded in worker order (a definition); `RunTally`, `RunNoCount`, `RunHistogram` and `RunCounts` state what it yields |
| SqliteExecutor.RunStep | executor/engines/sqlite_engine.rs:77-146 | one worker's tally and histogram are added into the totals |
| SqliteExecutor.RunTally | executor/engines/sqlite_engine.rs:77-80 | every worker runs the full run count, so each remaining worker adds `run_count` outcomes to the counters |
| SqliteExecutor.RunTallyTotal | executor/engines/sqlite_engine.rs:77-80 | the counters of a whole run add up to `threads * run_count` |
| SqliteExecutor.RunNoCount | executor/engines/sqlite_engine.rs:99-146 | on a source that never counts, the global histogram stays as it was |
| SqliteExecutor.RunHistogram | executor/engines/sqlite_engine.rs:99-146 | on a source that always counts, the histogram total grows by `threads * run_count` |
| SqliteExecutor.RunCounts | executor/engines/sqlite_engine.rs:77-146 | a whole run records `threads * run_count` outcomes; without weights the histogram is empty; with a positive total it counts `threads * run_count` statements |
| SqliteExecutor.SqliteEngine.constructor | executor/engines/mod.rs:127-137 | the fields are as given, and the generator is seeded |
| SqliteExecutor.SqliteEngine.Run | executor/engines/sqlite_engine.rs:54-169 | the workers, each on its own seed, give the specified tally and histogram |
| SqliteExecutor.SqliteEngine.GenerateSql | executor/engines/sqlite_engine.rs:171-180 | the statement and the new generator state follow the weighted choice, or `SELECT 1;` without weights |
| Engines.ThreadRunCount | executor/engines/mod.rs:49-54 | the model of a worker's share: the quotient, plus one for the first `run_count % thread_per_exec` workers (a definition); `SplitProperties` states what the shares add up to |
| Engines.SplitTotalFrom | executor/engines/mod.rs:49-54 | the shares of workers `n` and later add up to their part of the quotient plus their part of the remainder |
| Engines.SplitProperties | executor/engines/mod.rs:49-54 | the shares add up to `run_count`, no two differ by more than one, and none is below the quotient |
| Engines.LimboLoop | executor/engines/mod.rs:67-88 | the model of a Limbo worker's loop (a definition); `LimboLoopTotal` states what it counts |
| Engines.LimboRunFrom | executor/engines/mod.rs:53-90 | the model of the Limbo worker fan-out (a definition); `LimboRunTotal` and `LimboRunCounts` state what it counts |
| Engines.LimboLoopTotal | executor/engines/mod.rs:67-88 | each `SELECT 1;` increments exactly one counter |
| Engines.LimboRunTotal | executor/engines/mod.rs:53-88 | over workers, the counters add up to the shares handed out |
| Engines.LimboRunCounts | executor/engines/mod.rs:30-106 | success plus failure equals `run_count` |
| Engines.LimboEngine.constructor | executor/engines/mod.rs:138-149 | the fields are as given, and the generator is seeded |
| Engines.LimboEngine.Run | executor/engines/mod.rs:30-106 | the worker loops give the specified counters |
| Engines.LimboEngine.GenerateSql | executor/engines/mod.rs:108-110 | always `SELECT 1;` |
| Engines.WithDriverKind | executor/engines/mod.rs:119-150 | an engine of the requested kind, with `thread_per_exec` defaulting to 5 and the profile's weights |
| LegacyInsert.Letter | src/generators/sqlite/insert_stmt.rs:48-49 | a lower-case ASCII letter |
| LegacyInsert.Letters | src/generators/sqlite/insert_stmt.rs:47-50 | `n` letters |
| LegacyInsert.DrawLetters | src/generators/sqlite/insert_stmt.rs:45-52 | the letter loop returns the specified text and state |
| LegacyInsert.LettersOfDraws | src/generators/sqlite/insert_stmt.rs:47-50 | letter `k` comes from draw `k`, and `n` draws are used |
| LegacyInsert.Fixed2 | src/generators/sqlite/insert_stmt.rs:53-56 | the model of `{:.2}` of `m / 100` (a definition); `Fixed2Reads` states that it reads back as `m / 100` and `m % 100` |
| LegacyInsert.TwoDigitsRead | src/generators/sqlite/insert_stmt.rs:55 | two digits read back as their value |
| LegacyInsert.Fixed2Reads | src/generators/sqlite/insert_stmt.rs:53-56 | the `{:.2}` text reads back as `m / 100` and `m % 100` |
| LegacyInsert.LegacyValue | src/generators/sqlite/insert_stmt.rs:43-58 | the model of the exact-name match on the column type (a definition); `LegacyValueProperties` and `CaseSensitive` state what it yields |
| LegacyInsert.LegacyValueProperties | src/generators/sqlite/insert_stmt.rs:43-58 | INTEGER is below 1000 from one draw; TEXT is 10 quoted letters from 10 draws; REAL is `{:.2}` of `draw % 10000 / 100`; any other type is `'default_value'`, with no draw |
| LegacyInsert.ColumnLiteral | src/generators/sqlite/insert_stmt.rs:43-58 | the per-type literal method matches its specification |
| LegacyInsert.LegacyValues | src/generators/sqlite/insert_stmt.rs:41-60 | one literal per column |
| LegacyInsert.LegacyValuesDraws | src/generators/sqlite/insert_stmt.rs:41-60 | the literal draws add up over the columns |
| LegacyInsert.LegacyValueAt | src/generators/sqlite/insert_stmt.rs:41-60 | literal `k` is drawn after the earlier columns' draws |
| LegacyInsert.LegacyInsertStmt | src/generators/sqlite/insert_stmt.rs:5-68 | the model of `get_insert_stmt_by_seed` (a definition); `LegacyInsertNone` and `LegacyInsertShape` state what it yields |
| LegacyInsert.GetInsertStmtBySeed | src/generators/sqlite/insert_stmt.rs:5-68 | the generator's statement and final state are those of the specification function |
| LegacyInsert.LegacyInsertNone | src/generators/sqlite/insert_stmt.rs:6-36 | None exactly when the schema read fails, there is no table, or the column lookup fails; with no table nothing is drawn |
| LegacyInsert.LegacyInsertShape | src/generators/sqlite/insert_stmt.rs:11-67 | every column in lookup order, one literal each, and the draw count |
| LegacyInsert.CaseSensitive | src/generators/sqlite/insert_stmt.rs:43 | unlike the executor's builders, a lower-case type name falls to `'default_value'` |
| LegacyEngine.LegacyWeightsTotal | src/engines/mod.rs:63 | the legacy `total` is the sum of the four weights, which is what lets `LegacyChoiceIsFirstAbove` compare the if-chain with the executor's scan |
| LegacyEngine.LegacyChoice | src/engines/mod.rs:71-99 | the model of the if-chain on `r` (a definition); `LegacyChoiceIntervals` and `LegacyChoiceIsFirstAbove` state what it picks |
| LegacyEngine.LegacyChoiceIntervals | src/engines/mod.rs:71-99 | each of the four kinds is chosen exactly on its interval of `r` |
| LegacyEngine.LegacyChoiceIsFirstAbove | src/engines/mod.rs:71-99 | below the total, the if-chain agrees with the executor's first-threshold scan, and the chosen kind has positive weight |
| LegacyEngine.LegacySql | src/engines/mod.rs:60-102 | the model of the legacy `generate_sql` (a definition); `LegacySqlDefault`, `LegacySqlPick` and `LegacyIgnoresOtherWeights` state what it yields |
| LegacyEngine.LegacySqlDefault | src/engines/mod.rs:62-66 | with no weights or a zero total: `SELECT 1;` with no draw |
| LegacyEngine.LegacySqlPick | src/engines/mod.rs:69-99 | one draw chooses the kind; the generator draws next; None becomes `SELECT 1;` |
| LegacyEngine.LegacyIgnoresOtherWeights | src/engines/mod.rs:63 | only the SELECT, INSERT, UPDATE and VACUUM weights matter |
| LegacyEngine.Statements | src/engines/mod.rs:29-57 | a run produces `run_count` statements |
| LegacyEngine.StatementsAt | src/engines/mod.rs:29-57 | statement `k` is generated from the state after the first `k` |
| LegacyEngine.Route | src/engines/mod.rs:34-38 | the model of the `query`/`exec` choice (a definition); `RouteByPrefix` and the routing lemmas below state what it picks |
| LegacyEngine.RoutesAt | src/engines/mod.rs:34-38 | one driver call per statement, in order |
| LegacyEngine.RunCalls | src/engines/mod.rs:28-58 | exactly `run_count` calls; call `k` carries statement `k` and is a `query` exactly when that statement is recognised as a SELECT |
| LegacyEngine.RouteByPrefix | src/engines/mod.rs:34 | for text without leading whitespace, it is a query exactly when its first six characters upper-case to `SELECT` |
| LegacyEngine.LeadingWhitespaceIgnored | src/engines/mod.rs:34 | leading whitespace does not change the routing |
| LegacyEngine.SelectPrefixIsQuery | src/engines/mod.rs:34 | a case-insensitive `SELECT` prefix routes to `query` |
| LegacyEngine.SelectTextRoutesToQuery | src/engines/mod.rs:34-35 | generated SELECTs go to `query` |
| LegacyEngine.LegacyInsertRoutesToExec | src/engines/mod.rs:36-37 | legacy INSERTs go to `exec` |
| LegacyEngine.FallbackRoutesToQuery | src/engines/mod.rs:34-35 | the `SELECT 1;` fallback goes to `query` |
| LegacyEngine.LowerCaseRoutesToQuery | src/engines/mod.rs:34 | `"  select * FROM t;"` goes to `query` |
| LegacyEngine.OtherTextRoutesToExec | src/engines/mod.rs:36-37 | `VACUUM;` and the empty text go to `exec` |
| LegacyEngine.Engine.constructor | src/engines/mod.rs:16-26 | the generator is seeded from `seed`, and the run count and weights come from the profile |
| LegacyEngine.Engine.GenerateSql | src/engines/mod.rs:60-102 | the statement and state follow the legacy weighted choice |
| LegacyEngine.Engine.Run | src/engines/mod.rs:28-58 | the calls are the routing of the `run_count` generated statements, and the generator ends in the state after them |

## Left out

- **Concurrency.** The worker threads of both executor engines run one after another. The shared atomic counters and the mutex-guarded histogram become folds. `MergeProperties` proves that any two workers' merges commute; the model folds the workers in index order and does not prove the general n-worker permutation statement.
- **Drivers, the database and schema reads.** These are inputs:
  - a schema snapshot and an execution-result function per worker and iteration, in `Env`;
  - the legacy engine's per-kind generator;
  - the legacy INSERT builder's column lookup.
- **Driver creation.** Failures in `with_driver_kind` and `new_conn` (the `anyhow` error paths, and `expect` panics in workers) are not modelled.
- **Debug logging and timing.** `log::info!`, `DebugOptions` and elapsed time are not modelled. The legacy engine's driver results are only logged, so its run is modelled as the sequence of driver calls it makes.
- Text.ToUpper: upper-cases ASCII letters only, and `Text.IsWhitespace` knows only ASCII whitespace, whereas Rust's `to_uppercase` and `trim_start` are Unicode-aware.
- SqliteExecutor.ThreadSeed: the executor's `LcgRng`. It comes from a common crate, takes a `u64` seed and has `get_seed`, and is not part of this model.
  - The model seeds the shown 32-bit generator with the seed modulo 2^32.
  - `get_seed` is taken to return the constructor's seed.
  - `LcgRng::new(seed)` in src/engines/mod.rs:19 passes a `u64` to the `u32` constructor of src/utils/rand_by_seed.rs, and is modelled the same way.
- **Generators outside the model.**
  - `gen_vacuum_stmt` and `gen_create_trigger_stmt` are oracles in `Oracles`; their source files are not part of this model.
  - `get_stmt_by_seed` as called by src/engines/mod.rs, with INSERT, UPDATE and VACUUM kinds, is not defined in src/generators/sqlite/mod.rs. It is an oracle `Generator`, assumed to see the same schema throughout a run.
- SqliteExecutor.GenerateSqlByProb: requires the sum of the weights to fit in `u64` (`WeightsFit`), because the source sums them in `u64` at executor/engines/sqlite_engine.rs:35 and panics on overflow in debug builds or wraps in release builds. `SqliteExecutor.RunWorker`, `SqliteExecutor.SqliteEngine.Run` and `SqliteExecutor.SqliteEngine.GenerateSql` require the same (`ProbFits`), since they reach that sum. Constructing an engine does not: `with_driver_kind` only stores the weights.
- LegacyEngine.Engine.GenerateSql: requires the four legacy weights to sum below 2^64 (`LegacyFits`), for the same reason at src/engines/mod.rs:63; `LegacyEngine.Engine.Run` requires it too. The constructor does not.
- Engines.LimboEngine.Run: requires `thread_per_exec > 0`; the source divides by it and panics at zero.
- **`UpsertStmtCommon.GenUpsertStmt`.** It is modelled and proved, but the dispatch never calls it: no kind maps to it.
- **The six-variant `SqlKind` of executor/generators/common/mod.rs.** The engine's thresholds use eight kinds, so the model's `StmtKind` has eight. `gen_stmt` is modelled only for the kinds that reach it (DROP TRIGGER gives None).
- **The legacy engine's profile type.** src/engines/mod.rs:11-12 and 23-24 read `profile.stmt_prob` and `profile.debug` of a `crate::profile::StmtProb`, but src/profile.rs:7-10 defines a `Profile` with only `driver` and `count`, and no `StmtProb`. The model gives the legacy engine the nine-field `StmtProb` of common/profile.rs (`Config.StmtProb`), of which it reads only the SELECT, INSERT, UPDATE and VACUUM weights.
- **Profile I/O.** Reading and writing `profile.json` is not modelled. `Config.DEFAULT_STMT_PROB` records the default weights.
- **Floating-point formatting.** It is modelled by its decimal result, not by `f64` arithmetic:
  - `{}` of `d / 100.0` as the shortest decimal, trailing zeros dropped;
  - `{:.2}` as two fraction digits.

  This relies on Rust printing the shortest decimal that reads back as the same `f64`. For `d / 100.0` with a whole `d`, that decimal is `d / 100` itself, so both formats yield the digits of `d / 100`.
- **Duplicate source.** executor/engines/limbo_engine.rs duplicates the Limbo engine of executor/engines/mod.rs, and is modelled once.
- **Non-core wrappers.** The Limbo generators and the per-driver wrapper modules under src/generators/ are not modelled.
- **The server, fork server, terminal UI and web view** are not modelled.
