# Hierarchical type-path load test, modelled in Dafny

The system is a load-testing tool for a store of operation records. Each record
carries a dot-separated *type path* such as `labs.result_webhooks.quest`. When a
record is written, it is also written once per prefix of its path (`labs`,
`labs.result_webhooks`, `labs.result_webhooks.quest`). After that, "latest
records under a prefix" is a lookup on one prefix rather than a pattern match.

This project models the client side of that tool:

- **Generator** (`generator.dfy`):
  - the fixed vocabularies;
  - the Zipf-depth random path builder;
  - the heavy-path pool;
  - batch generation of records (path, timestamp, status, payload);
  - prefix expansion.
- **Loader** (`loader.dfy`):
  - the bulk insert, one multi-row insert per table inside one transaction, with rows numbered from the reported `lastrowid`;
  - the single-row insert through the stored routine;
  - both modelled over a `Store` (the committed tables) and a `Connection` (the pending writes of its transaction, committed or rolled back).
- **Workload** (`benchmark.dfy`):
  - the four traffic mixes;
  - dispatch of a uniform draw to an operation kind;
  - the query each kind derives from a sampled path;
  - the per-worker loop that counts one sample per successful iteration and one error per failed one.
- **Commands** (`commands.dfy`):
  - `seed`: `amount // batch_size` batches, stopping at the first failure;
  - `run`: mix selection, a discarded warmup, one loop per worker, and aggregation into totals and per-kind latency lists.
- `strings.dfy` holds Python's `str.split('.')`, `'.'.join` and `str(n)` with their exact edge cases. For example, `"".split('.') == [""]`, and joining nothing gives `""`.
- `wrappers.dfy` holds `Option` and `Result`.

Every random draw is an explicit input. Its validity predicate states the range
the generator guarantees, e.g. `random.choice` gives a valid index and
`randint(1, 10)` a value in 1..10. Timestamps are seconds as `real`, measured
back from a given `now`. Each store statement's success, each reported
`lastrowid` and each query outcome is also an input.

The core results:

- a generated path splits back into its segments;
- prefix expansion yields one prefix per segment and ends with the path itself;
- every prefix row of a bulk insert belongs to an inserted id, carries that record's timestamp and holds one of its prefixes;
- a failed insert leaves both tables unchanged;
- dispatch picks the first entry whose cumulative probability exceeds the draw;
- the worker loop accounts for every iteration exactly once;
- aggregation loses no sample.

## Model

| member | source | states |
|---|---|---|
| Strings.Split | src/generator.py:87 | splitting on '.' yields at least one part, and exactly one more part than there are separators |
| Strings.SplitDotFree | src/generator.py:87 | no part of a split contains the separator |
| Strings.JoinSplit | src/generator.py:87-90 | joining the parts of a split gives the original string back |
| Strings.SplitJoin | src/generator.py:53 | splitting the join of one or more separator-free parts gives the parts back |
| Strings.JoinSnoc | src/generator.py:89-90 | joining one more part appends a separator and that part |
| Strings.NatToString | src/generator.py:40 | `str(n)` is a non-empty string of decimal digits |
| Strings.NatToStringDotless | src/generator.py:51 | a decimal rendering never contains a separator, so numbered segments stay single segments |
| Generator.ExpandPrefixes | src/generator.py:85-91 | the loop returns one prefix per segment; the i-th is the join of the first i+1 segments |
| Generator.PrefixesCountAndLast | src/generator.py:85-91 | a path has as many prefixes as segments (at least one), and the last prefix is the path itself |
| Generator.PrefixesStep | src/generator.py:89-90 | each prefix is the previous one plus "." plus the next segment, so it is strictly longer and extends it |
| Generator.PrefixesOrdered | src/generator.py:89-90 | every earlier prefix is a proper leading part of every later one |
| Generator.PrefixClosure | src/generator.py:85-91 | expanding the i-th prefix yields exactly the first i+1 prefixes of the path |
| Generator.PrefixesOfJoin | src/generator.py:89-90 | the expansion of a join of separator-free parts lists the joins of its leading parts |
| Generator.PrefixesExample | src/generator.py:85-91 | "a.b.c" expands to "a", "a.b", "a.b.c" |
| Generator.RandomPath | src/generator.py:25-53 | the level-by-level builder returns the join of the drawn segments and splits back into them |
| Generator.SegmentsDotFree | src/generator.py:31-51 | no drawn segment contains a separator |
| Generator.RandomPathSplits | src/generator.py:53 | splitting a generated path recovers its segment list |
| Generator.RandomPathDepth | src/generator.py:27-29 | a path has max(1, min(zipf, maxDepth)) segments: never more than maxDepth, and exactly zipf when zipf <= maxDepth |
| Generator.SegmentsAt | src/generator.py:31-51 | segment 0 comes from level 1, segment 1 from level 2, segment 2 from level 3, and the rest are node segments |
| Generator.FirstSegmentVocabulary | src/generator.py:33-34 | the first segment is a top-level word |
| Generator.SecondSegmentVocabulary | src/generator.py:36-41 | the second segment is a lab word iff the first is "labs"; otherwise it is `sub_k` with 1 <= k <= 10 |
| Generator.ThirdSegmentVocabulary | src/generator.py:43-48 | the third segment is a vendor iff the path starts "labs.result_webhooks"; otherwise it is `comp_k` with 1 <= k <= 50 |
| Generator.DeeperSegmentVocabulary | src/generator.py:50-51 | segments below the third are `node_k` with 1 <= k <= 100 |
| Generator.NumberedIsNotWord | src/generator.py:40 | a numbered segment never coincides with a vocabulary word of a different initial |
| Generator.GenerateHeavyPaths | src/generator.py:14-23 | the pool holds the two fixed webhook paths, then random paths of depth at most 3 up to count (at least 2 in total) |
| Generator.Generator.constructor | src/generator.py:6-12 | the heavy pool is built once with the requested size |
| Generator.Generator.GenerateBatchOps | src/generator.py:55-83 | the result is exactly `batch_size` records (none when it is not positive). Each has: status 1 iff the roll is below the error rate, otherwise 0; the `{}` payload; the heavy path when the pick is below 0.6, otherwise a fresh depth-5 path; a timestamp in the last 30 days, or the last 48 hours for a burst |
| Loader.PrefixRowsCount | src/loader.py:67-76 | the number of prefix rows is the sum of the records' segment counts, so at least one per record |
| Loader.SegmentTotalSnoc | src/loader.py:70-76 | one more record adds its segment count |
| Loader.PrefixRowsSnoc | src/loader.py:70-76 | one more record appends its prefix rows under the next id |
| Loader.PrefixRowAt | src/loader.py:70-76 | the row at position `SegmentTotal(ops[..i]) + j` is record i's j-th prefix, with id `first_id + i` and its timestamp |
| Loader.PrefixRowsOwned | src/loader.py:70-76 | every prefix row has an id among the inserted ones and carries that record's timestamp and one of its prefixes |
| Loader.PrefixRowsReferToOpRows | src/loader.py:59-76 | the two tables of a batch agree: every prefix row refers to an operation row of the same batch, with that row's timestamp and a prefix of that row's type path |
| Loader.OpRowIdsIncrease | src/loader.py:59-72 | the operation rows of a batch have strictly increasing ids, so no two prefix-row owners coincide |
| Loader.BuildPrefixRows | src/loader.py:67-76 | the nested loops produce exactly the expected prefix rows, with one placeholder per row |
| Loader.Connection.InsertOperations | src/loader.py:59-61 | the multi-row insert succeeds iff it does not fail and has rows; only then are the rows added to the pending writes |
| Loader.Connection.InsertPrefixes | src/loader.py:78-83 | the same for the prefix table; the pending operation rows are untouched |
| Loader.Connection.CallInsertWithPrefixes | src/loader.py:22-28 | the routine adds one operation row and one prefix row per supplied prefix, all under the new id and the record's timestamp |
| Loader.Connection.Commit | src/loader.py:85 | a commit publishes both pending lists together, or on failure nothing |
| Loader.Connection.Rollback | src/loader.py:89-90 | a rollback discards the pending writes and leaves the store untouched |
| Loader.Loader.InsertBatch | src/loader.py:39-95 | Ok iff there are records, no statement fails, `lastrowid` is present and non-zero, and the commit succeeds. On Ok, both tables grow by the expected rows and the result is (records, prefix rows). On Err, both tables are unchanged |
| Loader.Loader.InsertSingle | src/loader.py:10-37 | Ok iff the routine and the commit succeed. On Ok, the store gains one operation row under the new id and exactly the prefix rows a bulk insert would give it. On Err, nothing changes |
| Benchmark.SelectFirstAbove | src/benchmark.py:126-129 | dispatch finds nothing iff no cumulative probability exceeds the draw, and otherwise finds the first entry that does |
| Benchmark.Dispatch | src/benchmark.py:124-129 | the scan with early exit returns the kind of the first entry whose probability exceeds the draw |
| Benchmark.MixIncreasing | src/benchmark.py:70-109 | in a well-formed table, the cumulative probabilities increase strictly along the table |
| Benchmark.MixCovers | src/benchmark.py:124-129 | in a well-formed table every draw in [0, 1) selects some kind, and 0 selects the first |
| Benchmark.MixTopSelectsLast | src/benchmark.py:124-129 | a draw at or above the second-to-last probability selects the last kind |
| Benchmark.MixesWellFormed | src/benchmark.py:70-109 | the four mix tables have positive, strictly increasing probabilities ending at 1.0 |
| Benchmark.MixNamesAreKinds | src/benchmark.py:70-109 | every kind named in the four tables is one of the twelve known kinds |
| Benchmark.FirstSegmentsIsPrefix | src/benchmark.py:151-152 | taking the first n segments picks the n-th prefix of the path, or the whole path when it is shorter |
| Benchmark.LatestLevelQuery | src/benchmark.py:138-157 | `latest_l<n>` queries the n-th prefix of the heavy path. A heavy path with fewer than n segments is replaced by a fresh depth-5 path; if that is still short, the whole fresh path is queried. The limit is 100 and the offset 0 |
| Benchmark.LevelQueriesTargetPrefixes | src/benchmark.py:138-157 | each level query targets a prefix of the heavy path or of the fresh path |
| Benchmark.ColdQuery | src/benchmark.py:159-163 | `latest_l3_cold` (corrected plan) queries the third prefix of a fresh path, or the whole path when it is shorter |
| Benchmark.TwoSegmentQueries | src/benchmark.py:165-182 | `count_24h`, `error_rate` and `latest_offset` use the second prefix of a heavy path (or the whole path); the offset is the draw in 0..5000 |
| Benchmark.ExactQuery | src/benchmark.py:134-136 | `exact` looks up the chosen heavy path with limit 100 |
| Benchmark.InsertQueries | src/benchmark.py:184-197 | the insert kinds call the bulk loader with 1000 or 500 records, or the single-row routine |
| Benchmark.ColdRaisesAsWritten | src/benchmark.py:138-144 | as written, every `latest_l3_cold` iteration raises: its name passes the `latest_l` test, and its last character is not a digit |
| Benchmark.MixBColdDrawsRaiseAsWritten | src/benchmark.py:78-84 | as written, mix B turns every draw in [0.8, 0.9) into a counted error |
| Benchmark.PlanDiffersOnlyForCold | src/benchmark.py:134-197 | the corrected branch order behaves as written for every kind except `latest_l3_cold` |
| Benchmark.MixKindsPlanQueries | src/benchmark.py:134-197 | with the corrected plan, every kind of the four mixes performs a real store call; every prefix query targets a prefix the loader stores for the heavy or fresh path |
| Benchmark.MixKindsPlanQueriesAsWritten | src/benchmark.py:134-197 | as written, every kind of the four mixes except `latest_l3_cold` performs a real store call, with the same prefix targets |
| Benchmark.TallyAccounting | src/benchmark.py:199-203 | under either branch order, after any sequence of iterations, ops is the number of samples and ops + errors the number of iterations; every sample's kind is a kind of the table |
| Benchmark.MixBSelectsCold | src/benchmark.py:78-84 | in mix B a draw selects `latest_l3_cold` exactly when it lies in [0.8, 0.9) |
| Benchmark.ColdStepsAreErrorsAsWritten | src/benchmark.py:138-144 | as written, the loop never records a `latest_l3_cold` sample, and the errors include every iteration that selects that kind |
| Benchmark.MixBColdStepIsErrorAsWritten | src/benchmark.py:199-203 | as written, a mix-B iteration with a draw in [0.8, 0.9) ends as one error and no sample, whatever the store would return |
| Benchmark.ColdIterationCorrected | src/benchmark.py:159-163 | with the corrected order, a `latest_l3_cold` iteration is an error only when its store call raises, and otherwise records its latency |
| Benchmark.TallyAgreesWithoutCold | src/benchmark.py:134-203 | when no iteration selects `latest_l3_cold`, the loop as written and the corrected loop give the same metrics |
| Benchmark.Workload.RunLoop | src/benchmark.py:111-211 | the loop, along the given branch order, yields exactly the tally of its iterations, whose ops are counted by samples and iterations by ops plus errors |
| Commands.FloorDivBounds | main.py:24 | `a // b` is the floor of a/b for either sign of b |
| Commands.SeededCountRoundsDown | main.py:24-28 | a fully successful seed reports `amount - amount % batch_size` operations, less than one batch short of the amount |
| Commands.SeedRowsCount | main.py:26-28 | k committed batches add k * batch_size operation rows |
| Commands.FirstFailureIsFirst | main.py:26-28 | the first failing batch is found: all earlier batches commit, and it does not |
| Commands.SeedStep | main.py:26-28 | a committed batch appends its rows, and the search for the first failure moves past it |
| Commands.SeedBatch | main.py:27-28 | one seeding step succeeds iff its batch commits; it then reports batch_size rows and appends that batch's rows, and otherwise changes nothing |
| Commands.SeedBatches | main.py:26-28 | the loop commits exactly the batches before the first failing one, and succeeds iff none fails |
| Commands.Seed | main.py:11-32 | a zero batch size raises before any write. Otherwise `amount // batch_size` batches run and stop at the first failure, whose predecessors stay committed. The tables end with exactly the rows of the committed batches, and success reports the rounded-down amount |
| Commands.LatOfEmptyIffAbsent | main.py:139-152 | a kind's latency list is empty iff no sample has that kind, so the `if not lats` skip never applies to a key |
| Commands.SumLengthsSnoc | main.py:139-142 | one more sample lengthens exactly its kind's list |
| Commands.GroupingKeepsEverySample | main.py:139-142 | over distinct kinds covering all present kinds, the grouped lists hold every sample exactly once |
| Commands.TotalOpsCountsSamples | main.py:135-142 | when each worker's ops counts its samples, total ops equals the number of aggregated samples |
| Commands.GroupedSnoc | main.py:140-142 | appending a sample to its kind's list, created on first sight, keeps the dictionary grouped |
| Commands.GroupSamples | main.py:139-142 | the inner loop groups one worker's samples by kind, in order |
| Commands.Aggregate | main.py:131-142 | total ops and errors are summed over the reporting workers; the dictionary maps exactly the present kinds to their latencies in worker and sample order |
| Commands.MixForLetters | main.py:99-110 | only A, B, C and D select a mix, and each selects a well-formed table |
| Commands.RunAccounting | main.py:119-142 | over a run, total ops equals the aggregated samples, and ops plus errors equals the iterations of the live workers |
| Commands.Run | main.py:92-142 | an unknown letter returns before any work. Otherwise the warmup is discarded and the report is the aggregation of one loop result per live worker, each worker running the branch order as written |

## Left out

- SQL execution, cursors, the connection pool and the server are not modelled. Each statement's success, `lastrowid` and the routine's new id are inputs. The contents of query results are not computed.
- Loader.OpRows: the ids come from a hypothesis, not from the server. A multi-row insert is assumed to number its rows `lastrowid + i`, as the loader itself assumes when it numbers the prefix rows.
- Loader.Loader.InsertBatch: the reported row count is the number of records. The source returns `cursor.rowcount`, which is taken to equal the number of rows of a successful multi-row insert. The total that `seed` reports rests on this.
- Benchmark.MixKindsPlanQueries: stated for the corrected branch order. As written, `latest_l3_cold` makes no store call (Benchmark.ColdRaisesAsWritten); Benchmark.MixKindsPlanQueriesAsWritten states the other eleven kinds.
- Benchmark.Workload.RunLoop: each store call is an opaque outcome, a latency or an exception. The insert kinds' writes are not applied to a `Store` inside the loop; `Loader.Loader.InsertBatch` and `Loader.Loader.InsertSingle` model those writes.
- Benchmark.Workload.RunLoop: the wall-clock deadline loop is modelled as a given finite list of iterations, and `time.time()` latencies are inputs.
- The queries' `NOW() - INTERVAL` filters, ordering and limits are recorded in the planned query but not evaluated.
- Random distributions are not modelled: `np.random.zipf`, `random.random`, `random.choice`, `randint` and `uniform` are inputs constrained to their documented ranges.
- Time is not modelled as datetimes: `datetime.utcnow()` is a parameter, and `timedelta` and microsecond precision are real seconds.
- Floating point is exact real arithmetic here. The rounding of `uniform` and of cumulative probabilities is not captured.
- Threads are not modelled: the workers run one after another. Each writes only its own result slot, so the aggregated result is the same. Workload.__init__'s second generator (the loader's own heavy pool) is not modelled either: the loop uses the workload's pool.
- The warmup's duration (10 seconds) is reduced to a given list of iterations whose result is discarded.
- Output is left out: printing, the cap of five printed errors, the QPS division and the percentile computation with numpy, which only format the aggregated lists.
- JSON encoding is not modelled: the routine receives the prefix list itself.
- The stored routine's SQL (apply_sp.py) is modelled only through Loader.Connection.CallInsertWithPrefixes.
- The `validate` command, src/db.py, src/config.py (except the defaults that appear as constants), check_levels.py and debug_view.py are not part of this model. They are diagnostics and plumbing outside the workload core.
- Command-line parsing is not modelled; its defaults appear as constants or parameters.
- Dictionary insertion order of the latency map is not modelled: Dafny maps are unordered.
- Integers are unbounded. The column widths (TINYINT status, BIGINT ids) are not checked.

## Findings

| source | as written | input that shows it | evidently intended | confidence | as-written member | corrected member |
|---|---|---|---|---|---|---|
| src/benchmark.py:138 | `elif op_type.startswith('latest_l')` is tested before `elif op_type == 'latest_l3_cold'` (line 159). `'latest_l3_cold'` starts with `latest_l`, so `int(op_type[-1])` parses `'d'` and raises `ValueError`, which the loop counts as an error | mix B with a draw r in [0.8, 0.9): every such iteration is an error, and line 159 is never reached | test `latest_l3_cold` first and query the first three segments of a fresh path | high; not executed | Benchmark.MixBColdDrawsRaiseAsWritten | Benchmark.ColdQuery |

`Benchmark.PlanAsWritten` keeps the branch order as written, and `Benchmark.Plan` tests the cold kind first. The worker loop `Benchmark.Workload.RunLoop` takes the branch order as a parameter. `Commands.Run` runs it as written, so mix-B reports count the cold draws as errors (`Benchmark.ColdStepsAreErrorsAsWritten`). The corrected loop records them as samples (`Benchmark.ColdIterationCorrected`). `Benchmark.PlanDiffersOnlyForCold` and `Benchmark.TallyAgreesWithoutCold` show that the two orders differ on no other kind.
