/**
 * The two commands that drive the core: `seed`, which loads the store in
 * fixed-size batches, and `run`, which picks a mix, runs a discarded warmup,
 * runs one loop per worker and aggregates the workers' metrics into totals
 * and per-kind latency lists.  Workers are run one after another; each fills
 * its own result slot, so the order does not change the slots' contents.
 */
module Commands {
  import opened Strings
  import opened Generator
  import opened Loader
  import opened Benchmark
  import opened Wrappers

  // ---------------------------------------------------------------------------
  // seed
  // ---------------------------------------------------------------------------

  /** Python's `a // b` (floor division); dividing by zero is left to the caller. */
  function FloorDiv(a: int, b: int): int
    requires b != 0
  {
    if b > 0 || a % b == 0 then a / b else a / b - 1
  }

  /** `a // b` is the greatest q with q * b <= a (b > 0), or the least with q * b >= a (b < 0). */
  lemma FloorDivBounds(a: int, b: int)
    requires b != 0
    ensures b > 0 ==> FloorDiv(a, b) * b <= a < FloorDiv(a, b) * b + b
    ensures b < 0 ==> FloorDiv(a, b) * b + b < a <= FloorDiv(a, b) * b
  {
    var q, r := a / b, a % b;
    assert a == q * b + r && 0 <= r;
    if b > 0 {
      assert r < b;
    } else {
      assert r < -b;
      if r != 0 {
        assert FloorDiv(a, b) * b == q * b - b;
      }
    }
  }

  /** A batch of the given size commits in the given store environment. */
  predicate BatchSucceeds(heavy: seq<string>, batchSize: int, env: BatchEnv)
    requires ValidBatchDraws(|heavy|, batchSize, env.draws)
  {
    BatchCommits(BatchOps(heavy, batchSize, env.draws, env.now, DefaultErrorRate), env)
  }

  predicate ValidEnvs(heavyCount: nat, batchSize: int, envs: seq<BatchEnv>)
  {
    forall j :: 0 <= j < |envs| ==> ValidBatchDraws(heavyCount, batchSize, envs[j].draws)
  }

  /** The operation rows one committed batch appends. */
  function BatchRows(heavy: seq<string>, batchSize: int, env: BatchEnv): seq<OpRow>
    requires ValidBatchDraws(|heavy|, batchSize, env.draws)
  {
    var id := if env.lastRowId.Some? then env.lastRowId.value else 0;
    OpRows(BatchOps(heavy, batchSize, env.draws, env.now, DefaultErrorRate), id)
  }

  /** The prefix rows one committed batch appends. */
  function BatchPrefixRows(heavy: seq<string>, batchSize: int, env: BatchEnv): seq<PrefixRow>
    requires ValidBatchDraws(|heavy|, batchSize, env.draws)
  {
    var id := if env.lastRowId.Some? then env.lastRowId.value else 0;
    PrefixRows(BatchOps(heavy, batchSize, env.draws, env.now, DefaultErrorRate), id)
  }

  /** The operation rows that the first `k` batches append when they all commit. */
  function SeedRows(heavy: seq<string>, batchSize: int, envs: seq<BatchEnv>, k: nat): seq<OpRow>
    requires k <= |envs| && ValidEnvs(|heavy|, batchSize, envs)
  {
    if k == 0 then [] else SeedRows(heavy, batchSize, envs, k - 1) + BatchRows(heavy, batchSize, envs[k - 1])
  }

  /** The prefix rows that the first `k` batches append when they all commit. */
  function SeedPrefixRows(heavy: seq<string>, batchSize: int, envs: seq<BatchEnv>, k: nat): seq<PrefixRow>
    requires k <= |envs| && ValidEnvs(|heavy|, batchSize, envs)
  {
    if k == 0 then [] else SeedPrefixRows(heavy, batchSize, envs, k - 1) + BatchPrefixRows(heavy, batchSize, envs[k - 1])
  }

  /** `k` committed batches of `batchSize` operations each add `k * batchSize` operation rows. */
  lemma {:induction false} SeedRowsCount(heavy: seq<string>, batchSize: int, envs: seq<BatchEnv>, k: nat)
    requires batchSize > 0 && k <= |envs| && ValidEnvs(|heavy|, batchSize, envs)
    ensures |SeedRows(heavy, batchSize, envs, k)| == k * batchSize
  {
    if k > 0 {
      SeedRowsCount(heavy, batchSize, envs, k - 1);
    }
  }

  /** The number of operations a fully successful `seed` reports. */
  function SeededCount(amount: int, batchSize: int): int
    requires batchSize != 0
  {
    if FloorDiv(amount, batchSize) > 0 then FloorDiv(amount, batchSize) * batchSize else 0
  }

  /**
   * For a non-negative amount and a positive batch size, `seed` loads the
   * amount rounded down to a whole number of batches, which is less than one
   * batch short of the amount.
   */
  lemma SeededCountRoundsDown(amount: int, batchSize: int)
    requires amount >= 0 && batchSize > 0
    ensures SeededCount(amount, batchSize) == amount - amount % batchSize
    ensures 0 <= amount - SeededCount(amount, batchSize) < batchSize
  {
    var q := amount / batchSize;
    assert amount == q * batchSize + amount % batchSize;
    if q <= 0 {
      assert q == 0;
    }
  }

  /** One iteration of the seeding loop: `rows, prefs = loader.insert_batch(batch_size)`. */
  method SeedBatch(loader: Loader, store: Store, batchSize: int, env: BatchEnv) returns (r: Result<int>)
    requires ValidBatchDraws(|loader.gen.heavyPaths|, batchSize, env.draws)
    modifies store
    ensures r.Ok? <==> BatchSucceeds(loader.gen.heavyPaths, batchSize, env)
    ensures r.Ok? ==>
      && r.value == batchSize && batchSize > 0
      && store.operations == old(store.operations) + BatchRows(loader.gen.heavyPaths, batchSize, env)
      && store.prefixes == old(store.prefixes) + BatchPrefixRows(loader.gen.heavyPaths, batchSize, env)
    ensures r.Err? ==> store.operations == old(store.operations) && store.prefixes == old(store.prefixes)
  {
    var inserted := loader.InsertBatch(store, batchSize, env);
    if inserted.Err? {
      return Err(inserted.error);
    }
    return Ok(inserted.value.0);
  }

  /** The index of the first batch in `k..n` that does not commit, or `n` when all of them do. */
  function FirstFailure(heavy: seq<string>, batchSize: int, envs: seq<BatchEnv>, k: nat, n: nat): (f: nat)
    requires k <= n <= |envs| && ValidEnvs(|heavy|, batchSize, envs)
    ensures k <= f <= n
    decreases n - k
  {
    if k == n then n
    else if !BatchSucceeds(heavy, batchSize, envs[k]) then k
    else FirstFailure(heavy, batchSize, envs, k + 1, n)
  }

  /** `FirstFailure` finds the first batch at or after `k` that does not commit, or `n` when all do. */
  lemma {:induction false} FirstFailureIsFirst(heavy: seq<string>, batchSize: int, envs: seq<BatchEnv>, k: nat, n: nat)
    requires k <= n <= |envs| && ValidEnvs(|heavy|, batchSize, envs)
    ensures var f := FirstFailure(heavy, batchSize, envs, k, n);
      && (forall j :: k <= j < f ==> BatchSucceeds(heavy, batchSize, envs[j]))
      && (f < n ==> !BatchSucceeds(heavy, batchSize, envs[f]))
    decreases n - k
  {
    if k < n && BatchSucceeds(heavy, batchSize, envs[k]) {
      FirstFailureIsFirst(heavy, batchSize, envs, k + 1, n);
    }
  }

  /** The number of batches `cmd_seed` attempts: `range(amount // batchSize)`, empty when negative. */
  function BatchesFor(amount: int, batchSize: int): nat
    requires batchSize != 0
  {
    if FloorDiv(amount, batchSize) > 0 then FloorDiv(amount, batchSize) else 0
  }

  /** One committed batch extends both tables' expected rows and moves the search for a failure on. */
  lemma SeedStep(heavy: seq<string>, batchSize: int, envs: seq<BatchEnv>, i: nat, n: nat)
    requires i < n <= |envs| && ValidEnvs(|heavy|, batchSize, envs)
    requires BatchSucceeds(heavy, batchSize, envs[i])
    ensures SeedRows(heavy, batchSize, envs, i + 1) == SeedRows(heavy, batchSize, envs, i) + BatchRows(heavy, batchSize, envs[i])
    ensures SeedPrefixRows(heavy, batchSize, envs, i + 1) == SeedPrefixRows(heavy, batchSize, envs, i) + BatchPrefixRows(heavy, batchSize, envs[i])
    ensures FirstFailure(heavy, batchSize, envs, i, n) == FirstFailure(heavy, batchSize, envs, i + 1, n)
  {
  }

  /** The loop of `cmd_seed`: `n` batches in order, stopping at the first that raises. */
  method SeedBatches(loader: Loader, store: Store, batchSize: int, envs: seq<BatchEnv>, n: nat) returns (result: Result<int>)
    requires n <= |envs| && ValidEnvs(|loader.gen.heavyPaths|, batchSize, envs)
    modifies store
    ensures var k := FirstFailure(loader.gen.heavyPaths, batchSize, envs, 0, n);
      && (result.Ok? <==> k == n)
      && store.operations == old(store.operations) + SeedRows(loader.gen.heavyPaths, batchSize, envs, k)
      && store.prefixes == old(store.prefixes) + SeedPrefixRows(loader.gen.heavyPaths, batchSize, envs, k)
    ensures result.Ok? ==> result.value == |SeedRows(loader.gen.heavyPaths, batchSize, envs, n)|
  {
    var heavy := loader.gen.heavyPaths;
    var total := 0;
    var i := 0;
    while i < n
      invariant 0 <= i <= n
      invariant total == |SeedRows(heavy, batchSize, envs, i)|
      invariant FirstFailure(heavy, batchSize, envs, 0, n) == FirstFailure(heavy, batchSize, envs, i, n)
      invariant store.operations == old(store.operations) + SeedRows(heavy, batchSize, envs, i)
      invariant store.prefixes == old(store.prefixes) + SeedPrefixRows(heavy, batchSize, envs, i)
    {
      var r := SeedBatch(loader, store, batchSize, envs[i]);
      if r.Err? {
        return Err(r.error);
      }
      SeedStep(heavy, batchSize, envs, i, n);
      AppendAssoc(old(store.operations), SeedRows(heavy, batchSize, envs, i), BatchRows(heavy, batchSize, envs[i]));
      AppendAssoc(old(store.prefixes), SeedPrefixRows(heavy, batchSize, envs, i), BatchPrefixRows(heavy, batchSize, envs[i]));
      total := total + r.value;
      i := i + 1;
    }
    return Ok(total);
  }

  /**
   * `cmd_seed`: `amount // batchSize` batches in order, stopping at the first
   * batch that raises, whose predecessors stay committed; a zero batch size
   * raises before anything is written.
   */
  method Seed(loader: Loader, store: Store, amount: int, batchSize: int, envs: seq<BatchEnv>) returns (result: Result<int>)
    requires batchSize != 0 ==> |envs| >= BatchesFor(amount, batchSize)
    requires ValidEnvs(|loader.gen.heavyPaths|, batchSize, envs)
    modifies store
    ensures batchSize == 0 ==> result.Err? && store.operations == old(store.operations) && store.prefixes == old(store.prefixes)
    ensures batchSize != 0 ==>
      var n := BatchesFor(amount, batchSize);
      var k := FirstFailure(loader.gen.heavyPaths, batchSize, envs, 0, n);
      && (result.Ok? <==> k == n)
      && store.operations == old(store.operations) + SeedRows(loader.gen.heavyPaths, batchSize, envs, k)
      && store.prefixes == old(store.prefixes) + SeedPrefixRows(loader.gen.heavyPaths, batchSize, envs, k)
    ensures result.Ok? ==> batchSize != 0 && result.value == SeededCount(amount, batchSize)
  {
    if batchSize == 0 {
      return Err("integer division or modulo by zero");
    }
    var n := BatchesFor(amount, batchSize);
    result := SeedBatches(loader, store, batchSize, envs, n);
    if result.Ok? && n > 0 {
      FirstFailureIsFirst(loader.gen.heavyPaths, batchSize, envs, 0, n);
      assert BatchSucceeds(loader.gen.heavyPaths, batchSize, envs[0]);
      SeedRowsCount(loader.gen.heavyPaths, batchSize, envs, n);
    }
  }

  // ---------------------------------------------------------------------------
  // Aggregation
  // ---------------------------------------------------------------------------

  /** Total of `ops` over the workers that reported metrics. */
  function SumOps(results: seq<Option<Metrics>>): nat
  {
    if results == [] then 0
    else SumOps(results[..|results| - 1]) + (if results[|results| - 1].Some? then results[|results| - 1].value.ops else 0)
  }

  /** Total of `errors` over the workers that reported metrics. */
  function SumErrors(results: seq<Option<Metrics>>): nat
  {
    if results == [] then 0
    else SumErrors(results[..|results| - 1]) + (if results[|results| - 1].Some? then results[|results| - 1].value.errors else 0)
  }

  /** All latency samples of the workers that reported metrics, worker by worker. */
  function AllSamples(results: seq<Option<Metrics>>): seq<Sample>
  {
    if results == [] then []
    else AllSamples(results[..|results| - 1]) + (if results[|results| - 1].Some? then results[|results| - 1].value.latencies else [])
  }

  /** The kinds that occur among the samples. */
  function Kinds(samples: seq<Sample>): set<string>
  {
    if samples == [] then {} else Kinds(samples[..|samples| - 1]) + {samples[|samples| - 1].kind}
  }

  /** The latencies of the samples of one kind, in order. */
  function LatOf(samples: seq<Sample>, kind: string): seq<real>
  {
    if samples == [] then []
    else
      var last := samples[|samples| - 1];
      LatOf(samples[..|samples| - 1], kind) + (if last.kind == kind then [last.latency] else [])
  }

  /** The latency dictionary groups exactly the given samples by kind. */
  predicate Grouped(all: map<string, seq<real>>, samples: seq<Sample>)
  {
    all.Keys == Kinds(samples) && forall k :: k in all ==> all[k] == LatOf(samples, k)
  }

  /** A kind has latencies exactly when it occurs, so no grouped list is ever empty. */
  lemma {:induction false} LatOfEmptyIffAbsent(samples: seq<Sample>, kind: string)
    ensures LatOf(samples, kind) == [] <==> kind !in Kinds(samples)
    ensures kind in Kinds(samples) <==> exists i :: 0 <= i < |samples| && samples[i].kind == kind
  {
    if samples != [] {
      var init := samples[..|samples| - 1];
      LatOfEmptyIffAbsent(init, kind);
      if exists i :: 0 <= i < |samples| && samples[i].kind == kind {
        var i :| 0 <= i < |samples| && samples[i].kind == kind;
        if i < |samples| - 1 {
          assert init[i].kind == kind;
        }
      }
      if exists i :: 0 <= i < |init| && init[i].kind == kind {
        var i :| 0 <= i < |init| && init[i].kind == kind;
        assert samples[i].kind == kind;
      }
    }
  }

  /** The summed lengths of the lists of the given kinds. */
  function SumLengths(samples: seq<Sample>, kinds: seq<string>): nat
  {
    if kinds == [] then 0 else |LatOf(samples, kinds[0])| + SumLengths(samples, kinds[1..])
  }

  predicate Distinct(kinds: seq<string>)
  {
    forall i, j :: 0 <= i < j < |kinds| ==> kinds[i] != kinds[j]
  }

  lemma {:induction false} SumLengthsEmpty(kinds: seq<string>)
    ensures SumLengths([], kinds) == 0
  {
    if kinds != [] {
      SumLengthsEmpty(kinds[1..]);
    }
  }

  lemma {:induction false} SumLengthsSnoc(samples: seq<Sample>, x: Sample, kinds: seq<string>)
    requires Distinct(kinds)
    ensures SumLengths(samples + [x], kinds) == SumLengths(samples, kinds) + (if x.kind in kinds then 1 else 0)
  {
    if kinds != [] {
      assert Distinct(kinds[1..]) by {
        forall i, j | 0 <= i < j < |kinds[1..]| ensures kinds[1..][i] != kinds[1..][j] {
          assert kinds[1..][i] == kinds[i + 1] && kinds[1..][j] == kinds[j + 1];
        }
      }
      SumLengthsSnoc(samples, x, kinds[1..]);
      var s := samples + [x];
      assert s[..|s| - 1] == samples;
      if x.kind == kinds[0] {
        assert x.kind !in kinds[1..] by {
          forall i | 0 <= i < |kinds[1..]| ensures kinds[1..][i] != x.kind { assert kinds[1..][i] == kinds[i + 1]; }
        }
      } else {
        assert x.kind in kinds <==> x.kind in kinds[1..] by {
          assert kinds == [kinds[0]] + kinds[1..];
        }
      }
    }
  }

  /**
   * Grouping loses and duplicates no sample: over any list of distinct kinds
   * that covers every kind present, the grouped lists hold all the samples.
   */
  lemma {:induction false} GroupingKeepsEverySample(samples: seq<Sample>, kinds: seq<string>)
    requires Distinct(kinds)
    requires forall k :: k in Kinds(samples) ==> k in kinds
    ensures SumLengths(samples, kinds) == |samples|
  {
    if samples == [] {
      SumLengthsEmpty(kinds);
    } else {
      var init, x := samples[..|samples| - 1], samples[|samples| - 1];
      assert samples == init + [x];
      GroupingKeepsEverySample(init, kinds);
      SumLengthsSnoc(init, x, kinds);
    }
  }

  /**
   * When every reporting worker's `ops` counts its samples, the total of
   * `ops` is the number of aggregated samples.
   */
  lemma {:induction false} TotalOpsCountsSamples(results: seq<Option<Metrics>>)
    requires forall i :: 0 <= i < |results| && results[i].Some? ==> results[i].value.ops == |results[i].value.latencies|
    ensures SumOps(results) == |AllSamples(results)|
  {
    if results != [] {
      TotalOpsCountsSamples(results[..|results| - 1]);
    }
  }

  /** Appending one sample to its kind's list, creating the list on first sight. */
  lemma GroupedSnoc(all: map<string, seq<real>>, done: seq<Sample>, x: Sample)
    requires Grouped(all, done)
    ensures var list := if x.kind in all then all[x.kind] else [];
      Grouped(all[x.kind := list + [x.latency]], done + [x])
  {
    var s := done + [x];
    assert s[..|s| - 1] == done;
    if x.kind !in all {
      LatOfEmptyIffAbsent(done, x.kind);
    }
  }

  /** The inner loop of the aggregation: group one worker's samples into the dictionary. */
  method GroupSamples(all: map<string, seq<real>>, before: seq<Sample>, samples: seq<Sample>)
    returns (grouped: map<string, seq<real>>)
    requires Grouped(all, before)
    ensures Grouped(grouped, before + samples)
  {
    grouped := all;
    var j := 0;
    assert before + samples[..0] == before;
    while j < |samples|
      invariant 0 <= j <= |samples|
      invariant Grouped(grouped, before + samples[..j])
    {
      var x := samples[j];
      GroupedSnoc(grouped, before + samples[..j], x);
      assert samples[..j + 1] == samples[..j] + [x];
      AppendAssoc(before, samples[..j], [x]);
      // a kind seen for the first time starts from an empty list
      var list := if x.kind in grouped then grouped[x.kind] else [];
      grouped := grouped[x.kind := list + [x.latency]];
      j := j + 1;
    }
    assert samples[..|samples|] == samples;
  }

  /** The aggregation loop of `cmd_run`. */
  method Aggregate(results: seq<Option<Metrics>>) returns (totalOps: nat, totalErrors: nat, all: map<string, seq<real>>)
    ensures totalOps == SumOps(results) && totalErrors == SumErrors(results)
    ensures Grouped(all, AllSamples(results))
  {
    totalOps, totalErrors, all := 0, 0, map[];
    var i := 0;
    while i < |results|
      invariant 0 <= i <= |results|
      invariant totalOps == SumOps(results[..i]) && totalErrors == SumErrors(results[..i])
      invariant Grouped(all, AllSamples(results[..i]))
    {
      assert results[..i + 1][..i] == results[..i];
      assert SumOps(results[..i + 1]) == SumOps(results[..i]) + (if results[i].Some? then results[i].value.ops else 0);
      assert SumErrors(results[..i + 1]) == SumErrors(results[..i]) + (if results[i].Some? then results[i].value.errors else 0);
      assert AllSamples(results[..i + 1]) == AllSamples(results[..i]) + (if results[i].Some? then results[i].value.latencies else []);
      if results[i].Some? {
        var m := results[i].value;
        totalOps := totalOps + m.ops;
        totalErrors := totalErrors + m.errors;
        all := GroupSamples(all, AllSamples(results[..i]), m.latencies);
      } else {
        assert AllSamples(results[..i]) + [] == AllSamples(results[..i]);
      }
      i := i + 1;
    }
    assert results[..|results|] == results;
  }

  // ---------------------------------------------------------------------------
  // run
  // ---------------------------------------------------------------------------

  /** The mix a `--mix` letter selects. */
  function MixFor(name: string): Option<seq<Entry>>
  {
    if name == "A" then Some(MixA)
    else if name == "B" then Some(MixB)
    else if name == "C" then Some(MixC)
    else if name == "D" then Some(MixRealtime)
    else None
  }

  /** Only the four letters select a mix, and each selects a well-formed table. */
  lemma MixForLetters(name: string)
    ensures MixFor(name).Some? <==> name in ["A", "B", "C", "D"]
    ensures MixFor(name).Some? ==> WellFormedMix(MixFor(name).value)
  {
    MixesWellFormed();
  }

  /** A worker's draws, or `None` when its thread dies before storing metrics. */
  predicate ValidWorkers(heavyCount: nat, workers: seq<Option<seq<StepDraws>>>)
  {
    forall i :: 0 <= i < |workers| && workers[i].Some? ==> ValidSteps(heavyCount, workers[i].value)
  }

  /** The result slots after every worker has run the loop as written. */
  function WorkerResults(dist: seq<Entry>, heavy: seq<string>, workers: seq<Option<seq<StepDraws>>>): seq<Option<Metrics>>
    requires ValidWorkers(|heavy|, workers)
  {
    if workers == [] then []
    else
      var last := workers[|workers| - 1];
      WorkerResults(dist, heavy, workers[..|workers| - 1])
        + [if last.Some? then Some(Tally(AsWritten, dist, heavy, last.value)) else None]
  }

  /** The number of iterations the live workers run. */
  function LiveSteps(workers: seq<Option<seq<StepDraws>>>): nat
  {
    if workers == [] then 0
    else LiveSteps(workers[..|workers| - 1]) + (if workers[|workers| - 1].Some? then |workers[|workers| - 1].value| else 0)
  }

  /**
   * Over a whole run, total ops equals the number of aggregated samples, and
   * ops plus errors equals the number of iterations the live workers ran.
   */
  lemma {:induction false} RunAccounting(dist: seq<Entry>, heavy: seq<string>, workers: seq<Option<seq<StepDraws>>>)
    requires ValidWorkers(|heavy|, workers)
    ensures var results := WorkerResults(dist, heavy, workers);
      && SumOps(results) == |AllSamples(results)|
      && SumOps(results) + SumErrors(results) == LiveSteps(workers)
  {
    if workers != [] {
      var init := workers[..|workers| - 1];
      RunAccounting(dist, heavy, init);
      var results := WorkerResults(dist, heavy, workers);
      assert results[..|results| - 1] == WorkerResults(dist, heavy, init);
      var last := workers[|workers| - 1];
      if last.Some? {
        TallyAccounting(AsWritten, dist, heavy, last.value);
      }
    }
  }

  datatype Report = Report(totalOps: nat, totalErrors: nat, latencies: map<string, seq<real>>)

  /**
   * `cmd_run`: an unknown letter ends the command before any work; otherwise
   * a warmup loop runs and is discarded, every worker runs its loop into its
   * own slot, and the slots are aggregated.
   */
  method Run(workload: Workload, mix: string, warmup: seq<StepDraws>, workers: seq<Option<seq<StepDraws>>>)
    returns (report: Option<Report>)
    requires ValidSteps(|workload.gen.heavyPaths|, warmup)
    requires ValidWorkers(|workload.gen.heavyPaths|, workers)
    ensures report.None? <==> MixFor(mix).None?
    ensures report.Some? ==>
      var results := WorkerResults(MixFor(mix).value, workload.gen.heavyPaths, workers);
      && report.value.totalOps == SumOps(results)
      && report.value.totalErrors == SumErrors(results)
      && Grouped(report.value.latencies, AllSamples(results))
  {
    var dist := MixFor(mix);
    if dist.None? {
      return None;
    }
    var heavy := workload.gen.heavyPaths;
    var _ := workload.RunLoop(AsWritten, dist.value, warmup);
    var results: seq<Option<Metrics>> := [];
    var i := 0;
    while i < |workers|
      invariant 0 <= i <= |workers|
      invariant results == WorkerResults(dist.value, heavy, workers[..i])
    {
      assert workers[..i + 1][..i] == workers[..i];
      if workers[i].Some? {
        var m := workload.RunLoop(AsWritten, dist.value, workers[i].value);
        results := results + [Some(m)];
      } else {
        results := results + [None];
      }
      i := i + 1;
    }
    assert workers[..|workers|] == workers;
    var totalOps, totalErrors, all := Aggregate(results);
    report := Some(Report(totalOps, totalErrors, all));
  }
}
