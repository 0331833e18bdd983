/**
 * The workload mix engine: the four traffic mixes, dispatch of one uniform
 * draw to an operation kind, the query each kind derives from a sampled path,
 * and the per-worker loop that records one latency sample per successful
 * iteration and one error per failed one.  The loop runs over a finite list of
 * per-iteration draws instead of a wall-clock deadline, and each store call is
 * an opaque step that either completes with a latency or raises.
 */
module Benchmark {
  import opened Strings
  import opened Generator
  import opened Wrappers

  /** One row of a mix table: a cumulative probability and an operation kind. */
  datatype Entry = Entry(prob: real, name: string)

  const MixA: seq<Entry> := [Entry(0.6, "latest_l2"), Entry(0.8, "latest_l3"), Entry(0.9, "exact"), Entry(1.0, "count_24h")]
  const MixB: seq<Entry> := [Entry(0.7, "insert"), Entry(0.8, "latest_l2"), Entry(0.9, "latest_l3_cold"), Entry(1.0, "error_rate")]
  const MixC: seq<Entry> := [Entry(0.4, "latest_offset"), Entry(0.6, "count_24h"), Entry(0.8, "exact"), Entry(1.0, "insert_500")]
  const MixRealtime: seq<Entry> := [Entry(0.5, "insert_single"), Entry(0.6, "exact"), Entry(0.7, "latest_l1"),
                                    Entry(0.8, "latest_l2"), Entry(0.9, "latest_l3"), Entry(1.0, "latest_l4")]

  function Names(dist: seq<Entry>): seq<string>
  {
    seq(|dist|, i requires 0 <= i < |dist| => dist[i].name)
  }

  // ---------------------------------------------------------------------------
  // Dispatch
  // ---------------------------------------------------------------------------

  /** The kind of the first entry whose cumulative probability exceeds `r`, if any. */
  function Select(dist: seq<Entry>, r: real): Option<string>
  {
    if dist == [] then None
    else if r < dist[0].prob then Some(dist[0].name)
    else Select(dist[1..], r)
  }

  /** Entry `k` is the first whose cumulative probability is strictly greater than `r`. */
  predicate FirstAbove(dist: seq<Entry>, r: real, k: int)
  {
    0 <= k < |dist| && r < dist[k].prob && forall j :: 0 <= j < k ==> dist[j].prob <= r
  }

  /** Selection finds nothing exactly when no entry exceeds `r`, and otherwise finds the first that does. */
  lemma {:induction false} SelectFirstAbove(dist: seq<Entry>, r: real)
    ensures Select(dist, r).None? <==> (forall j :: 0 <= j < |dist| ==> dist[j].prob <= r)
    ensures forall k :: FirstAbove(dist, r, k) ==> Select(dist, r) == Some(dist[k].name)
    ensures Select(dist, r).Some? ==> Select(dist, r).value in Names(dist)
  {
    if dist != [] {
      var tail := dist[1..];
      SelectFirstAbove(tail, r);
      if r >= dist[0].prob {
        assert (forall j :: 0 <= j < |dist| ==> dist[j].prob <= r) <==> (forall j :: 0 <= j < |tail| ==> tail[j].prob <= r) by {
          if forall j :: 0 <= j < |tail| ==> tail[j].prob <= r {
            forall j | 0 <= j < |dist| ensures dist[j].prob <= r {
              if j > 0 { assert dist[j] == tail[j - 1]; }
            }
          }
        }
        forall k | FirstAbove(dist, r, k) ensures Select(dist, r) == Some(dist[k].name) {
          assert k >= 1;
          assert FirstAbove(tail, r, k - 1) by {
            forall j | 0 <= j < k - 1 ensures tail[j].prob <= r { assert tail[j] == dist[j + 1]; }
          }
        }
        if Select(dist, r).Some? {
          assert Names(tail) == Names(dist)[1..];
        }
      } else {
        assert Names(dist)[0] == dist[0].name;
      }
    }
  }

  /** The dispatch loop of `_run_loop`: scan the table and stop at the first entry above `r`. */
  method Dispatch(dist: seq<Entry>, r: real) returns (opType: Option<string>)
    ensures opType == Select(dist, r)
  {
    opType := None;
    var i := 0;
    while i < |dist|
      invariant 0 <= i <= |dist|
      invariant opType == None
      invariant Select(dist[i..], r) == Select(dist, r)
    {
      if r < dist[i].prob {
        opType := Some(dist[i].name);
        break;
      }
      assert dist[i..][1..] == dist[i + 1..];
      i := i + 1;
    }
  }

  /** A mix table: positive, strictly increasing cumulative probabilities ending at 1. */
  predicate WellFormedMix(dist: seq<Entry>)
  {
    && |dist| >= 1
    && 0.0 < dist[0].prob
    && (forall i :: 0 <= i < |dist| - 1 ==> dist[i].prob < dist[i + 1].prob)
    && dist[|dist| - 1].prob == 1.0
  }

  lemma {:induction false} MixIncreasing(dist: seq<Entry>, i: nat, j: nat)
    requires WellFormedMix(dist) && i < j < |dist|
    ensures dist[i].prob < dist[j].prob
    decreases j - i
  {
    if i < j - 1 {
      MixIncreasing(dist, i, j - 1);
    }
  }

  /** In a well-formed mix every draw in [0, 1) selects some kind, and 0 selects the first. */
  lemma MixCovers(dist: seq<Entry>, r: real)
    requires WellFormedMix(dist) && Unit(r)
    ensures Select(dist, r).Some?
    ensures r == 0.0 ==> Select(dist, r) == Some(dist[0].name)
  {
    SelectFirstAbove(dist, r);
    assert !(dist[|dist| - 1].prob <= r);
    if r == 0.0 {
      assert FirstAbove(dist, r, 0);
    }
  }

  /** In a well-formed mix a draw at or above the second-to-last probability selects the last kind. */
  lemma MixTopSelectsLast(dist: seq<Entry>, r: real)
    requires WellFormedMix(dist) && Unit(r) && |dist| >= 2 && dist[|dist| - 2].prob <= r
    ensures Select(dist, r) == Some(dist[|dist| - 1].name)
  {
    var last := |dist| - 1;
    assert FirstAbove(dist, r, last) by {
      forall j | 0 <= j < last ensures dist[j].prob <= r {
        if j < last - 1 { MixIncreasing(dist, j, last - 1); }
      }
    }
    SelectFirstAbove(dist, r);
  }

  /** The four tables of `run_mix_a`, `run_mix_b`, `run_mix_c` and `run_mix_realtime` are well formed. */
  lemma MixesWellFormed()
    ensures WellFormedMix(MixA) && WellFormedMix(MixB) && WellFormedMix(MixC) && WellFormedMix(MixRealtime)
  {
  }

  // ---------------------------------------------------------------------------
  // Query derivation
  // ---------------------------------------------------------------------------

  /** The store interaction one iteration performs. */
  datatype Query =
    | LatestByPrefix(prefix: string, limit: int, offset: int)
    | ExactTypePath(path: string, limit: int)
    | CountLastDay(prefix: string)
    | ErrorRateLastWeek(prefix: string)
    | BulkInsert(batchSize: int)
    | SingleInsert
    | NoQuery

  /** How a store call ends: with its measured latency, or with an exception. */
  datatype Outcome = Completed(latency: real) | Raised

  /**
   * The draws of one iteration: the uniform `r`, the index of the heavy path
   * `random.choice` picks, the draws of a fresh `_random_path(5)`, the
   * pagination offset, and how the store call ends.
   */
  datatype StepDraws = StepDraws(r: real, choice: nat, freshDraws: PathDraws, offset: int, outcome: Outcome)

  predicate ValidStep(heavyCount: nat, s: StepDraws)
  {
    Unit(s.r) && s.choice < heavyCount && ValidPathDraws(5, s.freshDraws) && 0 <= s.offset <= 5000
  }

  predicate ValidSteps(heavyCount: nat, steps: seq<StepDraws>)
  {
    forall i :: 0 <= i < |steps| ==> ValidStep(heavyCount, steps[i])
  }

  /** `".".join(parts[:n]) if len(parts) >= n else path`. */
  function FirstSegments(path: string, n: nat): string
  {
    var parts := Split(path);
    if |parts| >= n then Join(parts[..n]) else path
  }

  /** `int(op_type[-1])`: the value of a final ASCII digit, or nothing (a `ValueError`). */
  function LevelOf(name: string): Option<nat>
  {
    if |name| > 0 && '0' <= name[|name| - 1] <= '9' then Some(name[|name| - 1] as int - '0' as int) else None
  }

  /** The path a `latest_l<level>` iteration queries: the heavy one, or a fresh one when it is too shallow. */
  function LevelPath(heavy: seq<string>, s: StepDraws, level: nat): string
    requires ValidStep(|heavy|, s)
  {
    var path := heavy[s.choice];
    if |Split(path)| < level then RandomPathOf(5, s.freshDraws) else path
  }

  /** The `latest_l<level>` branch; `None` when the level cannot be parsed. */
  function LevelPlan(name: string, heavy: seq<string>, s: StepDraws): Option<Query>
    requires ValidStep(|heavy|, s)
  {
    match LevelOf(name)
    case None => None
    case Some(level) => Some(LatestByPrefix(FirstSegments(LevelPath(heavy, s, level), level), 100, 0))
  }

  /** The `latest_l3_cold` branch: the first three segments of a fresh path. */
  function ColdPlan(s: StepDraws): Query
    requires ValidPathDraws(5, s.freshDraws)
  {
    LatestByPrefix(FirstSegments(RandomPathOf(5, s.freshDraws), 3), 100, 0)
  }

  /** The remaining branches, which both versions of the dispatch share. */
  function OtherPlan(name: string, heavy: seq<string>, s: StepDraws): Query
    requires ValidStep(|heavy|, s)
  {
    if name == "count_24h" then CountLastDay(FirstSegments(heavy[s.choice], 2))
    else if name == "error_rate" then ErrorRateLastWeek(FirstSegments(heavy[s.choice], 2))
    else if name == "latest_offset" then LatestByPrefix(FirstSegments(heavy[s.choice], 2), 100, s.offset)
    else if name == "insert" then BulkInsert(1000)
    else if name == "insert_500" then BulkInsert(500)
    else if name == "insert_single" then SingleInsert
    else NoQuery
  }

  /**
   * The branch chain of `_run_loop` as written: the `startswith('latest_l')`
   * test comes before the test for `latest_l3_cold`.  `None` means the
   * iteration raised before reaching the store.
   */
  function PlanAsWritten(opType: Option<string>, heavy: seq<string>, s: StepDraws): Option<Query>
    requires ValidStep(|heavy|, s)
  {
    if opType.None? then None
    else
      var name := opType.value;
      if name == "exact" then Some(ExactTypePath(heavy[s.choice], 100))
      else if "latest_l" <= name then LevelPlan(name, heavy, s)
      else if name == "latest_l3_cold" then Some(ColdPlan(s))
      else Some(OtherPlan(name, heavy, s))
  }

  /** The branch chain with `latest_l3_cold` tested before the `latest_l` prefix, as intended. */
  function Plan(opType: Option<string>, heavy: seq<string>, s: StepDraws): Option<Query>
    requires ValidStep(|heavy|, s)
  {
    if opType.None? then None
    else
      var name := opType.value;
      if name == "exact" then Some(ExactTypePath(heavy[s.choice], 100))
      else if name == "latest_l3_cold" then Some(ColdPlan(s))
      else if "latest_l" <= name then LevelPlan(name, heavy, s)
      else Some(OtherPlan(name, heavy, s))
  }

  /** Taking the first n segments (n >= 1) picks an entry of the path's expansion: the n-th, or the last. */
  lemma FirstSegmentsIsPrefix(path: string, n: nat)
    requires n >= 1
    ensures var k := |Split(path)|;
      FirstSegments(path, n) == Prefixes(path)[(if k >= n then n else k) - 1]
  {
    var parts := Split(path);
    PrefixesCountAndLast(path);
    if |parts| >= n {
      assert Prefixes(path)[n - 1] == Join(parts[..n]);
    }
  }

  function LevelName(n: nat): string
    requires n < 10
  {
    "latest_l" + [DigitChar(n)]
  }

  /**
   * `latest_l<n>` queries the join of the first n segments of the heavy path,
   * which is its n-th prefix; a heavy path shorter than n is replaced by a
   * fresh `_random_path(5)`, and if that is still too short the whole fresh
   * path is queried.
   */
  lemma LatestLevelQuery(heavy: seq<string>, s: StepDraws, n: nat)
    requires ValidStep(|heavy|, s) && 1 <= n <= 4
    ensures var h, f := heavy[s.choice], RandomPathOf(5, s.freshDraws);
      var q := Plan(Some(LevelName(n)), heavy, s);
      && q.Some? && q.value.LatestByPrefix? && q.value.limit == 100 && q.value.offset == 0
      && (|Split(h)| >= n ==> q.value.prefix == Prefixes(h)[n - 1] == Join(Split(h)[..n]))
      && (|Split(h)| < n && |Split(f)| >= n ==> q.value.prefix == Prefixes(f)[n - 1])
      && (|Split(h)| < n && |Split(f)| < n ==> q.value.prefix == f)
  {
    var name := LevelName(n);
    assert "latest_l" <= name;
    assert name != "latest_l3_cold" && name != "exact";
    assert LevelOf(name) == Some(n) by {
      assert name[|name| - 1] == "0123456789"[n];
      if n == 1 {} else if n == 2 {} else if n == 3 {} else {}
    }
  }

  /** `latest_l3_cold` queries the first three segments of a fresh path (its third prefix), or the whole path. */
  lemma ColdQuery(heavy: seq<string>, s: StepDraws)
    requires ValidStep(|heavy|, s)
    ensures var f := RandomPathOf(5, s.freshDraws);
      var q := Plan(Some("latest_l3_cold"), heavy, s);
      && q.Some? && q.value.LatestByPrefix? && q.value.limit == 100 && q.value.offset == 0
      && (|Split(f)| >= 3 ==> q.value.prefix == Prefixes(f)[2])
      && (|Split(f)| < 3 ==> q.value.prefix == f)
  {
  }

  /**
   * `count_24h`, `error_rate` and `latest_offset` use the first two segments
   * of a heavy path (or the whole path); the offset is the `randint(0, 5000)` draw.
   */
  lemma TwoSegmentQueries(heavy: seq<string>, s: StepDraws)
    requires ValidStep(|heavy|, s)
    ensures var h := heavy[s.choice];
      var p := if |Split(h)| >= 2 then Prefixes(h)[1] else h;
      && Plan(Some("count_24h"), heavy, s) == Some(CountLastDay(p))
      && Plan(Some("error_rate"), heavy, s) == Some(ErrorRateLastWeek(p))
      && Plan(Some("latest_offset"), heavy, s) == Some(LatestByPrefix(p, 100, s.offset))
      && 0 <= s.offset <= 5000
  {
    var h := heavy[s.choice];
    assert !("latest_l" <= "latest_offset") by { assert "latest_offset"[7] != "latest_l"[7]; }
    assert !("latest_l" <= "count_24h") && !("latest_l" <= "error_rate");
    FirstSegmentsIsPrefix(h, 2);
  }

  /** `exact` looks up the chosen heavy path itself, with the default limit of 100. */
  lemma ExactQuery(heavy: seq<string>, s: StepDraws)
    requires ValidStep(|heavy|, s)
    ensures Plan(Some("exact"), heavy, s) == Some(ExactTypePath(heavy[s.choice], 100))
  {
  }

  /** The three insert kinds go to the loader: batches of 1000 and 500, or one row through the routine. */
  lemma InsertQueries(heavy: seq<string>, s: StepDraws)
    requires ValidStep(|heavy|, s)
    ensures Plan(Some("insert"), heavy, s) == Some(BulkInsert(1000))
    ensures Plan(Some("insert_500"), heavy, s) == Some(BulkInsert(500))
    ensures Plan(Some("insert_single"), heavy, s) == Some(SingleInsert)
  {
    assert "insert_500"[0] != "latest_l"[0] && "insert_single"[0] != "latest_l"[0];
    assert !("latest_l" <= "insert") && !("latest_l" <= "insert_500") && !("latest_l" <= "insert_single");
  }

  /** As written, every `latest_l3_cold` iteration raises: its name starts with `latest_l` and ends in 'd'. */
  lemma ColdRaisesAsWritten(heavy: seq<string>, s: StepDraws)
    requires ValidStep(|heavy|, s)
    ensures PlanAsWritten(Some("latest_l3_cold"), heavy, s) == None
  {
    assert "latest_l" <= "latest_l3_cold";
    assert LevelOf("latest_l3_cold") == None;
  }

  /** As written, mix B counts every draw in [0.8, 0.9) as an error, whatever the store does. */
  lemma MixBColdDrawsRaiseAsWritten(heavy: seq<string>, s: StepDraws)
    requires ValidStep(|heavy|, s) && 0.8 <= s.r < 0.9
    ensures Select(MixB, s.r) == Some("latest_l3_cold")
    ensures PlanAsWritten(Select(MixB, s.r), heavy, s) == None
  {
    assert FirstAbove(MixB, s.r, 2);
    SelectFirstAbove(MixB, s.r);
    ColdRaisesAsWritten(heavy, s);
  }

  /** The correction changes only the `latest_l3_cold` kind. */
  lemma PlanDiffersOnlyForCold(opType: Option<string>, heavy: seq<string>, s: StepDraws)
    requires ValidStep(|heavy|, s) && opType != Some("latest_l3_cold")
    ensures PlanAsWritten(opType, heavy, s) == Plan(opType, heavy, s)
  {
  }

  /** The kinds that occur in the four mixes. */
  const MixKinds: seq<string> := ["latest_l1", "latest_l2", "latest_l3", "latest_l4", "latest_l3_cold", "latest_offset",
                                  "exact", "count_24h", "error_rate", "insert", "insert_500", "insert_single"]

  lemma MixNamesAreKinds()
    ensures forall n :: n in Names(MixA) ==> n in MixKinds
    ensures forall n :: n in Names(MixB) ==> n in MixKinds
    ensures forall n :: n in Names(MixC) ==> n in MixKinds
    ensures forall n :: n in Names(MixRealtime) ==> n in MixKinds
  {
    assert Names(MixA) == ["latest_l2", "latest_l3", "exact", "count_24h"];
    assert Names(MixB) == ["insert", "latest_l2", "latest_l3_cold", "error_rate"];
    assert Names(MixC) == ["latest_offset", "count_24h", "exact", "insert_500"];
    assert Names(MixRealtime) == ["insert_single", "exact", "latest_l1", "latest_l2", "latest_l3", "latest_l4"];
  }

  /**
   * Every kind of the four mixes plans a real store call; each prefix query
   * targets a prefix that the loader materialises for the heavy or fresh path.
   */
  lemma MixKindsPlanQueries(name: string, heavy: seq<string>, s: StepDraws)
    requires ValidStep(|heavy|, s) && name in MixKinds
    ensures var q := Plan(Some(name), heavy, s);
      && q.Some? && !q.value.NoQuery?
      && (q.value.LatestByPrefix? || q.value.CountLastDay? || q.value.ErrorRateLastWeek? ==>
            q.value.prefix in Prefixes(heavy[s.choice]) || q.value.prefix in Prefixes(RandomPathOf(5, s.freshDraws)))
  {
    var h, f := heavy[s.choice], RandomPathOf(5, s.freshDraws);
    assert LevelName(1) == "latest_l1" by { assert DigitChar(1) == '1'; }
    assert LevelName(2) == "latest_l2" by { assert DigitChar(2) == '2'; }
    assert LevelName(3) == "latest_l3" by { assert DigitChar(3) == '3'; }
    assert LevelName(4) == "latest_l4" by { assert DigitChar(4) == '4'; }
    assert [LevelName(1), LevelName(2), LevelName(3), LevelName(4)] == MixKinds[..4];
    if name in MixKinds[..4] {
      LevelQueriesTargetPrefixes(heavy, s, name);
    } else if name == "latest_l3_cold" {
      ColdQuery(heavy, s);
      PrefixesCountAndLast(f);
    } else if name in ["latest_offset", "count_24h", "error_rate"] {
      TwoSegmentQueries(heavy, s);
      PrefixesCountAndLast(h);
    } else {
      assert name in ["exact", "insert", "insert_500", "insert_single"];
      ExactQuery(heavy, s);
      InsertQueries(heavy, s);
    }
  }

  /**
   * As written, every kind of the four mixes except `latest_l3_cold` plans a
   * real store call, with the same targets as the corrected order.
   */
  lemma MixKindsPlanQueriesAsWritten(name: string, heavy: seq<string>, s: StepDraws)
    requires ValidStep(|heavy|, s) && name in MixKinds && name != "latest_l3_cold"
    ensures var q := PlanAsWritten(Some(name), heavy, s);
      && q.Some? && !q.value.NoQuery?
      && (q.value.LatestByPrefix? || q.value.CountLastDay? || q.value.ErrorRateLastWeek? ==>
            q.value.prefix in Prefixes(heavy[s.choice]) || q.value.prefix in Prefixes(RandomPathOf(5, s.freshDraws)))
  {
    MixKindsPlanQueries(name, heavy, s);
    PlanDiffersOnlyForCold(Some(name), heavy, s);
  }

  lemma LevelQueriesTargetPrefixes(heavy: seq<string>, s: StepDraws, name: string)
    requires ValidStep(|heavy|, s) && name in [LevelName(1), LevelName(2), LevelName(3), LevelName(4)]
    ensures var q := Plan(Some(name), heavy, s);
      && q.Some? && q.value.LatestByPrefix?
      && (q.value.prefix in Prefixes(heavy[s.choice]) || q.value.prefix in Prefixes(RandomPathOf(5, s.freshDraws)))
  {
    PrefixesCountAndLast(heavy[s.choice]);
    PrefixesCountAndLast(RandomPathOf(5, s.freshDraws));
    if name == LevelName(1) {
      LatestLevelQuery(heavy, s, 1);
    } else if name == LevelName(2) {
      LatestLevelQuery(heavy, s, 2);
    } else if name == LevelName(3) {
      LatestLevelQuery(heavy, s, 3);
    } else {
      LatestLevelQuery(heavy, s, 4);
    }
  }

  // ---------------------------------------------------------------------------
  // The per-worker loop
  // ---------------------------------------------------------------------------

  datatype Sample = Sample(kind: string, latency: real)

  /** The metrics dictionary of `_run_loop`. */
  datatype Metrics = Metrics(ops: nat, errors: nat, latencies: seq<Sample>)

  /** Which branch chain the loop runs: the one as written, or the corrected order. */
  datatype Branching = AsWritten | Corrected

  function PlanBy(branching: Branching, opType: Option<string>, heavy: seq<string>, s: StepDraws): Option<Query>
    requires ValidStep(|heavy|, s)
  {
    if branching == AsWritten then PlanAsWritten(opType, heavy, s) else Plan(opType, heavy, s)
  }

  /** One iteration: a sample of the selected kind, or `None` for a counted error. */
  function Iteration(branching: Branching, dist: seq<Entry>, heavy: seq<string>, s: StepDraws): Option<Sample>
    requires ValidStep(|heavy|, s)
  {
    var opType := Select(dist, s.r);
    var plan := PlanBy(branching, opType, heavy, s);
    if plan.None? then None
    else if plan.value.NoQuery? then Some(Sample(opType.value, 0.0))
    else if s.outcome.Raised? then None
    else Some(Sample(opType.value, s.outcome.latency))
  }

  function Record(m: Metrics, sample: Option<Sample>): Metrics
  {
    if sample.Some? then Metrics(m.ops + 1, m.errors, m.latencies + [sample.value])
    else Metrics(m.ops, m.errors + 1, m.latencies)
  }

  /** The metrics after running the given iterations in order. */
  function Tally(branching: Branching, dist: seq<Entry>, heavy: seq<string>, steps: seq<StepDraws>): Metrics
    requires ValidSteps(|heavy|, steps)
  {
    if steps == [] then Metrics(0, 0, [])
    else Record(Tally(branching, dist, heavy, steps[..|steps| - 1]), Iteration(branching, dist, heavy, steps[|steps| - 1]))
  }

  /**
   * Every iteration is accounted for exactly once: `ops` is the number of
   * samples, `ops + errors` the number of iterations, and every sample's kind
   * is a kind of the table.
   */
  lemma {:induction false} TallyAccounting(branching: Branching, dist: seq<Entry>, heavy: seq<string>, steps: seq<StepDraws>)
    requires ValidSteps(|heavy|, steps)
    ensures var m := Tally(branching, dist, heavy, steps);
      && m.ops == |m.latencies|
      && m.ops + m.errors == |steps|
      && forall k :: 0 <= k < |m.latencies| ==> m.latencies[k].kind in Names(dist)
  {
    if steps != [] {
      var init := steps[..|steps| - 1];
      TallyAccounting(branching, dist, heavy, init);
      var s := steps[|steps| - 1];
      SelectFirstAbove(dist, s.r);
    }
  }

  /** The number of iterations whose draw selects `latest_l3_cold`. */
  function ColdSteps(dist: seq<Entry>, steps: seq<StepDraws>): nat
  {
    if steps == [] then 0
    else ColdSteps(dist, steps[..|steps| - 1]) + (if Select(dist, steps[|steps| - 1].r) == Some("latest_l3_cold") then 1 else 0)
  }

  /** In mix B a draw selects `latest_l3_cold` exactly when it lies in [0.8, 0.9). */
  lemma MixBSelectsCold(r: real)
    requires Unit(r)
    ensures Select(MixB, r) == Some("latest_l3_cold") <==> 0.8 <= r < 0.9
  {
    SelectFirstAbove(MixB, r);
    if r < 0.7 {
      assert FirstAbove(MixB, r, 0);
    } else if r < 0.8 {
      assert FirstAbove(MixB, r, 1);
    } else if r < 0.9 {
      assert FirstAbove(MixB, r, 2);
    } else {
      assert FirstAbove(MixB, r, 3);
    }
  }

  /**
   * As written, the loop never records a `latest_l3_cold` sample, and every
   * iteration that selects that kind is among the errors.
   */
  lemma {:induction false} ColdStepsAreErrorsAsWritten(dist: seq<Entry>, heavy: seq<string>, steps: seq<StepDraws>)
    requires ValidSteps(|heavy|, steps)
    ensures var m := Tally(AsWritten, dist, heavy, steps);
      && m.errors >= ColdSteps(dist, steps)
      && forall k :: 0 <= k < |m.latencies| ==> m.latencies[k].kind != "latest_l3_cold"
  {
    if steps != [] {
      var s := steps[|steps| - 1];
      ColdStepsAreErrorsAsWritten(dist, heavy, steps[..|steps| - 1]);
      if Select(dist, s.r) == Some("latest_l3_cold") {
        ColdRaisesAsWritten(heavy, s);
      }
    }
  }

  /** As written, a mix-B iteration with a draw in [0.8, 0.9) is a counted error, however the store call would end. */
  lemma MixBColdStepIsErrorAsWritten(heavy: seq<string>, s: StepDraws)
    requires ValidStep(|heavy|, s) && 0.8 <= s.r < 0.9
    ensures Iteration(AsWritten, MixB, heavy, s) == None
    ensures Tally(AsWritten, MixB, heavy, [s]) == Metrics(0, 1, [])
  {
    MixBColdDrawsRaiseAsWritten(heavy, s);
    assert [s][..0] == [];
  }

  /** With the corrected order, a `latest_l3_cold` iteration is an error only when its store call raises. */
  lemma ColdIterationCorrected(dist: seq<Entry>, heavy: seq<string>, s: StepDraws)
    requires ValidStep(|heavy|, s) && Select(dist, s.r) == Some("latest_l3_cold")
    ensures Iteration(Corrected, dist, heavy, s)
         == if s.outcome.Raised? then None else Some(Sample("latest_l3_cold", s.outcome.latency))
  {
    ColdQuery(heavy, s);
  }

  /** When no iteration selects `latest_l3_cold`, the loop as written and the corrected loop agree. */
  lemma {:induction false} TallyAgreesWithoutCold(dist: seq<Entry>, heavy: seq<string>, steps: seq<StepDraws>)
    requires ValidSteps(|heavy|, steps) && ColdSteps(dist, steps) == 0
    ensures Tally(AsWritten, dist, heavy, steps) == Tally(Corrected, dist, heavy, steps)
  {
    if steps != [] {
      var s := steps[|steps| - 1];
      TallyAgreesWithoutCold(dist, heavy, steps[..|steps| - 1]);
      PlanDiffersOnlyForCold(Select(dist, s.r), heavy, s);
    }
  }

  class Workload {
    const gen: Generator

    constructor (gen: Generator)
      ensures this.gen == gen
    {
      this.gen := gen;
    }

    /**
     * `Workload._run_loop`: one dispatch, one planned store call and one
     * metrics update per iteration, along the given branch chain.
     */
    method RunLoop(branching: Branching, distribution: seq<Entry>, steps: seq<StepDraws>) returns (metrics: Metrics)
      requires ValidSteps(|gen.heavyPaths|, steps)
      ensures metrics == Tally(branching, distribution, gen.heavyPaths, steps)
      ensures metrics.ops == |metrics.latencies|
      ensures metrics.ops + metrics.errors == |steps|
    {
      metrics := Metrics(0, 0, []);
      var i := 0;
      while i < |steps|
        invariant 0 <= i <= |steps|
        invariant metrics == Tally(branching, distribution, gen.heavyPaths, steps[..i])
      {
        var s := steps[i];
        var opType := Dispatch(distribution, s.r);
        var plan := if branching == AsWritten then PlanAsWritten(opType, gen.heavyPaths, s) else Plan(opType, gen.heavyPaths, s);
        assert steps[..i + 1][..i] == steps[..i];
        if plan.None? {
          metrics := metrics.(errors := metrics.errors + 1);
        } else {
          var latency := 0.0;
          var failed := false;
          if !plan.value.NoQuery? {
            match s.outcome
            case Completed(l) => latency := l;
            case Raised => failed := true;
          }
          if failed {
            metrics := metrics.(errors := metrics.errors + 1);
          } else {
            metrics := metrics.(latencies := metrics.latencies + [Sample(opType.value, latency)], ops := metrics.ops + 1);
          }
        }
        i := i + 1;
      }
      assert steps[..|steps|] == steps;
      TallyAccounting(branching, distribution, gen.heavyPaths, steps);
    }
  }
}
