/**
 * The synthetic workload generator: prefix expansion of a dot-separated type
 * path, random path construction, the pool of "heavy" (hot) paths and the
 * generation of operation records.  Every random draw of the original
 * (`np.random.zipf`, `random.choice`, `random.randint`, `random.random`,
 * `random.uniform`) is an input here, and the validity predicates state the
 * ranges the random library guarantees for them.
 */
module Generator {
  import opened Strings

  const TopLevel: seq<string> := ["labs", "pharmacy", "billing", "auth", "etl", "notifications", "analytics"]
  const L2Labs: seq<string> := ["result_webhooks", "orders", "catalog_sync", "providers"]
  const L3Vendors: seq<string> := ["quest", "labcorp", "bioreference", "avalon"]

  /** The two canonical deep paths every heavy-path pool starts with. */
  const QuestPath: string := "labs.result_webhooks.quest"
  const LabcorpPath: string := "labs.result_webhooks.labcorp"

  // ---------------------------------------------------------------------------
  // Prefix expansion
  // ---------------------------------------------------------------------------

  /** The ancestor prefixes of a path: the i-th (0-based) is the join of its first i + 1 parts. */
  function Prefixes(typePath: string): seq<string>
  {
    var parts := Split(typePath);
    seq(|parts|, i requires 0 <= i < |parts| => Join(parts[..i + 1]))
  }

  /** `Generator.expand_prefixes`: builds the prefix list by appending in a loop. */
  method ExpandPrefixes(typePath: string) returns (prefixes: seq<string>)
    ensures |prefixes| == |Split(typePath)|
    ensures forall i :: 0 <= i < |prefixes| ==> prefixes[i] == Join(Split(typePath)[..i + 1])
    ensures prefixes == Prefixes(typePath)
  {
    var parts := Split(typePath);
    prefixes := [];
    for i := 1 to |parts| + 1
      invariant |prefixes| == i - 1
      invariant forall k :: 0 <= k < i - 1 ==> prefixes[k] == Join(parts[..k + 1])
    {
      prefixes := prefixes + [Join(parts[..i])];
    }
  }

  /** One prefix per segment, and the last prefix is the path itself. */
  lemma PrefixesCountAndLast(typePath: string)
    ensures |Prefixes(typePath)| == |Split(typePath)| >= 1
    ensures Prefixes(typePath)[|Prefixes(typePath)| - 1] == typePath
  {
    var parts := Split(typePath);
    var prefixes := Prefixes(typePath);
    assert |prefixes| == |parts|;
    assert prefixes[|parts| - 1] == Join(parts[..|parts|]);
    assert parts[..|parts|] == parts;
    JoinSplit(typePath);
  }

  /** Each prefix is the previous one followed by a separator and the next segment. */
  lemma PrefixesStep(typePath: string, i: nat)
    requires i + 1 < |Prefixes(typePath)|
    ensures Prefixes(typePath)[i + 1] == Prefixes(typePath)[i] + "." + Split(typePath)[i + 1]
    ensures Prefixes(typePath)[i] < Prefixes(typePath)[i + 1]
    ensures |Prefixes(typePath)[i]| < |Prefixes(typePath)[i + 1]|
  {
    var parts := Split(typePath);
    assert parts[..i + 2] == parts[..i + 1] + [parts[i + 1]];
    JoinSnoc(parts[..i + 1], parts[i + 1]);
  }

  /** Any earlier prefix is a proper string prefix of any later one. */
  lemma {:induction false} PrefixesOrdered(typePath: string, i: nat, j: nat)
    requires i < j < |Prefixes(typePath)|
    ensures Prefixes(typePath)[i] < Prefixes(typePath)[j]
    decreases j - i
  {
    PrefixesStep(typePath, j - 1);
    if i < j - 1 {
      PrefixesOrdered(typePath, i, j - 1);
    }
  }

  /** Prefix closure: expanding the i-th prefix yields exactly the first i + 1 prefixes. */
  lemma PrefixClosure(typePath: string, i: nat)
    requires i < |Prefixes(typePath)|
    ensures Prefixes(Prefixes(typePath)[i]) == Prefixes(typePath)[..i + 1]
  {
    var parts := Split(typePath);
    var head := parts[..i + 1];
    SplitDotFree(typePath);
    assert DotFree(head) by {
      forall k | 0 <= k < |head| ensures '.' !in head[k] { assert head[k] == parts[k]; }
    }
    PrefixesOfJoin(head);
    var lhs := Prefixes(Join(head));
    var rhs := Prefixes(typePath)[..i + 1];
    forall k | 0 <= k < |lhs| ensures lhs[k] == rhs[k] {
      assert head[..k + 1] == parts[..k + 1];
    }
  }

  /** The expansion of a join of separator-free parts lists the joins of its leading parts. */
  lemma PrefixesOfJoin(head: seq<string>)
    requires |head| >= 1 && DotFree(head)
    ensures |Prefixes(Join(head))| == |head|
    ensures forall k :: 0 <= k < |head| ==> Prefixes(Join(head))[k] == Join(head[..k + 1])
  {
    SplitJoin(head);
  }

  /** The worked example: "a.b.c" expands to "a", "a.b", "a.b.c". */
  lemma PrefixesExample()
    ensures Prefixes("a.b.c") == ["a", "a.b", "a.b.c"]
  {
    var parts := ["a", "b", "c"];
    assert Join(parts[2..]) == "c";
    assert Join(parts[1..]) == "b.c";
    assert Join(parts) == "a.b.c";
    SplitJoin(parts);
    assert Split("a.b.c") == parts;
    assert parts[..1] == ["a"] && parts[..2] == ["a", "b"] && parts[..3] == parts;
    assert Join(["a", "b"]) == "a.b";
    var r := Prefixes("a.b.c");
    assert |r| == 3;
    assert r[0] == Join(["a"]) == "a";
    assert r[1] == Join(["a", "b"]);
    assert r[2] == Join(parts);
  }

  // ---------------------------------------------------------------------------
  // Random paths
  // ---------------------------------------------------------------------------

  /**
   * The draws `_random_path` makes: the Zipf depth, the index chosen in the
   * top-level, lab and vendor vocabularies, the `randint` values of the
   * `sub_k`, `comp_k` and `node_k` segments, one per node segment.
   */
  datatype PathDraws = PathDraws(zipf: int, top: nat, lab: nat, sub: int, vendor: nat, comp: int, nodes: seq<int>)

  /** The depth after clipping the Zipf draw to `maxDepth`. */
  function Depth(maxDepth: int, zipf: int): int
  {
    if zipf > maxDepth then maxDepth else zipf
  }

  /** What the random library guarantees of the draws (Zipf draws are at least 1). */
  predicate ValidPathDraws(maxDepth: int, d: PathDraws)
  {
    && d.zipf >= 1
    && d.top < |TopLevel| && d.lab < |L2Labs| && 1 <= d.sub <= 10
    && d.vendor < |L3Vendors| && 1 <= d.comp <= 50
    && |d.nodes| + 3 >= Depth(maxDepth, d.zipf)
    && forall k :: 0 <= k < |d.nodes| ==> 1 <= d.nodes[k] <= 100
  }

  function FirstSegment(d: PathDraws): string
    requires d.top < |TopLevel|
  {
    TopLevel[d.top]
  }

  function SecondSegment(d: PathDraws): string
    requires d.top < |TopLevel| && d.lab < |L2Labs| && 1 <= d.sub
  {
    if FirstSegment(d) == "labs" then L2Labs[d.lab] else "sub_" + NatToString(d.sub)
  }

  function ThirdSegment(d: PathDraws): string
    requires d.top < |TopLevel| && d.lab < |L2Labs| && 1 <= d.sub
    requires d.vendor < |L3Vendors| && 1 <= d.comp
  {
    if FirstSegment(d) == "labs" && SecondSegment(d) == "result_webhooks" then L3Vendors[d.vendor]
    else "comp_" + NatToString(d.comp)
  }

  function NodeSegment(d: PathDraws, k: nat): string
    requires k < |d.nodes| && d.nodes[k] >= 1
  {
    "node_" + NatToString(d.nodes[k])
  }

  /** The segments of the path `_random_path(maxDepth)` builds from draws `d`. */
  function Segments(maxDepth: int, d: PathDraws): seq<string>
    requires ValidPathDraws(maxDepth, d)
  {
    var depth := Depth(maxDepth, d.zipf);
    [FirstSegment(d)]
    + (if depth > 1 then [SecondSegment(d)] else [])
    + (if depth > 2 then [ThirdSegment(d)] else [])
    + seq(if depth > 3 then depth - 3 else 0, k requires 0 <= k < depth - 3 => NodeSegment(d, k))
  }

  /** The path string `_random_path(maxDepth)` returns for draws `d`. */
  function RandomPathOf(maxDepth: int, d: PathDraws): string
    requires ValidPathDraws(maxDepth, d)
  {
    Join(Segments(maxDepth, d))
  }

  /** `Generator._random_path`: appends the segments one level at a time, then joins them. */
  method RandomPath(maxDepth: int, d: PathDraws) returns (path: string)
    requires ValidPathDraws(maxDepth, d)
    ensures path == RandomPathOf(maxDepth, d)
    ensures Split(path) == Segments(maxDepth, d)
  {
    var depth := if d.zipf > maxDepth then maxDepth else d.zipf;
    var parts := [TopLevel[d.top]];
    if depth > 1 {
      var t2 := if parts[0] == "labs" then L2Labs[d.lab] else "sub_" + NatToString(d.sub);
      parts := parts + [t2];
    }
    if depth > 2 {
      var t3 := if |parts| == 2 && parts[0] == "labs" && parts[1] == "result_webhooks" then L3Vendors[d.vendor]
                else "comp_" + NatToString(d.comp);
      parts := parts + [t3];
    }
    ghost var spec := Segments(maxDepth, d);
    assert parts == spec[..|parts|];
    while |parts| < depth
      invariant 1 <= |parts| <= |spec|
      invariant depth > 3 ==> |parts| >= 3
      invariant parts == spec[..|parts|]
      decreases depth - |parts|
    {
      parts := parts + ["node_" + NatToString(d.nodes[|parts| - 3])];
    }
    assert parts == spec;
    path := Join(parts);
    SegmentsDotFree(maxDepth, d);
    SplitJoin(parts);
  }

  lemma SegmentsDotFree(maxDepth: int, d: PathDraws)
    requires ValidPathDraws(maxDepth, d)
    ensures DotFree(Segments(maxDepth, d))
  {
    var s := Segments(maxDepth, d);
    NatToStringDotless(d.sub);
    NatToStringDotless(d.comp);
    forall j | 0 <= j < |s| ensures '.' !in s[j] {
      if j >= 3 {
        NatToStringDotless(d.nodes[j - 3]);
      }
    }
  }

  /** A numbered segment never equals a vocabulary word starting with a different letter. */
  lemma NumberedIsNotWord(stem: string, k: nat, words: seq<string>)
    requires |stem| >= 1
    requires forall w :: w in words ==> |w| >= 1 && w[0] != stem[0]
    ensures stem + NatToString(k) !in words
  {
    var s := stem + NatToString(k);
    assert s[0] == stem[0];
  }

  /** Splitting a random path gives back exactly the segments it was built from. */
  lemma RandomPathSplits(maxDepth: int, d: PathDraws)
    requires ValidPathDraws(maxDepth, d)
    ensures Split(RandomPathOf(maxDepth, d)) == Segments(maxDepth, d)
  {
    SegmentsDotFree(maxDepth, d);
    SplitJoin(Segments(maxDepth, d));
  }

  /** A random path has as many segments as the depth draw clipped to `maxDepth`, and at least one. */
  lemma RandomPathDepth(maxDepth: int, d: PathDraws)
    requires ValidPathDraws(maxDepth, d)
    ensures |Split(RandomPathOf(maxDepth, d))| == if Depth(maxDepth, d.zipf) < 1 then 1 else Depth(maxDepth, d.zipf)
    ensures maxDepth >= 1 ==> |Split(RandomPathOf(maxDepth, d))| <= maxDepth
    ensures d.zipf <= maxDepth ==> |Split(RandomPathOf(maxDepth, d))| == d.zipf
  {
    RandomPathSplits(maxDepth, d);
  }

  /** Where each level of the segment list comes from. */
  lemma SegmentsAt(maxDepth: int, d: PathDraws)
    requires ValidPathDraws(maxDepth, d)
    ensures var s := Segments(maxDepth, d);
      && |s| == (if Depth(maxDepth, d.zipf) < 1 then 1 else Depth(maxDepth, d.zipf))
      && s[0] == FirstSegment(d)
      && (|s| > 1 ==> s[1] == SecondSegment(d))
      && (|s| > 2 ==> s[2] == ThirdSegment(d))
      && (forall j :: 3 <= j < |s| ==> s[j] == NodeSegment(d, j - 3))
  {
  }

  /** No lab word and no vendor word looks like a numbered segment. */
  lemma VocabularyInitials()
    ensures forall w :: w in L2Labs ==> |w| >= 1 && w[0] != 's'
    ensures forall w :: w in L3Vendors ==> |w| >= 1 && w[0] != 'c'
  {
    assert L2Labs[0][0] == 'r' && L2Labs[1][0] == 'o' && L2Labs[2][0] == 'c' && L2Labs[3][0] == 'p';
    assert L3Vendors[0][0] == 'q' && L3Vendors[1][0] == 'l' && L3Vendors[2][0] == 'b' && L3Vendors[3][0] == 'a';
  }

  /** The first segment is a top-level word. */
  lemma FirstSegmentVocabulary(maxDepth: int, d: PathDraws)
    requires ValidPathDraws(maxDepth, d)
    ensures Segments(maxDepth, d)[0] in TopLevel
  {
    SegmentsAt(maxDepth, d);
  }

  /** The second segment is a lab word exactly when the first is "labs", else `sub_k` with 1 <= k <= 10. */
  lemma SecondSegmentVocabulary(maxDepth: int, d: PathDraws)
    requires ValidPathDraws(maxDepth, d)
    requires |Segments(maxDepth, d)| > 1
    ensures var s := Segments(maxDepth, d);
      s[1] in L2Labs <==> s[0] == "labs"
    ensures var s := Segments(maxDepth, d);
      s[0] != "labs" ==> s[1] == "sub_" + NatToString(d.sub) && 1 <= d.sub <= 10
  {
    SegmentsAt(maxDepth, d);
    VocabularyInitials();
    NumberedIsNotWord("sub_", d.sub, L2Labs);
  }

  /** The third segment is a vendor exactly under "labs.result_webhooks", else `comp_k` with 1 <= k <= 50. */
  lemma ThirdSegmentVocabulary(maxDepth: int, d: PathDraws)
    requires ValidPathDraws(maxDepth, d)
    requires |Segments(maxDepth, d)| > 2
    ensures var s := Segments(maxDepth, d);
      s[2] in L3Vendors <==> s[0] == "labs" && s[1] == "result_webhooks"
    ensures var s := Segments(maxDepth, d);
      !(s[0] == "labs" && s[1] == "result_webhooks") ==> s[2] == "comp_" + NatToString(d.comp) && 1 <= d.comp <= 50
  {
    SegmentsAt(maxDepth, d);
    var s := Segments(maxDepth, d);
    assert s[0] == FirstSegment(d) && s[1] == SecondSegment(d) && s[2] == ThirdSegment(d);
    if FirstSegment(d) == "labs" && SecondSegment(d) == "result_webhooks" {
      assert s[2] == L3Vendors[d.vendor];
    } else {
      VocabularyInitials();
      NumberedIsNotWord("comp_", d.comp, L3Vendors);
      assert s[2] == "comp_" + NatToString(d.comp);
    }
  }

  /** Segments below the third are `node_k` with 1 <= k <= 100, one draw per level. */
  lemma DeeperSegmentVocabulary(maxDepth: int, d: PathDraws, j: nat)
    requires ValidPathDraws(maxDepth, d)
    requires 3 <= j < |Segments(maxDepth, d)|
    ensures Segments(maxDepth, d)[j] == "node_" + NatToString(d.nodes[j - 3]) && 1 <= d.nodes[j - 3] <= 100
  {
    SegmentsAt(maxDepth, d);
  }

  // ---------------------------------------------------------------------------
  // Heavy paths
  // ---------------------------------------------------------------------------

  /** `Generator._generate_heavy_paths`: the canonical pair, then random paths of depth at most 3. */
  method GenerateHeavyPaths(count: int, draws: seq<PathDraws>) returns (paths: seq<string>)
    requires |draws| + 2 >= count
    requires forall k :: 0 <= k < |draws| ==> ValidPathDraws(3, draws[k])
    ensures |paths| == if count > 2 then count else 2
    ensures paths[0] == QuestPath && paths[1] == LabcorpPath
    ensures forall i :: 2 <= i < |paths| ==> paths[i] == RandomPathOf(3, draws[i - 2])
    ensures forall i :: 2 <= i < |paths| ==> 1 <= |Split(paths[i])| <= 3
  {
    paths := [QuestPath, LabcorpPath];
    while |paths| < count
      invariant 2 <= |paths| <= if count > 2 then count else 2
      invariant paths[0] == QuestPath && paths[1] == LabcorpPath
      invariant forall i :: 2 <= i < |paths| ==> paths[i] == RandomPathOf(3, draws[i - 2])
      decreases count - |paths|
    {
      var p := RandomPath(3, draws[|paths| - 2]);
      paths := paths + [p];
    }
    forall i | 2 <= i < |paths| ensures 1 <= |Split(paths[i])| <= 3 {
      RandomPathDepth(3, draws[i - 2]);
    }
  }

  // ---------------------------------------------------------------------------
  // Operation records
  // ---------------------------------------------------------------------------

  /** A generated operation record, not yet persisted (no identifier). Times are seconds. */
  datatype Op = Op(typePath: string, createdAt: real, status: int, payload: string)

  /**
   * The draws for one record: the heavy-path coin and choice, the draws of a
   * fresh random path, the burst coin, the `random.uniform` fraction of the
   * time window, and the status coin.
   */
  datatype OpDraws = OpDraws(pick: real, heavyIndex: nat, path: PathDraws, burst: real, spread: real, statusRoll: real)

  predicate Unit(u: real)
  {
    0.0 <= u < 1.0
  }

  predicate ValidOpDraws(heavyCount: nat, d: OpDraws)
  {
    Unit(d.pick) && d.heavyIndex < heavyCount && ValidPathDraws(5, d.path)
    && Unit(d.burst) && Unit(d.spread) && Unit(d.statusRoll)
  }

  const Hour: real := 3600.0
  const Day: real := 86400.0

  /** How far before `now` a record is placed: within 48 hours for a burst, else within 30 days. */
  function Age(d: OpDraws): real
  {
    if d.burst < 0.2 then 48.0 * Hour * d.spread else 30.0 * Day * d.spread
  }

  /** The record one iteration of `generate_batch_ops` produces. */
  function OpFor(heavy: seq<string>, d: OpDraws, now: real, errorRate: real): Op
    requires ValidOpDraws(|heavy|, d)
  {
    Op(if d.pick < 0.6 then heavy[d.heavyIndex] else RandomPathOf(5, d.path),
       now - Age(d),
       if d.statusRoll < errorRate then 1 else 0,
       "{}")
  }

  /** `range(batchSize)` is empty for a negative size. */
  function BatchCount(batchSize: int): nat
  {
    if batchSize > 0 then batchSize else 0
  }

  predicate ValidBatchDraws(heavyCount: nat, batchSize: int, draws: seq<OpDraws>)
  {
    |draws| >= batchSize && forall i :: 0 <= i < |draws| ==> ValidOpDraws(heavyCount, draws[i])
  }

  /** The records `generate_batch_ops(batchSize)` returns. */
  function BatchOps(heavy: seq<string>, batchSize: int, draws: seq<OpDraws>, now: real, errorRate: real): seq<Op>
    requires ValidBatchDraws(|heavy|, batchSize, draws)
  {
    seq(BatchCount(batchSize), i requires 0 <= i < BatchCount(batchSize) => OpFor(heavy, draws[i], now, errorRate))
  }

  /** The default `error_rate` of `generate_batch_ops`. */
  const DefaultErrorRate: real := 0.05

  /** The default pool size of `Generator.__init__`. */
  const HeavyPrefixesCount: int := 20

  class Generator {
    const heavyPaths: seq<string>

    /** `Generator.__init__`: the heavy-path pool is generated once, with paths of depth at most 3. */
    constructor (heavyPrefixesCount: int, draws: seq<PathDraws>)
      requires |draws| + 2 >= heavyPrefixesCount
      requires forall k :: 0 <= k < |draws| ==> ValidPathDraws(3, draws[k])
      ensures |heavyPaths| == if heavyPrefixesCount > 2 then heavyPrefixesCount else 2
      ensures heavyPaths[0] == QuestPath && heavyPaths[1] == LabcorpPath
      ensures forall i :: 2 <= i < |heavyPaths| ==> heavyPaths[i] == RandomPathOf(3, draws[i - 2])
    {
      var paths := GenerateHeavyPaths(heavyPrefixesCount, draws);
      heavyPaths := paths;
    }

    /**
     * `Generator.generate_batch_ops`: exactly `batchSize` records, each with
     * status 0 or 1, the placeholder payload, a heavy path or a fresh random
     * path, and a timestamp within the last 30 days (48 hours for a burst).
     */
    method GenerateBatchOps(batchSize: int, draws: seq<OpDraws>, now: real, errorRate: real) returns (ops: seq<Op>)
      requires ValidBatchDraws(|heavyPaths|, batchSize, draws)
      ensures ops == BatchOps(heavyPaths, batchSize, draws, now, errorRate)
      ensures |ops| == BatchCount(batchSize)
      ensures forall i :: 0 <= i < |ops| ==>
        && (ops[i].status == 0 || ops[i].status == 1)
        && (ops[i].status == 1 <==> draws[i].statusRoll < errorRate)
        && ops[i].payload == "{}"
        && (draws[i].pick < 0.6 ==> ops[i].typePath == heavyPaths[draws[i].heavyIndex])
        && (draws[i].pick >= 0.6 ==> ops[i].typePath == RandomPathOf(5, draws[i].path))
        && now - 30.0 * Day < ops[i].createdAt <= now
        && (draws[i].burst < 0.2 ==> now - 48.0 * Hour < ops[i].createdAt)
    {
      ops := [];
      for i := 0 to BatchCount(batchSize)
        invariant ops == BatchOps(heavyPaths, i, draws, now, errorRate)
      {
        var d := draws[i];
        var typePath;
        if d.pick < 0.6 {
          typePath := heavyPaths[d.heavyIndex];
        } else {
          typePath := RandomPath(5, d.path);
        }
        var age := if d.burst < 0.2 then 48.0 * Hour * d.spread else 30.0 * Day * d.spread;
        var status := if d.statusRoll < errorRate then 1 else 0;
        ops := ops + [Op(typePath, now - age, status, "{}")];
      }
    }
  }
}
