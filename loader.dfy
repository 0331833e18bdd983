/**
 * The transactional dual-table loader.  The two tables are the committed
 * state of a `Store`; a `Connection` holds the uncommitted writes of its open
 * transaction, which `Commit` publishes and `Rollback` discards.  Whether a
 * statement fails, and which identifiers the store hands out, are decided by
 * the environment and come in as parameters.  The bulk path rests on the
 * hypothesis that the rows of one multi-row insert receive the contiguous
 * identifiers `first_id + i`.
 */
module Loader {
  import opened Strings
  import opened Generator
  import opened Wrappers

  datatype OpRow = OpRow(id: int, typePath: string, createdAt: real, status: int, payload: string)
  datatype PrefixRow = PrefixRow(operationId: int, prefix: string, createdAt: real)

  // ---------------------------------------------------------------------------
  // Row construction
  // ---------------------------------------------------------------------------

  /** The operation rows of a bulk insert whose first row received `firstId`. */
  function OpRows(ops: seq<Op>, firstId: int): seq<OpRow>
  {
    seq(|ops|, i requires 0 <= i < |ops| => OpRow(firstId + i, ops[i].typePath, ops[i].createdAt, ops[i].status, ops[i].payload))
  }

  /** The prefix rows of one operation: one per prefix, sharing its id and timestamp. */
  function RowsFor(id: int, op: Op): seq<PrefixRow>
  {
    var ps := Prefixes(op.typePath);
    seq(|ps|, j requires 0 <= j < |ps| => PrefixRow(id, ps[j], op.createdAt))
  }

  /** All prefix rows of a batch, by op index and then in expansion order. */
  function PrefixRows(ops: seq<Op>, firstId: int): seq<PrefixRow>
  {
    if ops == [] then [] else RowsFor(firstId, ops[0]) + PrefixRows(ops[1..], firstId + 1)
  }

  /** The sum over the ops of their segment counts. */
  function SegmentTotal(ops: seq<Op>): nat
  {
    if ops == [] then 0 else |Split(ops[0].typePath)| + SegmentTotal(ops[1..])
  }

  /** The number of prefix rows equals the sum of the segment counts. */
  lemma {:induction false} PrefixRowsCount(ops: seq<Op>, firstId: int)
    ensures |PrefixRows(ops, firstId)| == SegmentTotal(ops)
    ensures ops != [] ==> |PrefixRows(ops, firstId)| >= |ops|
  {
    if ops != [] {
      PrefixRowsCount(ops[1..], firstId + 1);
    }
  }

  lemma {:induction false} SegmentTotalSnoc(ops: seq<Op>, op: Op)
    ensures SegmentTotal(ops + [op]) == SegmentTotal(ops) + |Split(op.typePath)|
  {
    if ops != [] {
      assert (ops + [op])[1..] == ops[1..] + [op];
      SegmentTotalSnoc(ops[1..], op);
    }
  }

  /** Appending one op appends its rows, under the next identifier. */
  lemma {:induction false} PrefixRowsSnoc(ops: seq<Op>, op: Op, firstId: int)
    ensures PrefixRows(ops + [op], firstId) == PrefixRows(ops, firstId) + RowsFor(firstId + |ops|, op)
  {
    if ops == [] {
      assert [op][1..] == [];
    } else {
      assert (ops + [op])[1..] == ops[1..] + [op];
      PrefixRowsSnoc(ops[1..], op, firstId + 1);
    }
  }

  /**
   * The row at flat position `SegmentTotal(ops[..i]) + j` is the j-th prefix
   * of op i, under identifier `firstId + i` and with op i's timestamp: rows are
   * ordered by op index, then by increasing prefix length.
   */
  lemma {:induction false} PrefixRowAt(ops: seq<Op>, firstId: int, i: nat, j: nat)
    requires i < |ops| && j < |Prefixes(ops[i].typePath)|
    ensures SegmentTotal(ops[..i]) + j < |PrefixRows(ops, firstId)|
    ensures PrefixRows(ops, firstId)[SegmentTotal(ops[..i]) + j]
         == PrefixRow(firstId + i, Prefixes(ops[i].typePath)[j], ops[i].createdAt)
  {
    PrefixRowsCount(ops, firstId);
    if i == 0 {
      assert ops[..0] == [];
    } else {
      assert ops[1..][..i - 1] == ops[1..i];
      assert ops[..i] == [ops[0]] + ops[1..i];
      assert ops[..i][1..] == ops[1..i];
      PrefixRowAt(ops[1..], firstId + 1, i - 1, j);
    }
  }

  /** Every prefix row belongs to one of the batch's identifiers and carries that op's timestamp. */
  lemma {:induction false} PrefixRowsOwned(ops: seq<Op>, firstId: int, k: nat)
    requires k < |PrefixRows(ops, firstId)|
    ensures firstId <= PrefixRows(ops, firstId)[k].operationId < firstId + |ops|
    ensures PrefixRows(ops, firstId)[k].createdAt == ops[PrefixRows(ops, firstId)[k].operationId - firstId].createdAt
    ensures PrefixRows(ops, firstId)[k].prefix in Prefixes(ops[PrefixRows(ops, firstId)[k].operationId - firstId].typePath)
  {
    var head := RowsFor(firstId, ops[0]);
    if k >= |head| {
      PrefixRowsOwned(ops[1..], firstId + 1, k - |head|);
    }
  }

  /**
   * The two tables of a batch agree: every prefix row refers to an operation
   * row of the same batch, with that row's timestamp and one of the prefixes
   * of that row's type path.
   */
  lemma PrefixRowsReferToOpRows(ops: seq<Op>, firstId: int, k: nat)
    requires k < |PrefixRows(ops, firstId)|
    ensures var p, rows := PrefixRows(ops, firstId)[k], OpRows(ops, firstId);
      var i := p.operationId - firstId;
      && 0 <= i < |rows|
      && rows[i].id == p.operationId
      && rows[i].createdAt == p.createdAt
      && p.prefix in Prefixes(rows[i].typePath)
  {
    PrefixRowsOwned(ops, firstId, k);
  }

  /** The operation rows of a batch have strictly increasing identifiers, so no two share one. */
  lemma OpRowIdsIncrease(ops: seq<Op>, firstId: int, i: nat, j: nat)
    requires i < j < |ops|
    ensures |OpRows(ops, firstId)| == |ops|
    ensures OpRows(ops, firstId)[i].id < OpRows(ops, firstId)[j].id
  {
  }

  /** `insert_batch`'s nested loops: the flat prefix-row values and one placeholder per row. */
  method BuildPrefixRows(ops: seq<Op>, firstId: int) returns (rows: seq<PrefixRow>, placeholders: nat)
    ensures rows == PrefixRows(ops, firstId)
    ensures placeholders == |rows| == SegmentTotal(ops)
  {
    rows := [];
    placeholders := 0;
    for i := 0 to |ops|
      invariant rows == PrefixRows(ops[..i], firstId)
      invariant placeholders == |rows|
    {
      var op := ops[i];
      var opId := firstId + i;
      var prefixes := ExpandPrefixes(op.typePath);
      ghost var before := rows;
      ghost var opRows := RowsFor(opId, op);
      assert |opRows| == |prefixes|;
      for j := 0 to |prefixes|
        invariant rows == before + opRows[..j]
        invariant placeholders == |rows|
      {
        placeholders := placeholders + 1;
        var row := PrefixRow(opId, prefixes[j], op.createdAt);
        assert opRows[j] == row;
        assert opRows[..j + 1] == opRows[..j] + [row];
        AppendAssoc(before, opRows[..j], [row]);
        rows := rows + [row];
      }
      assert opRows[..|prefixes|] == opRows;
      assert ops[..i + 1] == ops[..i] + [op];
      PrefixRowsSnoc(ops[..i], op, firstId);
    }
    assert ops[..|ops|] == ops;
    PrefixRowsCount(ops, firstId);
  }

  // ---------------------------------------------------------------------------
  // Tables and transactions
  // ---------------------------------------------------------------------------

  /** The two tables, as committed. */
  class Store {
    var operations: seq<OpRow>
    var prefixes: seq<PrefixRow>

    constructor ()
      ensures operations == [] && prefixes == []
    {
      operations := [];
      prefixes := [];
    }
  }

  /** A connection with its open transaction: writes stay pending until the commit. */
  class Connection {
    const store: Store
    var pendingOps: seq<OpRow>
    var pendingPrefixes: seq<PrefixRow>

    constructor (store: Store)
      ensures this.store == store && pendingOps == [] && pendingPrefixes == []
    {
      this.store := store;
      pendingOps := [];
      pendingPrefixes := [];
    }

    /**
     * One multi-row INSERT into operations.  An empty VALUES list is a syntax
     * error, so inserting no rows always fails.
     */
    method InsertOperations(rows: seq<OpRow>, fails: bool) returns (ok: bool)
      modifies this
      ensures ok == (!fails && rows != [])
      ensures pendingOps == if ok then old(pendingOps) + rows else old(pendingOps)
      ensures pendingPrefixes == old(pendingPrefixes)
    {
      ok := !fails && rows != [];
      if ok {
        pendingOps := pendingOps + rows;
      }
    }

    /** One multi-row INSERT into operation_prefixes. */
    method InsertPrefixes(rows: seq<PrefixRow>, fails: bool) returns (ok: bool)
      modifies this
      ensures ok == (!fails && rows != [])
      ensures pendingPrefixes == if ok then old(pendingPrefixes) + rows else old(pendingPrefixes)
      ensures pendingOps == old(pendingOps)
    {
      ok := !fails && rows != [];
      if ok {
        pendingPrefixes := pendingPrefixes + rows;
      }
    }

    /**
     * The server-side routine `insert_operation_with_prefixes`: one operation
     * row under `newId`, then one prefix row per supplied prefix sharing that
     * id and the operation's timestamp, atomically.
     */
    method CallInsertWithPrefixes(typePath: string, createdAt: real, status: int, payload: string,
                                  prefixList: seq<string>, newId: int, fails: bool) returns (ok: bool)
      modifies this
      ensures ok == !fails
      ensures pendingOps == if ok then old(pendingOps) + [OpRow(newId, typePath, createdAt, status, payload)] else old(pendingOps)
      ensures pendingPrefixes == if ok then old(pendingPrefixes) + seq(|prefixList|, j requires 0 <= j < |prefixList| => PrefixRow(newId, prefixList[j], createdAt))
                                 else old(pendingPrefixes)
    {
      ok := !fails;
      if ok {
        pendingOps := pendingOps + [OpRow(newId, typePath, createdAt, status, payload)];
        pendingPrefixes := pendingPrefixes + seq(|prefixList|, j requires 0 <= j < |prefixList| => PrefixRow(newId, prefixList[j], createdAt));
      }
    }

    /** Publishes both pending lists together, or (when the commit fails) nothing. */
    method Commit(fails: bool) returns (ok: bool)
      modifies this, store
      ensures ok == !fails
      ensures store.operations == if ok then old(store.operations) + old(pendingOps) else old(store.operations)
      ensures store.prefixes == if ok then old(store.prefixes) + old(pendingPrefixes) else old(store.prefixes)
      ensures ok ==> pendingOps == [] && pendingPrefixes == []
      ensures !ok ==> pendingOps == old(pendingOps) && pendingPrefixes == old(pendingPrefixes)
    {
      ok := !fails;
      if ok {
        store.operations := store.operations + pendingOps;
        store.prefixes := store.prefixes + pendingPrefixes;
        pendingOps, pendingPrefixes := [], [];
      }
    }

    /** Discards the pending writes; the store is untouched. */
    method Rollback()
      modifies this
      ensures pendingOps == [] && pendingPrefixes == []
    {
      pendingOps, pendingPrefixes := [], [];
    }
  }

  // ---------------------------------------------------------------------------
  // The loader
  // ---------------------------------------------------------------------------

  /**
   * What the store does during one bulk insert: whether each statement fails
   * and what `cursor.lastrowid` reports (`None` or an integer).
   */
  datatype BatchEnv = BatchEnv(draws: seq<OpDraws>, now: real,
                               opsFail: bool, lastRowId: Option<int>, prefixesFail: bool, commitFail: bool)

  /** `lastrowid` is usable exactly when it is present and non-zero. */
  predicate UsableId(id: Option<int>)
  {
    id.Some? && id.value != 0
  }

  /** Whether a bulk insert of the given ops commits under the given environment. */
  predicate BatchCommits(ops: seq<Op>, env: BatchEnv)
  {
    ops != [] && !env.opsFail && UsableId(env.lastRowId) && !env.prefixesFail && !env.commitFail
  }

  /** What the store reports for a single-row insert through the stored routine. */
  datatype SingleEnv = SingleEnv(draws: OpDraws, now: real, newId: int, callFail: bool, commitFail: bool)

  class Loader {
    const gen: Generator

    constructor (gen: Generator)
      ensures this.gen == gen
    {
      this.gen := gen;
    }

    /**
     * `Loader.insert_batch`: the operation rows and all their prefix rows are
     * committed together, or both tables are left as they were.  A missing or
     * zero `lastrowid` fails the batch before any prefix row is written.
     */
    method InsertBatch(store: Store, batchSize: int, env: BatchEnv) returns (result: Result<(int, int)>)
      requires ValidBatchDraws(|gen.heavyPaths|, batchSize, env.draws)
      modifies store
      ensures var ops := BatchOps(gen.heavyPaths, batchSize, env.draws, env.now, DefaultErrorRate);
        result.Ok? <==> BatchCommits(ops, env)
      ensures var ops := BatchOps(gen.heavyPaths, batchSize, env.draws, env.now, DefaultErrorRate);
        result.Ok? ==>
          && store.operations == old(store.operations) + OpRows(ops, env.lastRowId.value)
          && store.prefixes == old(store.prefixes) + PrefixRows(ops, env.lastRowId.value)
          && result.value == (|ops|, SegmentTotal(ops))
      ensures result.Err? ==> store.operations == old(store.operations) && store.prefixes == old(store.prefixes)
    {
      var conn := new Connection(store);
      var ops := gen.GenerateBatchOps(batchSize, env.draws, env.now, DefaultErrorRate);
      // the contiguous-identifier hypothesis: row i receives lastrowid + i
      var provisional := if env.lastRowId.Some? then env.lastRowId.value else 0;
      var ok := conn.InsertOperations(OpRows(ops, provisional), env.opsFail);
      if !ok {
        conn.Rollback();
        return Err("operations insert failed");
      }
      assert ops != [];
      var firstId := env.lastRowId;
      var rowCount := |ops|;
      if firstId.None? || firstId.value == 0 {
        conn.Rollback();
        return Err("Failed to retrieve lastrowid");
      }
      assert conn.pendingOps == OpRows(ops, firstId.value) && conn.pendingPrefixes == [];
      var rows, placeholders := BuildPrefixRows(ops, firstId.value);
      PrefixRowsCount(ops, firstId.value);
      if rows != [] {
        ok := conn.InsertPrefixes(rows, env.prefixesFail);
        if !ok {
          conn.Rollback();
          return Err("prefix insert failed");
        }
      }
      assert conn.pendingPrefixes == rows;
      ok := conn.Commit(env.commitFail);
      if !ok {
        conn.Rollback();
        return Err("commit failed");
      }
      result := Ok((rowCount, placeholders));
    }

    /**
     * `Loader.insert_single_optimized`: one generated record is handed to the
     * stored routine with exactly its expanded prefix list, so it gains the
     * same prefix rows the bulk path would give it; on failure nothing commits.
     */
    method InsertSingle(store: Store, env: SingleEnv) returns (result: Result<int>)
      requires ValidOpDraws(|gen.heavyPaths|, env.draws)
      modifies store
      ensures var op := OpFor(gen.heavyPaths, env.draws, env.now, DefaultErrorRate);
        && (result.Ok? <==> !env.callFail && !env.commitFail)
        && (result.Ok? ==>
              && result.value == 1
              && store.operations == old(store.operations) + [OpRow(env.newId, op.typePath, op.createdAt, op.status, op.payload)]
              && store.prefixes == old(store.prefixes) + PrefixRows([op], env.newId))
        && (result.Err? ==> store.operations == old(store.operations) && store.prefixes == old(store.prefixes))
    {
      var conn := new Connection(store);
      var ops := gen.GenerateBatchOps(1, [env.draws], env.now, DefaultErrorRate);
      var op := ops[0];
      var prefixes := ExpandPrefixes(op.typePath);
      var ok := conn.CallInsertWithPrefixes(op.typePath, op.createdAt, op.status, op.payload, prefixes, env.newId, env.callFail);
      if !ok {
        conn.Rollback();
        return Err("stored routine failed");
      }
      assert PrefixRows([op], env.newId) == RowsFor(env.newId, op) + PrefixRows([], env.newId + 1);
      ok := conn.Commit(env.commitFail);
      if !ok {
        conn.Rollback();
        return Err("commit failed");
      }
      result := Ok(1);
    }
  }
}
