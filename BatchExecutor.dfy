/**
 * The batching executor: consecutive updates with the same SQL text and the same mapped
 * statement share one JDBC statement and one `BatchResult`; a flush executes the statements
 * in submission order and reports the first failure with the results that succeeded before it.
 *
 * JDBC statements are opaque tokens; the driver's answer to the i-th `executeBatch()` of a
 * flush is the oracle `executeBatch(i)`: the update counts, or `None` for a
 * `BatchUpdateException`. Parameter objects are values of the type parameter `P`.
 */
module BatchExecutors {
  import opened Wrappers
  import opened JavaInts

  const BATCH_UPDATE_RETURN_VALUE: Int32 := MIN_INT + 1002

  /** A mapped statement, identified by its id (ids are unique in a configuration). */
  datatype MappedStatement = MappedStatement(id: string)

  /** A prepared JDBC statement handle. */
  type Statement = nat

  /** The parameter objects batched into one statement, and its update counts once executed. */
  datatype BatchResult<P> = BatchResult(
    mappedStatement: MappedStatement,
    sql: string,
    parameterObjects: seq<P>,
    updateCounts: Option<seq<Int32>>)

  /** The executor's fields. */
  datatype BatchState<P> = BatchState(
    statementList: seq<Statement>,
    batchResultList: seq<BatchResult<P>>,
    currentSql: Option<string>,
    currentStatement: Option<MappedStatement>)

  function EmptyState<P>(): BatchState<P> {
    BatchState([], [], None, None)
  }

  /**
   * The invariant between flushes: the two lists run in parallel; a current SQL text exists
   * exactly when something is pending, and then it and the current statement are those of
   * the last result; every pending result holds at least one parameter and no counts yet;
   * and neighbouring results never share both SQL text and statement.
   */
  ghost predicate Inv<P>(s: BatchState<P>) {
    && |s.statementList| == |s.batchResultList|
    && (s.currentSql.None? <==> s.batchResultList == [])
    && (s.currentSql.Some? ==>
          var last := s.batchResultList[|s.batchResultList| - 1];
          s.currentSql == Some(last.sql) && s.currentStatement == Some(last.mappedStatement))
    && (forall i :: 0 <= i < |s.batchResultList| ==>
          s.batchResultList[i].parameterObjects != [] && s.batchResultList[i].updateCounts.None?)
    && AdjacentDistinct(s.batchResultList)
  }

  ghost predicate AdjacentDistinct<P>(rs: seq<BatchResult<P>>) {
    forall i :: 0 <= i < |rs| - 1 ==>
      (rs[i].sql, rs[i].mappedStatement) != (rs[i + 1].sql, rs[i + 1].mappedStatement)
  }

  /** `doUpdate(ms, parameter)` when the bound SQL is `sql` and a new statement would be `prepared`. */
  function AddUpdate<P>(s: BatchState<P>, ms: MappedStatement, sql: string, parameter: P, prepared: Statement): BatchState<P>
    requires Inv(s)
  {
    if s.currentSql == Some(sql) && s.currentStatement == Some(ms) then
      var last := |s.batchResultList| - 1;
      var r := s.batchResultList[last];
      s.(batchResultList := s.batchResultList[last := r.(parameterObjects := r.parameterObjects + [parameter])])
    else
      BatchState(s.statementList + [prepared],
                 s.batchResultList + [BatchResult(ms, sql, [parameter], None)],
                 Some(sql), Some(ms))
  }

  /** One call of `doUpdate`: its statement, bound SQL, parameter and would-be new statement. */
  datatype Update<P> = Update(ms: MappedStatement, sql: string, parameter: P, prepared: Statement)

  lemma AddUpdateKeepsInv<P>(s: BatchState<P>, u: Update<P>)
    requires Inv(s)
    ensures Inv(AddUpdate(s, u.ms, u.sql, u.parameter, u.prepared))
  {
    var r := AddUpdate(s, u.ms, u.sql, u.parameter, u.prepared);
    if !(s.currentSql == Some(u.sql) && s.currentStatement == Some(u.ms)) {
      var rs := r.batchResultList;
      forall i | 0 <= i < |rs| - 1
        ensures (rs[i].sql, rs[i].mappedStatement) != (rs[i + 1].sql, rs[i + 1].mappedStatement)
      {
        if i < |rs| - 2 {
          assert rs[i] == s.batchResultList[i] && rs[i + 1] == s.batchResultList[i + 1];
        }
      }
    }
  }

  function ApplyUpdates<P>(s: BatchState<P>, us: seq<Update<P>>): BatchState<P>
    requires Inv(s)
    decreases |us|
  {
    if us == [] then s
    else
      AddUpdateKeepsInv(s, us[0]);
      ApplyUpdates(AddUpdate(s, us[0].ms, us[0].sql, us[0].parameter, us[0].prepared), us[1..])
  }

  lemma {:induction false} ApplyUpdatesKeepsInv<P>(s: BatchState<P>, us: seq<Update<P>>)
    requires Inv(s)
    ensures Inv(ApplyUpdates(s, us))
    decreases |us|
  {
    if us != [] {
      AddUpdateKeepsInv(s, us[0]);
      ApplyUpdatesKeepsInv(AddUpdate(s, us[0].ms, us[0].sql, us[0].parameter, us[0].prepared), us[1..]);
    }
  }

  /** A submitted parameter, tagged with the SQL text and statement it was submitted with. */
  datatype Tagged<P> = Tagged(sql: string, ms: MappedStatement, parameter: P)

  function TagsOf<P>(r: BatchResult<P>): seq<Tagged<P>> {
    seq(|r.parameterObjects|, i requires 0 <= i < |r.parameterObjects| => Tagged(r.sql, r.mappedStatement, r.parameterObjects[i]))
  }

  /** All parameters of the results, in result order and submission order within a result. */
  function Flatten<P>(rs: seq<BatchResult<P>>): seq<Tagged<P>>
    decreases |rs|
  {
    if rs == [] then [] else Flatten(rs[..|rs| - 1]) + TagsOf(rs[|rs| - 1])
  }

  function Submitted<P>(us: seq<Update<P>>): seq<Tagged<P>> {
    seq(|us|, i requires 0 <= i < |us| => Tagged(us[i].sql, us[i].ms, us[i].parameter))
  }

  lemma AddUpdateFlattens<P>(s: BatchState<P>, u: Update<P>)
    requires Inv(s)
    ensures Flatten(AddUpdate(s, u.ms, u.sql, u.parameter, u.prepared).batchResultList)
         == Flatten(s.batchResultList) + [Tagged(u.sql, u.ms, u.parameter)]
  {
    var rs := s.batchResultList;
    var rs' := AddUpdate(s, u.ms, u.sql, u.parameter, u.prepared).batchResultList;
    if s.currentSql == Some(u.sql) && s.currentStatement == Some(u.ms) {
      var last := |rs| - 1;
      assert rs'[..last] == rs[..last];
      assert TagsOf(rs'[last]) == TagsOf(rs[last]) + [Tagged(u.sql, u.ms, u.parameter)];
    } else {
      assert rs'[..|rs'| - 1] == rs;
      assert TagsOf(rs'[|rs'| - 1]) == [Tagged(u.sql, u.ms, u.parameter)];
    }
  }

  /**
   * Batching loses, duplicates and reorders nothing, and groups maximally: the results'
   * parameters, read in order, are exactly the submitted ones with their SQL and statement,
   * and no two neighbouring results could have been merged. With every result non-empty
   * (part of `Inv`), this fixes the grouping uniquely.
   */
  lemma {:induction false} BatchingPartitionsUpdates<P>(s: BatchState<P>, us: seq<Update<P>>)
    requires Inv(s)
    ensures var r := ApplyUpdates(s, us);
      && Inv(r)
      && Flatten(r.batchResultList) == Flatten(s.batchResultList) + Submitted(us)
    decreases |us|
  {
    ApplyUpdatesKeepsInv(s, us);
    if us == [] {
      assert Submitted(us) == [];
    } else {
      var u := us[0];
      AddUpdateKeepsInv(s, u);
      var s1 := AddUpdate(s, u.ms, u.sql, u.parameter, u.prepared);
      AddUpdateFlattens(s, u);
      BatchingPartitionsUpdates(s1, us[1..]);
      assert ApplyUpdates(s, us) == ApplyUpdates(s1, us[1..]);
      var t := Tagged(u.sql, u.ms, u.parameter);
      assert Submitted(us) == [t] + Submitted(us[1..]);
      assert (Flatten(s.batchResultList) + [t]) + Submitted(us[1..]) == Flatten(s.batchResultList) + ([t] + Submitted(us[1..]));
    }
  }

  predicate AllSame<P>(us: seq<Update<P>>, ms: MappedStatement, sql: string) {
    forall i :: 0 <= i < |us| ==> us[i].ms == ms && us[i].sql == sql
  }

  function Parameters<P>(us: seq<Update<P>>): seq<P> {
    seq(|us|, i requires 0 <= i < |us| => us[i].parameter)
  }

  /** Updates that match the current SQL and statement all join the last result, in order. */
  lemma {:induction false} RunJoinsLastBatch<P>(s: BatchState<P>, ms: MappedStatement, sql: string, us: seq<Update<P>>)
    requires Inv(s) && s.currentSql == Some(sql) && s.currentStatement == Some(ms)
    requires AllSame(us, ms, sql)
    ensures var r := ApplyUpdates(s, us);
      var last := |s.batchResultList| - 1;
      var old_last := s.batchResultList[last];
      && r.statementList == s.statementList
      && r.batchResultList == s.batchResultList[last := old_last.(parameterObjects := old_last.parameterObjects + Parameters(us))]
      && r.currentSql == Some(sql) && r.currentStatement == Some(ms)
    decreases |us|
  {
    var last := |s.batchResultList| - 1;
    var old_last := s.batchResultList[last];
    if us == [] {
      assert Parameters(us) == [];
      assert old_last.parameterObjects + [] == old_last.parameterObjects;
      assert s.batchResultList[last := old_last] == s.batchResultList;
    } else {
      var u := us[0];
      AddUpdateKeepsInv(s, u);
      var s1 := AddUpdate(s, u.ms, u.sql, u.parameter, u.prepared);
      assert AllSame(us[1..], ms, sql);
      RunJoinsLastBatch(s1, ms, sql, us[1..]);
      assert Parameters(us) == [u.parameter] + Parameters(us[1..]);
      assert old_last.parameterObjects + [u.parameter] + Parameters(us[1..])
          == old_last.parameterObjects + Parameters(us);
    }
  }

  /**
   * N consecutive updates with the same SQL text and statement, arriving when the current
   * batch is a different one (or none, as after a flush), open one new statement and one new
   * `BatchResult` holding the N parameters in submission order; earlier entries are untouched.
   */
  lemma SameStatementRunMakesOneBatch<P>(s: BatchState<P>, ms: MappedStatement, sql: string, us: seq<Update<P>>)
    requires Inv(s) && !(s.currentSql == Some(sql) && s.currentStatement == Some(ms))
    requires |us| > 0 && AllSame(us, ms, sql)
    ensures var r := ApplyUpdates(s, us);
      && r.statementList == s.statementList + [us[0].prepared]
      && r.batchResultList == s.batchResultList + [BatchResult(ms, sql, Parameters(us), None)]
  {
    var u := us[0];
    AddUpdateKeepsInv(s, u);
    var s1 := AddUpdate(s, u.ms, u.sql, u.parameter, u.prepared);
    assert AllSame(us[1..], ms, sql);
    RunJoinsLastBatch(s1, ms, sql, us[1..]);
    assert Parameters(us) == [u.parameter] + Parameters(us[1..]);
  }

  /** What a flush hands back: all results, or the failure with the results that succeeded. */
  datatype FlushOutcome<P> =
    | Flushed(results: seq<BatchResult<P>>)
    | BatchExecutorException(message: string, successfulBatchResults: seq<BatchResult<P>>, batchResult: BatchResult<P>)

  /** The failure message for the statement at 0-based index `i`. */
  const FIRST_BATCH_FAILED: string := " (batch index #1) failed."

  /**
   * The failure message for the statement at 0-based index `i`: it starts with the statement
   * id, numbers the batch from 1, and mentions the earlier batches only when there are some.
   */
  function FailureMessage(id: string, i: nat): (m: string)
    ensures |m| > |id| && m[..|id|] == id
    ensures i == 0 ==> m == id + FIRST_BATCH_FAILED
    ensures i > 0 ==> |m| > |id + FIRST_BATCH_FAILED|
  {
    id + (" (batch index #" + (NatToString(i + 1) + (")" + (" failed." + PriorNote(i)))))
  }

  /** How many earlier statements succeeded (and will be rolled back), when there were any. */
  function PriorNote(i: nat): (note: string)
    ensures note == [] <==> i == 0
  {
    if i > 0 then " " + NatToString(i) + " prior sub executor(s) completed successfully, but will be rolled back."
    else ""
  }

  /** The length of the run of decimal digits at the front of `s`. */
  function DigitRun(s: string): nat
    decreases |s|
  {
    if s == [] || !('0' <= s[0] <= '9') then 0 else 1 + DigitRun(s[1..])
  }

  lemma {:induction false} DigitRunBeforeParen(d: string, rest: string)
    requires forall k :: 0 <= k < |d| ==> '0' <= d[k] <= '9'
    ensures DigitRun(d + (")" + rest)) == |d|
    decreases |d|
  {
    if d != [] {
      assert (d + (")" + rest))[1..] == d[1..] + (")" + rest);
      DigitRunBeforeParen(d[1..], rest);
    }
  }

  lemma DigitsThenParen(d1: string, d2: string, rest1: string, rest2: string)
    requires forall k :: 0 <= k < |d1| ==> '0' <= d1[k] <= '9'
    requires forall k :: 0 <= k < |d2| ==> '0' <= d2[k] <= '9'
    requires d1 + (")" + rest1) == d2 + (")" + rest2)
    ensures d1 == d2
  {
    var s := d1 + (")" + rest1);
    DigitRunBeforeParen(d1, rest1);
    DigitRunBeforeParen(d2, rest2);
    assert d1 == s[..|d1|] == d2;
  }

  lemma CancelPrefix<T>(p: seq<T>, a: seq<T>, b: seq<T>)
    requires p + a == p + b
    ensures a == b
  {
    assert a == (p + a)[|p|..];
  }

  /** A number rendered before a closing parenthesis can be read back from the text. */
  lemma NumberBeforeParen(a: nat, b: nat, rest1: string, rest2: string)
    requires NatToString(a) + (")" + rest1) == NatToString(b) + (")" + rest2)
    ensures a == b
  {
    DigitsThenParen(NatToString(a), NatToString(b), rest1, rest2);
    NatToStringInjective(a, b);
  }

  /** Messages of the failure-message shape with equal text carry equal batch numbers. */
  lemma BatchNumberUnique(id: string, a: nat, b: nat, rest1: string, rest2: string)
    requires id + (" (batch index #" + (NatToString(a) + (")" + rest1)))
          == id + (" (batch index #" + (NatToString(b) + (")" + rest2)))
    ensures a == b
  {
    var t1 := NatToString(a) + (")" + rest1);
    var t2 := NatToString(b) + (")" + rest2);
    CancelPrefix(id, " (batch index #" + t1, " (batch index #" + t2);
    CancelPrefix(" (batch index #", t1, t2);
    NumberBeforeParen(a, b, rest1, rest2);
  }

  /** The message names the failing batch: different indexes give different messages. */
  lemma FailureMessageNamesIndex(id: string, i: nat, j: nat)
    requires FailureMessage(id, i) == FailureMessage(id, j)
    ensures i == j
  {
    BatchNumberUnique(id, i + 1, j + 1, " failed." + PriorNote(i), " failed." + PriorNote(j));
  }

  /** The first `k` results, each with the update counts its `executeBatch` returned. */
  function WithCounts<P>(rs: seq<BatchResult<P>>, executeBatch: nat -> Option<seq<Int32>>, k: nat): seq<BatchResult<P>>
    requires k <= |rs|
  {
    seq(k, j requires 0 <= j < k => rs[j].(updateCounts := executeBatch(j)))
  }

  predicate SucceedsUpTo(executeBatch: nat -> Option<seq<Int32>>, k: nat) {
    forall j :: 0 <= j < k ==> executeBatch(j).Some?
  }

  /**
   * What executing the batches `rs[i..]` in order yields once the first `i` have succeeded:
   * every result with its counts, or the exception for the first batch whose execution fails,
   * carrying the results before it.
   */
  function FlushFrom<P>(rs: seq<BatchResult<P>>, executeBatch: nat -> Option<seq<Int32>>, i: nat): FlushOutcome<P>
    requires i <= |rs|
    decreases |rs| - i
  {
    if i == |rs| then Flushed(WithCounts(rs, executeBatch, i))
    else if executeBatch(i).None? then
      BatchExecutorException(FailureMessage(rs[i].mappedStatement.id, i), WithCounts(rs, executeBatch, i), rs[i])
    else FlushFrom(rs, executeBatch, i + 1)
  }

  /**
   * A flush succeeds exactly when every batch does, and then returns every result with its
   * counts; when batch `j` is the first to fail, it reports batch `j` and the `j` successful
   * results before it.
   */
  lemma {:induction false} FlushFromOutcome<P>(rs: seq<BatchResult<P>>, executeBatch: nat -> Option<seq<Int32>>, i: nat)
    requires i <= |rs| && SucceedsUpTo(executeBatch, i)
    ensures FlushFrom(rs, executeBatch, i).Flushed? <==> SucceedsUpTo(executeBatch, |rs|)
    ensures SucceedsUpTo(executeBatch, |rs|) ==> FlushFrom(rs, executeBatch, i) == Flushed(WithCounts(rs, executeBatch, |rs|))
    ensures forall j :: i <= j < |rs| && SucceedsUpTo(executeBatch, j) && executeBatch(j).None? ==>
      FlushFrom(rs, executeBatch, i)
        == BatchExecutorException(FailureMessage(rs[j].mappedStatement.id, j), WithCounts(rs, executeBatch, j), rs[j])
    decreases |rs| - i
  {
    if i < |rs| {
      if executeBatch(i).Some? {
        assert SucceedsUpTo(executeBatch, i + 1);
        FlushFromOutcome(rs, executeBatch, i + 1);
        assert forall j :: i <= j < |rs| && SucceedsUpTo(executeBatch, j) && executeBatch(j).None? ==> i + 1 <= j;
      } else {
        assert !SucceedsUpTo(executeBatch, |rs|);
        assert forall j :: i < j < |rs| ==> !SucceedsUpTo(executeBatch, j);
      }
    }
  }

  class BatchExecutor<P> {
    var statementList: seq<Statement>
    var batchResultList: seq<BatchResult<P>>
    var currentSql: Option<string>
    var currentStatement: Option<MappedStatement>

    function State(): BatchState<P>
      reads this
    {
      BatchState(statementList, batchResultList, currentSql, currentStatement)
    }

    ghost predicate Valid()
      reads this
    {
      Inv(State())
    }

    constructor ()
      ensures Valid() && State() == EmptyState()
    {
      statementList, batchResultList, currentSql, currentStatement := [], [], None, None;
    }

    /**
     * `doUpdate`: join the last batch when SQL text and statement match the previous update,
     * otherwise open `prepared` as a new statement with a new `BatchResult`. The row count is
     * deferred, so the sentinel is returned.
     */
    method DoUpdate(ms: MappedStatement, parameterObject: P, sql: string, prepared: Statement) returns (r: Int32)
      requires Valid()
      modifies this
      ensures Valid()
      ensures r == BATCH_UPDATE_RETURN_VALUE
      ensures State() == AddUpdate(old(State()), ms, sql, parameterObject, prepared)
    {
      AddUpdateKeepsInv(State(), Update(ms, sql, parameterObject, prepared));
      if currentSql == Some(sql) && currentStatement == Some(ms) {
        var last := |statementList| - 1;
        var batchResult := batchResultList[last];
        batchResultList := batchResultList[last := batchResult.(parameterObjects := batchResult.parameterObjects + [parameterObject])];
      } else {
        currentSql := Some(sql);
        currentStatement := Some(ms);
        statementList := statementList + [prepared];
        batchResultList := batchResultList + [BatchResult(ms, sql, [parameterObject], None)];
      }
      r := BATCH_UPDATE_RETURN_VALUE;
    }

    /**
     * `doFlushStatements`: on rollback nothing is executed and nothing returned; otherwise the
     * statements are executed in order until the first failure. Either way both lists are
     * emptied and the current SQL forgotten, so the next update opens a new batch.
     */
    method DoFlushStatements(isRollback: bool, executeBatch: nat -> Option<seq<Int32>>) returns (r: FlushOutcome<P>)
      requires Valid()
      modifies this
      ensures Valid()
      ensures statementList == [] && batchResultList == [] && currentSql == None
      ensures currentStatement == old(currentStatement)
      ensures isRollback ==> r == Flushed([])
      ensures !isRollback ==> r == FlushFrom(old(batchResultList), executeBatch, 0)
      ensures !isRollback ==> (r.Flushed? <==> SucceedsUpTo(executeBatch, |old(batchResultList)|))
      ensures !isRollback && SucceedsUpTo(executeBatch, |old(batchResultList)|) ==>
        r == Flushed(WithCounts(old(batchResultList), executeBatch, |old(batchResultList)|))
      ensures forall i :: !isRollback && 0 <= i < |old(batchResultList)| && SucceedsUpTo(executeBatch, i) && executeBatch(i).None? ==>
        r == BatchExecutorException(FailureMessage(old(batchResultList)[i].mappedStatement.id, i),
                                    WithCounts(old(batchResultList), executeBatch, i),
                                    old(batchResultList)[i])
    {
      if isRollback {
        r := Flushed([]);
      } else {
        var results: seq<BatchResult<P>> := [];
        var n := |statementList|;
        var i := 0;
        r := Flushed([]);
        var failed := false;
        while i < n && !failed
          invariant 0 <= i <= n == |batchResultList|
          invariant batchResultList == old(batchResultList)
          invariant SucceedsUpTo(executeBatch, i)
          invariant results == WithCounts(batchResultList, executeBatch, i)
          invariant failed ==> r == FlushFrom(batchResultList, executeBatch, 0)
          invariant !failed ==> FlushFrom(batchResultList, executeBatch, i) == FlushFrom(batchResultList, executeBatch, 0)
          decreases n - i, if failed then 0 else 1
        {
          var batchResult := batchResultList[i];
          var updateCounts := executeBatch(i);
          if updateCounts.None? {
            r := BatchExecutorException(FailureMessage(batchResult.mappedStatement.id, i), results, batchResult);
            failed := true;
          } else {
            results := results + [batchResult.(updateCounts := updateCounts)];
            i := i + 1;
          }
        }
        if !failed {
          r := Flushed(results);
        }
        FlushFromOutcome(batchResultList, executeBatch, 0);
      }
      currentSql := None;
      statementList := [];
      batchResultList := [];
    }

    /** `doQuery`/`doQueryCursor`: pending batches are flushed before the query runs. */
    method DoQuery<R>(executeBatch: nat -> Option<seq<Int32>>, queryAnswer: R) returns (r: Result<R, FlushOutcome<P>>)
      requires Valid()
      modifies this
      ensures Valid()
      ensures statementList == [] && batchResultList == [] && currentSql == None
      ensures r.Success? <==> SucceedsUpTo(executeBatch, |old(batchResultList)|)
      ensures r.Success? ==> r.value == queryAnswer
      ensures r.Failure? ==> r.error.BatchExecutorException?
      ensures r.Failure? ==> r.error == FlushFrom(old(batchResultList), executeBatch, 0)
      ensures currentStatement == old(currentStatement)
    {
      var flushed := DoFlushStatements(false, executeBatch);
      if flushed.BatchExecutorException? {
        return Failure(flushed);
      }
      r := Success(queryAnswer);
    }
  }
}
