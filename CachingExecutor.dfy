/**
 * The second-level-cache executor: a decorator that decides, per statement, whether to clear
 * the transaction's staged cache entries, whether to answer a query from the cache (staging the
 * delegate's answer on a miss), and in which order the delegate executor and the transactional
 * cache manager commit, roll back and close.
 *
 * The delegate executor is observed only through the calls made to it (the trace `calls`) and
 * the answers it gives (oracle parameters). The transactional cache manager is an abstract
 * stateful component: per cache, the entries staged by this transaction and whether the cache
 * is to be cleared on commit; `caches` holds the shared caches' committed contents.
 */
module CachingExecutors {
  import opened Wrappers

  type CacheId = string

  datatype StatementType = STATEMENT | PREPARED | CALLABLE

  datatype ParameterMode = IN | OUT | INOUT

  /** What the caching executor reads from a mapped statement. */
  datatype MappedStatement = MappedStatement(
    id: string,
    cache: Option<CacheId>,
    flushCacheRequired: bool,
    useCache: bool,
    statementType: StatementType)

  datatype ExecutorError =
    | ExecutorException(message: string)
    /** An exception thrown by the delegate executor. */
    | SQLException

  /** One interaction with the delegate executor or the transactional cache manager. */
  datatype Call<K> =
    | TcmClear(cache: CacheId)
    | TcmGetObject(cache: CacheId, key: K)
    | TcmPutObject(cache: CacheId, key: K)
    | TcmCommit
    | TcmRollback
    | DelegateQuery(statementId: string, key: K)
    | DelegateQueryCursor(statementId: string)
    | DelegateUpdate(statementId: string)
    | DelegateCommit(required: bool)
    | DelegateRollback(required: bool)
    | DelegateClose(forceRollback: bool)

  /** A transaction's pending changes to one shared cache. */
  datatype Staging<K, E> = Staging(entries: map<K, seq<E>>, clearOnCommit: bool)

  type Caches<K, E> = map<CacheId, map<K, seq<E>>>
  type Tcm<K, E> = map<CacheId, Staging<K, E>>

  function CacheOf<K, E>(caches: Caches<K, E>, c: CacheId): map<K, seq<E>> {
    if c in caches then caches[c] else map[]
  }

  function StagingOf<K, E>(tcm: Tcm<K, E>, c: CacheId): Staging<K, E> {
    if c in tcm then tcm[c] else Staging(map[], false)
  }

  /** `tcm.clear(cache)`: drop what was staged and clear the shared cache on commit. */
  function TcmClearOf<K, E>(tcm: Tcm<K, E>, c: CacheId): (t: Tcm<K, E>)
    ensures StagingOf(t, c) == Staging(map[], true)
    ensures forall d :: d != c ==> StagingOf(t, d) == StagingOf(tcm, d)
  {
    tcm[c := Staging(map[], true)]
  }

  /**
   * `tcm.getObject(cache, key)`: the shared cache's committed entry, hidden once the
   * transaction has cleared that cache. Entries staged by this transaction are not visible.
   */
  function TcmGetOf<K, E>(caches: Caches<K, E>, tcm: Tcm<K, E>, c: CacheId, key: K): Option<seq<E>> {
    if StagingOf(tcm, c).clearOnCommit || key !in CacheOf(caches, c) then None
    else Some(CacheOf(caches, c)[key])
  }

  /** `tcm.putObject(cache, key, list)`: stage the entry for the next commit. */
  function TcmPutOf<K, E>(tcm: Tcm<K, E>, c: CacheId, key: K, list: seq<E>): (t: Tcm<K, E>)
    ensures StagingOf(t, c).entries == StagingOf(tcm, c).entries[key := list]
    ensures StagingOf(t, c).clearOnCommit == StagingOf(tcm, c).clearOnCommit
    ensures forall d :: d != c ==> StagingOf(t, d) == StagingOf(tcm, d)
  {
    var s := StagingOf(tcm, c);
    tcm[c := Staging(s.entries[key := list], s.clearOnCommit)]
  }

  /** `tcm.commit()` on the shared caches: clear those marked, then publish the staged entries. */
  function TcmCommitOf<K, E>(caches: Caches<K, E>, tcm: Tcm<K, E>): (r: Caches<K, E>)
    ensures forall c :: c in tcm ==>
      CacheOf(r, c) == (if tcm[c].clearOnCommit then map[] else CacheOf(caches, c)) + tcm[c].entries
    ensures forall c :: c !in tcm ==> CacheOf(r, c) == CacheOf(caches, c)
  {
    map c | c in caches.Keys + tcm.Keys ::
      (if StagingOf(tcm, c).clearOnCommit then map[] else CacheOf(caches, c)) + StagingOf(tcm, c).entries
  }

  /** After a commit, every staged entry is a hit and the transaction has nothing staged. */
  lemma CommitPublishesStaged<K, E>(caches: Caches<K, E>, tcm: Tcm<K, E>, c: CacheId, key: K)
    requires key in StagingOf(tcm, c).entries
    ensures TcmGetOf(TcmCommitOf(caches, tcm), map[], c, key) == Some(StagingOf(tcm, c).entries[key])
  {
  }

  /** A cache cleared in the transaction keeps, after commit, only what was staged after the clear. */
  lemma ClearThenCommitDropsOld<K, E>(caches: Caches<K, E>, tcm: Tcm<K, E>, c: CacheId, key: K)
    requires key !in StagingOf(tcm, c).entries
    requires StagingOf(tcm, c).clearOnCommit
    ensures TcmGetOf(TcmCommitOf(caches, tcm), map[], c, key) == None
  {
  }

  /** The calls `flushCacheIfRequired(ms)` makes. */
  function FlushCalls<K>(ms: MappedStatement): seq<Call<K>> {
    if ms.cache.Some? && ms.flushCacheRequired then [TcmClear(ms.cache.value)] else []
  }

  /** The staging after `flushCacheIfRequired(ms)`. */
  function FlushedTcm<K, E>(tcm: Tcm<K, E>, ms: MappedStatement): Tcm<K, E> {
    if ms.cache.Some? && ms.flushCacheRequired then TcmClearOf(tcm, ms.cache.value) else tcm
  }

  /** Whether `ensureNoOutParams` rejects the statement. */
  predicate HasOutParams(ms: MappedStatement, parameterModes: seq<ParameterMode>) {
    ms.statementType == CALLABLE && exists i :: 0 <= i < |parameterModes| && parameterModes[i] != IN
  }

  const OUT_PARAMS_NOT_SUPPORTED: string :=
    "Caching stored procedures with OUT params is not supported.  Please configure useCache=false in "

  function OutParamsError(id: string): ExecutorError {
    ExecutorException(OUT_PARAMS_NOT_SUPPORTED + id + " statement.")
  }

  /**
   * `ensureNoOutParams`: a callable statement may be cached only when every parameter
   * mapping is IN; other statement types are never rejected.
   */
  method EnsureNoOutParams(ms: MappedStatement, parameterModes: seq<ParameterMode>) returns (r: Result<(), ExecutorError>)
    ensures r.Failure? <==> HasOutParams(ms, parameterModes)
    ensures r.Failure? ==> r.error == OutParamsError(ms.id)
  {
    if ms.statementType == CALLABLE {
      for i := 0 to |parameterModes|
        invariant forall j :: 0 <= j < i ==> parameterModes[j] == IN
      {
        if parameterModes[i] != IN {
          assert HasOutParams(ms, parameterModes);
          return Failure(OutParamsError(ms.id));
        }
      }
    }
    return Success(());
  }

  class CachingExecutor<K(==), E> {
    /** The shared second-level caches' committed contents. */
    var caches: Caches<K, E>
    /** The transactional cache manager's staging, per cache. */
    var tcm: Tcm<K, E>
    /** Every call made to the delegate executor or the transactional cache manager, in order. */
    var calls: seq<Call<K>>

    constructor (caches: Caches<K, E>)
      ensures this.caches == caches && tcm == map[] && calls == []
    {
      this.caches := caches;
      tcm := map[];
      calls := [];
    }

    method FlushCacheIfRequired(ms: MappedStatement)
      modifies this
      ensures calls == old(calls) + FlushCalls(ms)
      ensures tcm == FlushedTcm(old(tcm), ms)
      ensures caches == old(caches)
    {
      if ms.cache.Some? && ms.flushCacheRequired {
        tcm := TcmClearOf(tcm, ms.cache.value);
        calls := calls + [TcmClear(ms.cache.value)];
      }
    }

    /**
     * The six-argument `query`. `parameterModes` are the bound SQL's parameter modes and
     * `delegateAnswer` is what the delegate's `query` returns if it is called.
     */
    method Query(ms: MappedStatement, parameterModes: seq<ParameterMode>, hasResultHandler: bool, key: K,
                 delegateAnswer: Result<seq<E>, ExecutorError>)
      returns (r: Result<seq<E>, ExecutorError>)
      modifies this
      ensures caches == old(caches)
      // no cache: straight to the delegate, the transactional cache untouched
      ensures ms.cache.None? ==>
        r == delegateAnswer && calls == old(calls) + [DelegateQuery(ms.id, key)] && tcm == old(tcm)
      // a cache, but a result handler or useCache=false: flush if required, then the delegate
      ensures ms.cache.Some? && !(ms.useCache && !hasResultHandler) ==>
        && r == delegateAnswer
        && calls == old(calls) + FlushCalls(ms) + [DelegateQuery(ms.id, key)]
        && tcm == FlushedTcm(old(tcm), ms)
      // the cached path
      ensures ms.cache.Some? && ms.useCache && !hasResultHandler ==>
        var c := ms.cache.value;
        var t := FlushedTcm(old(tcm), ms);
        var hit := TcmGetOf(caches, t, c, key);
        var prefix := old(calls) + FlushCalls(ms);
        if HasOutParams(ms, parameterModes) then
          r == Failure(OutParamsError(ms.id)) && calls == prefix && tcm == t
        else if hit.Some? then
          r == Success(hit.value) && calls == prefix + [TcmGetObject(c, key)] && tcm == t
        else if delegateAnswer.Failure? then
          r == delegateAnswer && calls == prefix + [TcmGetObject(c, key), DelegateQuery(ms.id, key)] && tcm == t
        else
          && r == delegateAnswer
          && calls == prefix + [TcmGetObject(c, key), DelegateQuery(ms.id, key), TcmPutObject(c, key)]
          && tcm == TcmPutOf(t, c, key, delegateAnswer.value)
    {
      if ms.cache.Some? {
        var cache := ms.cache.value;
        FlushCacheIfRequired(ms);
        if ms.useCache && !hasResultHandler {
          var checked := EnsureNoOutParams(ms, parameterModes);
          if checked.Failure? {
            return Failure(checked.error);
          }
          var list := TcmGetOf(caches, tcm, cache, key);
          calls := calls + [TcmGetObject(cache, key)];
          if list.None? {
            calls := calls + [DelegateQuery(ms.id, key)];
            if delegateAnswer.Failure? {
              return delegateAnswer;
            }
            list := Some(delegateAnswer.value);
            tcm := TcmPutOf(tcm, cache, key, delegateAnswer.value);
            calls := calls + [TcmPutObject(cache, key)];
          }
          return Success(list.value);
        }
      }
      calls := calls + [DelegateQuery(ms.id, key)];
      r := delegateAnswer;
    }

    /** `update`: clear the statement's staged entries if it requires flushing, then delegate. */
    method Update(ms: MappedStatement, delegateAnswer: Result<int, ExecutorError>) returns (r: Result<int, ExecutorError>)
      modifies this
      ensures r == delegateAnswer
      ensures calls == old(calls) + FlushCalls(ms) + [DelegateUpdate(ms.id)]
      ensures tcm == FlushedTcm(old(tcm), ms) && caches == old(caches)
    {
      FlushCacheIfRequired(ms);
      calls := calls + [DelegateUpdate(ms.id)];
      r := delegateAnswer;
    }

    /** `queryCursor`: as `update`, a cursor is never cached. */
    method QueryCursor<C>(ms: MappedStatement, delegateAnswer: Result<C, ExecutorError>) returns (r: Result<C, ExecutorError>)
      modifies this
      ensures r == delegateAnswer
      ensures calls == old(calls) + FlushCalls(ms) + [DelegateQueryCursor(ms.id)]
      ensures tcm == FlushedTcm(old(tcm), ms) && caches == old(caches)
    {
      FlushCacheIfRequired(ms);
      calls := calls + [DelegateQueryCursor(ms.id)];
      r := delegateAnswer;
    }

    /** `commit`: the delegate first; the staged entries are published only if it succeeds. */
    method Commit(required: bool, delegateFails: bool) returns (r: Result<(), ExecutorError>)
      modifies this
      ensures r.Failure? <==> delegateFails
      ensures delegateFails ==>
        calls == old(calls) + [DelegateCommit(required)] && tcm == old(tcm) && caches == old(caches)
      ensures !delegateFails ==>
        && calls == old(calls) + [DelegateCommit(required), TcmCommit]
        && caches == TcmCommitOf(old(caches), old(tcm)) && tcm == map[]
    {
      calls := calls + [DelegateCommit(required)];
      if delegateFails {
        return Failure(SQLException);
      }
      caches := TcmCommitOf(caches, tcm);
      tcm := map[];
      calls := calls + [TcmCommit];
      r := Success(());
    }

    /** `rollback`: the staging is discarded exactly when `required`, whether or not the delegate throws. */
    method Rollback(required: bool, delegateFails: bool) returns (r: Result<(), ExecutorError>)
      modifies this
      ensures r.Failure? <==> delegateFails
      ensures calls == old(calls) + [DelegateRollback(required)] + (if required then [TcmRollback] else [])
      ensures tcm == (if required then map[] else old(tcm))
      ensures caches == old(caches)
    {
      calls := calls + [DelegateRollback(required)];
      if required {
        tcm := map[];
        calls := calls + [TcmRollback];
      }
      r := if delegateFails then Failure(SQLException) else Success(());
    }

    /** `close`: roll the staging back when forced, publish it otherwise; the delegate is closed last. */
    method Close(forceRollback: bool)
      modifies this
      ensures calls == old(calls) + [if forceRollback then TcmRollback else TcmCommit, DelegateClose(forceRollback)]
      ensures caches == (if forceRollback then old(caches) else TcmCommitOf(old(caches), old(tcm)))
      ensures tcm == map[]
    {
      if forceRollback {
        calls := calls + [TcmRollback];
      } else {
        caches := TcmCommitOf(caches, tcm);
        calls := calls + [TcmCommit];
      }
      tcm := map[];
      calls := calls + [DelegateClose(forceRollback)];
    }
  }

  /**
   * The cache protocol end to end: a miss stages the delegate's list, the commit publishes it,
   * and the same query in the next transaction is answered without calling the delegate.
   */
  method MissCommitHit(ms: MappedStatement, key: int, rows: seq<string>)
    requires ms.cache.Some? && ms.useCache && !ms.flushCacheRequired && ms.statementType != CALLABLE
  {
    var ex := new CachingExecutor<int, string>(map[]);
    var first := ex.Query(ms, [], false, key, Success(rows));
    assert first == Success(rows);
    var committed := ex.Commit(true, false);
    var mark := |ex.calls|;
    var second := ex.Query(ms, [], false, key, Failure(SQLException));
    assert second == Success(rows);
    assert ex.calls[mark..] == [TcmGetObject(ms.cache.value, key)];
  }
}
