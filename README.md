# MyBatis execution core, modelled in Dafny

This project models the parts of MyBatis 3 (a Java SQL mapper framework) that decide how a
mapper method becomes SQL work and how results are cached:

- the **cache key** built from a query's parts and its equality test (`CacheKey`);
- the **FIFO cache decorator** that bounds a cache by evicting the oldest key (`FifoCache`);
- the **batch executor**, which groups consecutive updates of the same SQL into one JDBC batch
  and reports the first failing batch (`BatchExecutor`);
- the **second-level caching executor**, which answers queries from a transactional cache and
  publishes staged results on commit (`CachingExecutor`);
- the **result-set wrapper**: column metadata, type-handler lookup, and the mapped/unmapped
  column split (`ResultSetWrapper`);
- the **parameter name resolver**, which names mapper-method arguments and builds the
  parameter map (`ParamNameResolver`);
- the **mapper method binding**: statement resolution, dispatch on the command type, return-value
  conversion (`MapperMethod`);
- the **XML statement builder's decision rules**: database-id matching, attribute defaults,
  key-generator choice, `<selectKey>` passes (`XMLStatementBuilder`).

There is one Dafny module per Java file, plus two helper modules:

- `Wrappers` provides `Option` for Java `null` and `Result` for an exception.
- `JavaInts` provides 32- and 64-bit wrap-around and `String.valueOf` for naturals.

Code that changes objects step by step is modelled as classes whose methods change their fields
(`modifies`), and each such method is specified by pure functions with lemmas about them. Pure
decision code is modelled as functions with contracts.

What the model takes from outside rather than computing itself:

- **JDBC.** Statements, `executeBatch` and result-set metadata are opaque tokens or oracle
  parameters.
- **Collaborators the core calls but does not define:**
  - The delegate executor and the `TransactionalCacheManager` are represented by a trace of the
    calls made to them and by the answers they give.
  - The type-handler registry and class loading are given as functions.
  - The SQL session's answers are given as values.
- **Java reflection.** Return and parameter types are an enumeration of classes or per-parameter
  flags. The object factory's collection test is a flag.

## Model

| member | source | states |
|---|---|---|
| JavaInts.Wrap32 | src/main/java/org/apache/ibatis/cache/CacheKey.java:91-95 | Java `int` arithmetic: the result is congruent to the exact value modulo 2^32 and equals it when in range |
| JavaInts.Wrap64 | src/main/java/org/apache/ibatis/cache/CacheKey.java:92 | Java `long` arithmetic: congruent modulo 2^64, exact when in range |
| JavaInts.NatToString | src/main/java/org/apache/ibatis/executor/BatchExecutor.java:170 | decimal rendering of an index: non-empty, digits only, one digit exactly below 10 |
| JavaInts.NatToStringInjective | src/main/java/org/apache/ibatis/executor/BatchExecutor.java:168-176 | different numbers render to different strings |
| CacheKeys.FoldAppend | src/main/java/org/apache/ibatis/cache/CacheKey.java:100-104 | applying a sequence of updates in two parts is the same as applying it in one |
| CacheKeys.FoldSnoc | src/main/java/org/apache/ibatis/cache/CacheKey.java:86-104 | `updateAll` followed by one more `update` is `updateAll` of the longer sequence |
| CacheKeys.FoldCountsAndAppends | src/main/java/org/apache/ibatis/cache/CacheKey.java:91-97 | every update adds exactly one to the count and appends its object to the update list, in order |
| CacheKeys.Wrap32Offset | src/main/java/org/apache/ibatis/cache/CacheKey.java:95 | the wrapped `int` differs from the exact value by a whole multiple of 2^32 |
| CacheKeys.Wrap64Offset | src/main/java/org/apache/ibatis/cache/CacheKey.java:92 | the wrapped `long` differs from the exact value by a whole multiple of 2^64 |
| CacheKeys.Wrap32Shift | src/main/java/org/apache/ibatis/cache/CacheKey.java:95 | adding a multiple of 2^32 does not change the wrapped `int` |
| CacheKeys.Wrap64Shift | src/main/java/org/apache/ibatis/cache/CacheKey.java:92 | adding a multiple of 2^64 does not change the wrapped `long` |
| CacheKeys.Wrap32Add | src/main/java/org/apache/ibatis/cache/CacheKey.java:95 | wrapping each addend of an `int` sum first gives the same `int` as wrapping the exact sum |
| CacheKeys.Wrap32Scale | src/main/java/org/apache/ibatis/cache/CacheKey.java:95 | multiplying the wrapped hash by 37 gives the same `int` as multiplying the exact hash |
| CacheKeys.StepHashWraps | src/main/java/org/apache/ibatis/cache/CacheKey.java:93-95 | wrapping after each `int` operation equals wrapping the exact `37*h + base*count` once |
| CacheKeys.ChecksumWraps | src/main/java/org/apache/ibatis/cache/CacheKey.java:92 | wrapping the running checksum after each addition equals wrapping the exact sum once |
| CacheKeys.KeyOfSnoc | src/main/java/org/apache/ibatis/cache/CacheKey.java:86-104 | the key of a non-empty sequence is one `update` step applied to the key of all but its last value, which has counted one fewer |
| CacheKeys.KeyHashMatchesExact | src/main/java/org/apache/ibatis/cache/CacheKey.java:93-95 | the hash of the key built from n values is the wrapped exact polynomial `17*37^n + sum of 37^(n-k) * base_k * k` |
| CacheKeys.KeyChecksumMatchesExact | src/main/java/org/apache/ibatis/cache/CacheKey.java:92 | the checksum of the key built from n values is the wrapped exact sum of their base hashes |
| CacheKeys.KeyOfMatchesExact | src/main/java/org/apache/ibatis/cache/CacheKey.java:69-104 | the key built from n values has the hash and checksum of the exact polynomial and sum over them (null hashing as 1), wrapped, and count n |
| CacheKeys.CacheKey.constructor | src/main/java/org/apache/ibatis/cache/CacheKey.java:69-74 | a fresh key has hash 17, multiplier 37, checksum 0, count 0 and no updates |
| CacheKeys.CacheKey.FromObjects | src/main/java/org/apache/ibatis/cache/CacheKey.java:76-80 | `CacheKey(objects)` is the fresh key updated with each object from left to right |
| CacheKeys.CacheKey.GetUpdateCount | src/main/java/org/apache/ibatis/cache/CacheKey.java:82-84 | the size of the update list is the update count |
| CacheKeys.CacheKey.Update | src/main/java/org/apache/ibatis/cache/CacheKey.java:86-98 | count grows by one, the object is appended, and hash and checksum follow one wrapped step (base 1 for null) |
| CacheKeys.CacheKey.UpdateAll | src/main/java/org/apache/ibatis/cache/CacheKey.java:100-104 | the same as calling `update` on each object left to right |
| CacheKeys.CacheKey.Equals | src/main/java/org/apache/ibatis/cache/CacheKey.java:106-135 | reflexive; false for a non-key; otherwise true exactly when hash, checksum, count and every update agree; equal keys have equal hash codes |
| CacheKeys.CacheKey.HashCode | src/main/java/org/apache/ibatis/cache/CacheKey.java:137-140 | the hash code is the exact polynomial hash of the update list truncated to an `int` |
| CacheKeys.CacheKey.Clone | src/main/java/org/apache/ibatis/cache/CacheKey.java:151-156 | a new key with the same state, owning its own copy of the update list |
| CacheKeys.SameUpdatesSameFields | src/main/java/org/apache/ibatis/cache/CacheKey.java:86-135 | two keys updated with the same values agree on every field, so `equals` holds between them |
| CacheKeys.CloneThenUpdate | src/main/java/org/apache/ibatis/cache/CacheKey.java:151-156 | a clone is equal to its original, and a later update to the original leaves the clone's update list unchanged |
| FifoCaches.CycleKeyList | src/main/java/org/apache/ibatis/cache/decorators/FifoCache.java:91-99 | the oldest key is evicted exactly when the queue grows past the size; the evicted key followed by the new queue is the old queue plus the new key; a queue within its size stays within it |
| FifoCaches.QueueIsNewestWindow | src/main/java/org/apache/ibatis/cache/decorators/FifoCache.java:68-72 | after any run of puts the queue holds exactly the newest `min(size, n)` keys in arrival order |
| FifoCaches.FifoCache.constructor | src/main/java/org/apache/ibatis/cache/decorators/FifoCache.java:47-51 | the decorator starts with an empty queue and size 1024 over the given cache; the keys already cached are the only unqueued ones |
| FifoCaches.FifoCache.GetId | src/main/java/org/apache/ibatis/cache/decorators/FifoCache.java:53-56 | the id is the decorated cache's, fixed at creation |
| FifoCaches.FifoCache.GetSize | src/main/java/org/apache/ibatis/cache/decorators/FifoCache.java:58-61 | the size is the number of entries of the decorated cache, at most the unqueued keys plus the queue |
| FifoCaches.FifoCache.GetObject | src/main/java/org/apache/ibatis/cache/decorators/FifoCache.java:74-77 | a read answers from the decorated cache: the stored value exactly when the key is cached |
| FifoCaches.FifoCache.SetSize | src/main/java/org/apache/ibatis/cache/decorators/FifoCache.java:63-65 | only the bound changes, and nothing is evicted at once |
| FifoCaches.FifoCache.CycleKeyListOf | src/main/java/org/apache/ibatis/cache/decorators/FifoCache.java:91-99 | the key is queued, and on overflow the oldest key leaves both the queue and the cache |
| FifoCaches.FifoCache.PutObject | src/main/java/org/apache/ibatis/cache/decorators/FifoCache.java:68-72 | evict first, then write: the entry just put is readable and only the evicted oldest key leaves the cache; the key becomes unqueued only when it was evicted at once; with all keys queued and `size >= 1` the cache stays within `size` entries |
| FifoCaches.FifoCache.RemoveObject | src/main/java/org/apache/ibatis/cache/decorators/FifoCache.java:80-83 | removes from the cache and returns the old entry; the queue is left as it was |
| FifoCaches.FifoCache.Clear | src/main/java/org/apache/ibatis/cache/decorators/FifoCache.java:86-89 | empties both the cache and the queue, leaving no unqueued key |
| FifoCaches.CachedKeysBound | src/main/java/org/apache/ibatis/cache/decorators/FifoCache.java:68-99 | every cached key is queued, apart from the keys a size below 1 let through unqueued |
| FifoCaches.AllQueuedBound | src/main/java/org/apache/ibatis/cache/decorators/FifoCache.java:91-99 | a decorator created over an empty cache or cleared, and within its capacity, holds at most `size` entries |
| FifoCaches.SizeBoundWhenValid | src/main/java/org/apache/ibatis/cache/decorators/FifoCache.java:58-61 | the reported size never exceeds the unqueued keys plus the queue |
| BatchExecutors.AddUpdateKeepsInv | src/main/java/org/apache/ibatis/executor/BatchExecutor.java:61-98 | `doUpdate` keeps the batch lists parallel, ties `currentSql` and `currentStatement` to the last batch, and keeps neighbouring batches distinct |
| BatchExecutors.ApplyUpdatesKeepsInv | src/main/java/org/apache/ibatis/executor/BatchExecutor.java:61-98 | the same holds after any sequence of updates |
| BatchExecutors.AddUpdateFlattens | src/main/java/org/apache/ibatis/executor/BatchExecutor.java:69-94 | one update appends exactly its (statement, SQL, parameter) to the batches read in order |
| BatchExecutors.BatchingPartitionsUpdates | src/main/java/org/apache/ibatis/executor/BatchExecutor.java:61-98 | the batches, read in order, are exactly the updates submitted: nothing is lost, duplicated or reordered |
| BatchExecutors.RunJoinsLastBatch | src/main/java/org/apache/ibatis/executor/BatchExecutor.java:69-79 | updates repeating the current SQL and statement only add parameters to the last batch |
| BatchExecutors.SameStatementRunMakesOneBatch | src/main/java/org/apache/ibatis/executor/BatchExecutor.java:69-94 | a run of updates with new SQL or a new statement opens one statement and one batch holding all their parameters |
| BatchExecutors.DigitRunBeforeParen | src/main/java/org/apache/ibatis/executor/BatchExecutor.java:168-172 | the batch index in the failure message ends at the closing parenthesis |
| BatchExecutors.FailureMessage | src/main/java/org/apache/ibatis/executor/BatchExecutor.java:166-172 | the failure message starts with the statement id and numbers the batch from 1; for the first batch it is exactly `id (batch index #1) failed.`, later ones say more |
| BatchExecutors.PriorNote | src/main/java/org/apache/ibatis/executor/BatchExecutor.java:173-176 | the note about earlier successful batches is present exactly when the failing index is above 0 |
| BatchExecutors.DigitsThenParen | src/main/java/org/apache/ibatis/executor/BatchExecutor.java:168-172 | the digits before `)` are determined by the message text |
| BatchExecutors.NumberBeforeParen | src/main/java/org/apache/ibatis/executor/BatchExecutor.java:170-171 | two messages continuing with a rendered number and `)` agree on the number |
| BatchExecutors.BatchNumberUnique | src/main/java/org/apache/ibatis/executor/BatchExecutor.java:168-172 | two failure messages for the same statement id with equal text carry the same batch number |
| BatchExecutors.FailureMessageNamesIndex | src/main/java/org/apache/ibatis/executor/BatchExecutor.java:166-178 | the failure message identifies the failing batch: different indexes give different messages |
| BatchExecutors.FlushFromOutcome | src/main/java/org/apache/ibatis/executor/BatchExecutor.java:144-182 | the flush from batch i on succeeds exactly when every batch succeeds, then returns every batch with its counts; otherwise it reports the first failing batch j with the j batches before it |
| BatchExecutors.BatchExecutor.constructor | src/main/java/org/apache/ibatis/executor/BatchExecutor.java:56-58 | a new executor has no batches, no current SQL and no current statement |
| BatchExecutors.BatchExecutor.DoUpdate | src/main/java/org/apache/ibatis/executor/BatchExecutor.java:61-98 | the update joins the last batch exactly when SQL and statement match the current ones, else opens a new batch; the sentinel `Integer.MIN_VALUE + 1002` is returned |
| BatchExecutors.BatchExecutor.DoFlushStatements | src/main/java/org/apache/ibatis/executor/BatchExecutor.java:136-191 | nothing on rollback; otherwise the batches in order with their counts, or, at the first failure i, the exception naming batch i+1 with the i batches before it, as `FlushFrom` from batch 0; the lists are cleared and `currentSql` reset either way |
| BatchExecutors.BatchExecutor.DoQuery | src/main/java/org/apache/ibatis/executor/BatchExecutor.java:101-133 | pending batches are flushed before a query or cursor runs; the query runs only when every batch succeeds, and otherwise the error is the first failing batch's exception from `FlushFrom`; `currentStatement` is kept |
| CachingExecutors.TcmClearOf | src/main/java/org/apache/ibatis/executor/CachingExecutor.java:196-203 | clearing one cache's staging drops its entries and marks it clear-on-commit; other caches are untouched |
| CachingExecutors.TcmPutOf | src/main/java/org/apache/ibatis/executor/CachingExecutor.java:126-130 | a put stages the list for that key only, visible after commit |
| CachingExecutors.TcmCommitOf | src/main/java/org/apache/ibatis/executor/CachingExecutor.java:146-151 | commit publishes each cache's staged entries, after wiping it when clear-on-commit was set; unstaged caches keep their entries |
| CachingExecutors.CommitPublishesStaged | src/main/java/org/apache/ibatis/executor/CachingExecutor.java:126-151 | a staged entry is served after commit |
| CachingExecutors.ClearThenCommitDropsOld | src/main/java/org/apache/ibatis/executor/CachingExecutor.java:146-151 | after a flush, commit leaves no old entry behind |
| CachingExecutors.EnsureNoOutParams | src/main/java/org/apache/ibatis/executor/CachingExecutor.java:166-174 | rejects exactly callable statements with an OUT or INOUT parameter, with the "Please configure useCache=false" message |
| CachingExecutors.CachingExecutor.constructor | src/main/java/org/apache/ibatis/executor/CachingExecutor.java:56-61 | starts with nothing staged and no calls made |
| CachingExecutors.CachingExecutor.FlushCacheIfRequired | src/main/java/org/apache/ibatis/executor/CachingExecutor.java:196-203 | the statement's cache staging is cleared exactly when it has a cache and requires flushing |
| CachingExecutors.CachingExecutor.Query | src/main/java/org/apache/ibatis/executor/CachingExecutor.java:111-138 | no cache, or a result handler or `useCache=false`, goes to the delegate; otherwise OUT parameters are rejected, a hit is served without the delegate, and a miss is delegated and its result staged |
| CachingExecutors.CachingExecutor.Update | src/main/java/org/apache/ibatis/executor/CachingExecutor.java:87-92 | flush if required, then delegate; the answer is the delegate's |
| CachingExecutors.CachingExecutor.QueryCursor | src/main/java/org/apache/ibatis/executor/CachingExecutor.java:105-108 | flush if required, then delegate; cursors are never cached |
| CachingExecutors.CachingExecutor.Commit | src/main/java/org/apache/ibatis/executor/CachingExecutor.java:146-151 | the delegate commits first, and the staging is published only if it succeeds |
| CachingExecutors.CachingExecutor.Rollback | src/main/java/org/apache/ibatis/executor/CachingExecutor.java:154-164 | the delegate rolls back, and the staging is discarded exactly when required, even if the delegate throws |
| CachingExecutors.CachingExecutor.Close | src/main/java/org/apache/ibatis/executor/CachingExecutor.java:68-79 | a forced close rolls the staging back, otherwise it is published; the delegate is closed last |
| ResultSetWrappers.ToUpper | src/main/java/org/apache/ibatis/executor/resultset/ResultSetWrapper.java:190 | upper-casing maps character by character and keeps the length |
| ResultSetWrappers.JdbcTypeOf | src/main/java/org/apache/ibatis/executor/resultset/ResultSetWrapper.java:106-113 | the JDBC type of the first column whose name matches ignoring case, or null if none matches |
| ResultSetWrappers.JdbcTypeOfUnique | src/main/java/org/apache/ibatis/executor/resultset/ResultSetWrapper.java:106-113 | the first-match description fixes the answer |
| ResultSetWrappers.FirstMatch | src/main/java/org/apache/ibatis/executor/resultset/ResultSetWrapper.java:107-111 | the index of the first column matching ignoring case |
| ResultSetWrappers.IndexOf | src/main/java/org/apache/ibatis/executor/resultset/ResultSetWrapper.java:148 | `List.indexOf`: the first exact occurrence, or -1 exactly when absent |
| ResultSetWrappers.ResolveTypeHandler | src/main/java/org/apache/ibatis/executor/resultset/ResultSetWrapper.java:130-169 | the property-type handler wins when usable; the unknown handler is never returned; the lookup fails exactly when that handler is unusable and the column name is not present exactly |
| ResultSetWrappers.PartitionIsExact | src/main/java/org/apache/ibatis/executor/resultset/ResultSetWrapper.java:183-200 | every column is either mapped (its upper-cased name is mapped) or unmapped, never both, in column order |
| ResultSetWrappers.PrependPrefixes | src/main/java/org/apache/ibatis/executor/resultset/ResultSetWrapper.java:224-235 | the input itself for a null or empty set or prefix, else exactly the prefixed names |
| ResultSetWrappers.ColonFreeRunBeforeColon | src/main/java/org/apache/ibatis/executor/resultset/ResultSetWrapper.java:220-222 | the result-map id in a memo key ends at its first colon |
| ResultSetWrappers.MapKey | src/main/java/org/apache/ibatis/executor/resultset/ResultSetWrapper.java:220-222 | the memo key is the result-map id, a colon, and the rendered prefix (`null` for none) |
| ResultSetWrappers.NoColonPrefixSplit | src/main/java/org/apache/ibatis/executor/resultset/ResultSetWrapper.java:220-222 | a colon-free id is recovered from `id:rest` |
| ResultSetWrappers.MapKeyDistinguishes | src/main/java/org/apache/ibatis/executor/resultset/ResultSetWrapper.java:220-222 | colon-free result-map ids with different ids or rendered prefixes get different memo keys |
| ResultSetWrappers.NullPrefixSharesKey | src/main/java/org/apache/ibatis/executor/resultset/ResultSetWrapper.java:220-222 | a null prefix and the prefix "null" share one memo key |
| ResultSetWrappers.ResultSetWrapper.constructor | src/main/java/org/apache/ibatis/executor/resultset/ResultSetWrapper.java:76-88 | one column name (label or name), class name and JDBC type per metadata column, in order; empty memo maps |
| ResultSetWrappers.ResultSetWrapper.GetJdbcType | src/main/java/org/apache/ibatis/executor/resultset/ResultSetWrapper.java:106-113 | the loop answers as `JdbcTypeOf`: the first column matching ignoring case, or null |
| ResultSetWrappers.ResultSetWrapper.GetTypeHandler | src/main/java/org/apache/ibatis/executor/resultset/ResultSetWrapper.java:130-169 | answers as `ResolveTypeHandler` whether memoised or not, and memoises the answer under (column, property type) |
| ResultSetWrappers.ResultSetWrapper.ResolveUnmemoised | src/main/java/org/apache/ibatis/executor/resultset/ResultSetWrapper.java:140-165 | the lookup chain of a memo miss equals `ResolveTypeHandler` |
| ResultSetWrappers.ResultSetWrapper.AddColumnEntry | src/main/java/org/apache/ibatis/executor/resultset/ResultSetWrapper.java:134-136 | a column seen for the first time gets an empty memo of handlers; everything else is unchanged |
| ResultSetWrappers.ResultSetWrapper.Memoise | src/main/java/org/apache/ibatis/executor/resultset/ResultSetWrapper.java:166 | stores the resolved handler under (column, property type) and keeps every memoised handler equal to the resolved one |
| ResultSetWrappers.ResultSetWrapper.MappedColumnsUnder | src/main/java/org/apache/ibatis/executor/resultset/ResultSetWrapper.java:185-188 | the result map's upper-cased mapped columns, with the prefix prepended |
| ResultSetWrappers.ResultSetWrapper.LoadMappedAndUnmappedColumnNames | src/main/java/org/apache/ibatis/executor/resultset/ResultSetWrapper.java:183-200 | stores the mapped and unmapped partitions under the memo key; other state is unchanged |
| ResultSetWrappers.ResultSetWrapper.GetMappedColumnNames | src/main/java/org/apache/ibatis/executor/resultset/ResultSetWrapper.java:202-209 | the mapped partition, loaded on first request and served from the memo afterwards |
| ResultSetWrappers.ResultSetWrapper.GetUnmappedColumnNames | src/main/java/org/apache/ibatis/executor/resultset/ResultSetWrapper.java:211-218 | the unmapped partition, loaded on first request and served from the memo afterwards |
| ResultSetWrappers.PrefixedColumnsMeaning | src/main/java/org/apache/ibatis/executor/resultset/ResultSetWrapper.java:224-235 | a name is mapped under a prefix exactly when it is the prefix followed by a mapped column |
| ParamNameResolvers.GenericNameInjective | src/main/java/org/apache/ibatis/reflection/ParamNameResolver.java:132-135 | `param1`, `param2`, ... are distinct for distinct positions |
| ParamNameResolvers.IsSpecialParameter | src/main/java/org/apache/ibatis/reflection/ParamNameResolver.java:101-103 | a parameter is special exactly when it is a RowBounds or a ResultHandler |
| ParamNameResolvers.NamedIndicesExact | src/main/java/org/apache/ibatis/reflection/ParamNameResolver.java:63-94 | exactly the non-special parameters are named, in ascending order |
| ParamNameResolvers.AnyAnnotatedExact | src/main/java/org/apache/ibatis/reflection/ParamNameResolver.java:70-77 | the annotation flag is set exactly when some non-special parameter carries `@Param` |
| ParamNameResolvers.IndicesOfSnoc | src/main/java/org/apache/ibatis/reflection/ParamNameResolver.java:92 | adding one entry to the sorted map adds its index at the end of the index list |
| ParamNameResolvers.NameParameter | src/main/java/org/apache/ibatis/reflection/ParamNameResolver.java:70-91 | the name of one parameter is its `@Param` value, else its actual name when enabled and known, else the number of names so far; the annotation flag is set exactly for `@Param` |
| ParamNameResolvers.NameStep | src/main/java/org/apache/ibatis/reflection/ParamNameResolver.java:64-93 | one iteration skips a special parameter and otherwise adds its chosen name, keeping the names and the annotation flag correct for the parameters seen so far |
| ParamNameResolvers.ParamNameResolver.constructor | src/main/java/org/apache/ibatis/reflection/ParamNameResolver.java:55-95 | RowBounds and ResultHandler parameters are skipped; each other parameter gets its `@Param` value, else its actual name when enabled, else its position among the named ones |
| ParamNameResolvers.ParamNameResolver.GetNames | src/main/java/org/apache/ibatis/reflection/ParamNameResolver.java:108-110 | the names in parameter order |
| ParamNameResolvers.ParamNameResolver.GetNamedParams | src/main/java/org/apache/ibatis/reflection/ParamNameResolver.java:120-141 | null for no arguments or no named parameter; the bare argument for one unannotated name; else a map of every name and every `paramN` alias not already a name, each bound to its argument (the last argument for a repeated name) |
| ParamNameResolvers.BuildParamMap | src/main/java/org/apache/ibatis/reflection/ParamNameResolver.java:127-139 | the map loop's keys and values, as in `GetNamedParams` |
| ParamNameResolvers.KeysMapStep | src/main/java/org/apache/ibatis/reflection/ParamNameResolver.java:130-137 | one iteration adds its name and, if not shadowed, its generic alias to the key set |
| ParamNameResolvers.NamesStep | src/main/java/org/apache/ibatis/reflection/ParamNameResolver.java:131 | one iteration keeps each name bound to the argument of its last occurrence |
| ParamNameResolvers.GenericStep | src/main/java/org/apache/ibatis/reflection/ParamNameResolver.java:133-137 | one iteration keeps each unshadowed `paramN` bound to the n-th named argument |
| ParamNameResolvers.KeysStep | src/main/java/org/apache/ibatis/reflection/ParamNameResolver.java:130-137 | the key sets grow by one name and at most one alias per iteration |
| ParamNameResolvers.DefaultNamesCountNamedOnly | src/main/java/org/apache/ibatis/reflection/ParamNameResolver.java:78-85 | for `(int, RowBounds, int)` without actual names the names are "0" and "1" at positions 0 and 2 |
| MapperMethods.RowCountResult | src/main/java/org/apache/ibatis/binding/MapperMethod.java:127-141 | accepted exactly for void, int, long and boolean (primitive or boxed); void gives null; the value has the boxed return class and stands for the count, or for whether it is positive |
| MapperMethods.RowCountPreservesCount | src/main/java/org/apache/ibatis/binding/MapperMethod.java:131-134 | int and long results carry the row count unchanged |
| MapperMethods.UnsupportedReturnType | src/main/java/org/apache/ibatis/binding/MapperMethod.java:138 | the unsupported-return-type error names the mapper method |
| MapperMethods.NullForPrimitive | src/main/java/org/apache/ibatis/binding/MapperMethod.java:121-122 | the null-for-primitive error names the mapper method |
| MapperMethods.NoResultTypeForHandler | src/main/java/org/apache/ibatis/binding/MapperMethod.java:149-151 | the result-handler error names the method |
| MapperMethods.UnknownMethod | src/main/java/org/apache/ibatis/binding/MapperMethod.java:118 | the unknown-command error, told apart from the others by its first word |
| MapperMethods.Route | src/main/java/org/apache/ibatis/binding/MapperMethod.java:88-112 | a void method with a result handler comes first, then many, then map, then cursor; a single object exactly when none applies |
| MapperMethods.WrapOptional | src/main/java/org/apache/ibatis/binding/MapperMethod.java:106-111 | an Optional method never gets null or a bare value: null or a non-Optional result is wrapped, an Optional passes unwrapped; other methods are untouched |
| MapperMethods.NullCheck | src/main/java/org/apache/ibatis/binding/MapperMethod.java:120-123 | fails exactly for a null result of a primitive non-void return type, else passes the result on |
| MapperMethods.SelectResult | src/main/java/org/apache/ibatis/binding/MapperMethod.java:88-113 | a single-object select answers `selectOne`, wrapped in Optional as declared; the only failure is the result-handler error for that method |
| MapperMethods.Dispatch | src/main/java/org/apache/ibatis/binding/MapperMethod.java:68-119 | inserts, updates and deletes answer through `rowCountResult`, selects through the select routing, flush through `flushStatements`, and any other command is the unknown-command error |
| MapperMethods.Execute | src/main/java/org/apache/ibatis/binding/MapperMethod.java:66-125 | inserts, updates and deletes answer through `rowCountResult`; a primitive non-void method never returns null; an Optional single select is never null; an unknown command is an error |
| MapperMethods.ExecuteErrorsNameMethod | src/main/java/org/apache/ibatis/binding/MapperMethod.java:66-125 | every error of a known command is a binding error about the mapper method (its message starts "Mapper method" or "method"), never the unknown-command error |
| MapperMethods.ResolveMappedStatement | src/main/java/org/apache/ibatis/binding/MapperMethod.java:283-305 | the statement named `interface.method` wins; the declaring interface ends the search; a statement is found exactly when one is reachable through super-interfaces extending the declaring one (`Resolvable`); the answer is always a registered statement |
| MapperMethods.ResolveAmongSupers | src/main/java/org/apache/ibatis/binding/MapperMethod.java:295-304 | the loop answers exactly when some later super-interface is searched and leads to a statement, and then with the answer of the first such one in `getInterfaces()` order |
| MapperMethods.MakeSqlCommand | src/main/java/org/apache/ibatis/binding/MapperMethod.java:248-273 | a constructed command is never UNKNOWN; its name is null exactly for a `@Flush` method without a statement, which becomes FLUSH; otherwise it takes the statement's id and type; the error cases are the missing statement without `@Flush` and an UNKNOWN statement |
| MapperMethods.ConstructedCommandsAreKnown | src/main/java/org/apache/ibatis/binding/MapperMethod.java:265-271 | `execute`'s unknown-command error is unreachable for a command that was constructed |
| MapperMethods.CountTrueSnoc | src/main/java/org/apache/ibatis/binding/MapperMethod.java:415-423 | the number of matching parameters grows by one per match |
| MapperMethods.CountTrueAppend | src/main/java/org/apache/ibatis/binding/MapperMethod.java:415-423 | the match count of a concatenation is the sum of the counts |
| MapperMethods.GetUniqueParamIndex | src/main/java/org/apache/ibatis/binding/MapperMethod.java:411-425 | null for no matching parameter, its index for exactly one, and the "cannot have multiple" error for two or more |
| MapperMethods.MapKeyOf | src/main/java/org/apache/ibatis/binding/MapperMethod.java:427-436 | a map key exists exactly for a Map return type with `@MapKey`, and is its value |
| MapperMethods.NewMethodSignature | src/main/java/org/apache/ibatis/binding/MapperMethod.java:333-355 | the return flags follow the return type; the map key is `getMapKey`'s and `returnsMap` holds exactly when there is one; it fails exactly when RowBounds or ResultHandler occurs twice, with the RowBounds error checked first; the indexes point at the unique matching parameter |
| MapperMethods.ConvertToArray | src/main/java/org/apache/ibatis/binding/MapperMethod.java:205-216 | a primitive array refuses the first null element with `IllegalArgumentException`; otherwise a new array of the list's length holding its elements in order |
| MapperMethods.ParamMap.constructor | src/main/java/org/apache/ibatis/binding/MapperMethod.java:230 | an empty parameter map |
| MapperMethods.ParamMap.Put | src/main/java/org/apache/ibatis/binding/MapperMethod.java:230 | `put` binds one name and leaves the others |
| MapperMethods.ParamMap.Get | src/main/java/org/apache/ibatis/binding/MapperMethod.java:234-240 | the bound value when present, else an error naming the key and the available names, never null |
| XmlStatementBuilders.DatabaseIdMatchesCurrent | src/main/java/org/apache/ibatis/builder/xml/XMLStatementBuilder.java:207-221 | with a required id, exactly elements declaring it; without one, no element declaring an id, and a generic element only if no statement of that id is registered or the registered one is generic too |
| XmlStatementBuilders.KeyGeneratorFor | src/main/java/org/apache/ibatis/builder/xml/XMLStatementBuilder.java:100-109 | a registered selectKey generator first; else Jdbc3 exactly when `useGeneratedKeys` says so, defaulting to the global flag for inserts; else none |
| XmlStatementBuilders.OnlyInsertsDefaultToGeneratedKeys | src/main/java/org/apache/ibatis/builder/xml/XMLStatementBuilder.java:106-108 | without the attribute and without a selectKey, generated keys are used exactly for inserts with the global flag set |
| XmlStatementBuilders.StatementOf | src/main/java/org/apache/ibatis/builder/xml/XMLStatementBuilder.java:73-127 | by default a select uses the cache and does not flush and any other command flushes and does not cache; results unordered; PREPARED; the configuration's result-set type; given attributes win |
| XmlStatementBuilders.DefaultsCacheOrFlush | src/main/java/org/apache/ibatis/builder/xml/XMLStatementBuilder.java:74-77 | with neither attribute, a statement either uses the cache or flushes it, never both or neither |
| XmlStatementBuilders.ExecuteBefore | src/main/java/org/apache/ibatis/builder/xml/XMLStatementBuilder.java:172 | a selectKey runs before the statement exactly when its order is `BEFORE`; the default is `AFTER` |
| XmlStatementBuilders.SelectKeyStatementOf | src/main/java/org/apache/ibatis/builder/xml/XMLStatementBuilder.java:165-192 | a selectKey registers a SELECT that neither caches nor flushes, is unordered, has no key generator or result-set type, and is PREPARED by default |
| XmlStatementBuilders.PassTouchesOnlyItsId | src/main/java/org/apache/ibatis/builder/xml/XMLStatementBuilder.java:151-163 | a selectKey pass registers under `id!selectKey` only and leaves every other entry |
| XmlStatementBuilders.SpecificPassRegistersLast | src/main/java/org/apache/ibatis/builder/xml/XMLStatementBuilder.java:151-163 | the pass for a database id leaves the last selectKey declaring it registered, with its generator under the same id; with two such selectKeys Java's registry rejects the second registration instead, which this model does not capture |
| XmlStatementBuilders.GenericPassSkipsWhenSpecificPresent | src/main/java/org/apache/ibatis/builder/xml/XMLStatementBuilder.java:207-220 | once a database-specific selectKey holds the id, the generic pass changes nothing |
| XmlStatementBuilders.SpecificSelectKeyWins | src/main/java/org/apache/ibatis/builder/xml/XMLStatementBuilder.java:139-149 | with a configured database id, after both passes the id holds the database's selectKey and its generator; generic ones never replace it (with several selectKeys for that database Java fails on the second registration, where the model keeps the last) |
| XmlStatementBuilders.LastForDeclares | src/main/java/org/apache/ibatis/builder/xml/XMLStatementBuilder.java:157-158 | the selectKey picked for a database id declares that id |
| XmlStatementBuilders.Configuration.AddMappedStatement | src/main/java/org/apache/ibatis/builder/xml/XMLStatementBuilder.java:133-136 | registers a statement under its id and leaves the key generators |
| XmlStatementBuilders.Configuration.AddKeyGenerator | src/main/java/org/apache/ibatis/builder/xml/XMLStatementBuilder.java:198 | registers a key generator and leaves the statements |
| XmlStatementBuilders.XmlStatementBuilder.constructor | src/main/java/org/apache/ibatis/builder/xml/XMLStatementBuilder.java:55-60 | the builder holds the configuration, the element and the required database id |
| XmlStatementBuilders.XmlStatementBuilder.ParseSelectKeyNode | src/main/java/org/apache/ibatis/builder/xml/XMLStatementBuilder.java:165-199 | registers the key statement and then its generator under the same id |
| XmlStatementBuilders.XmlStatementBuilder.ParseSelectKeyNodes | src/main/java/org/apache/ibatis/builder/xml/XMLStatementBuilder.java:151-163 | the loop registers the matching selectKeys in document order, as `SelectKeyPass` |
| XmlStatementBuilders.XmlStatementBuilder.ProcessSelectKeyNodes | src/main/java/org/apache/ibatis/builder/xml/XMLStatementBuilder.java:139-149 | the configured database id's pass first, if any, and then the generic pass |
| XmlStatementBuilders.XmlStatementBuilder.ParseStatementNode | src/main/java/org/apache/ibatis/builder/xml/XMLStatementBuilder.java:62-137 | an element for another database changes nothing; otherwise the selectKeys are registered, then the statement with its defaults and the key generator chosen after them |
| XmlStatementBuilders.SelectKeyChildDecidesKeyGenerator | src/main/java/org/apache/ibatis/builder/xml/XMLStatementBuilder.java:94-109 | a statement whose database-specific selectKey was taken uses that selectKey's generator, whatever `useGeneratedKeys` says |

## Left out

- Namespace qualification (`applyCurrentNamespace`) is not modelled: statement ids are taken as
  already qualified.
- The statement registry's duplicate-id rejection is not modelled: registering an id again
  replaces the entry.
- `XMLIncludeTransformer`, the language driver, the SQL source, class-alias resolution and
  removing the `<selectKey>` nodes from the DOM are left out. They are XML plumbing with no
  decision in them.
- XmlStatementBuilders.StatementNode: attributes arrive parsed, so an unparsable boolean or
  an unknown enum name (which make Java throw) cannot be expressed. The command type is given
  directly rather than taken from the element name.
- The parsed attributes `fetchSize`, `timeout`, `parameterMap`, `resultMap`, `resultType`,
  `keyProperty`, `keyColumn`, `resultSets` and `lang` are left out. They are passed through
  unchanged.
- BatchExecutors: Java compares statements by reference when it decides
  whether an update joins the current batch; the model compares them by value, which is their id.
  The two agree because each id names one statement object in a configuration.
- CacheKeys.CacheKey.Update: `count` is unbounded rather than a wrapping `int`. An update list
  of 2^31 entries cannot be held.
- CacheKeys: `toString`, serialisation and `ArrayUtil`'s array handling are left out. An
  element's hash is a given function, and element equality is Dafny equality.
- CacheKeys.CacheKey.Equals: an argument that is not a `CacheKey` is represented by `null`.
- FifoCaches: the decorated cache is a map; its own eviction and locking are not part of this model.
- BatchExecutors.BatchExecutor.DoFlushStatements: key-generator post-processing
  (`processBatch`/`processAfter`), closing statements, transaction timeouts and the
  `BatchUpdateException` cause are left out. A failing `executeBatch` is given as a missing
  answer.
- BatchExecutors.BatchExecutor.DoQuery: preparing and running the query are JDBC work. The
  query's answer is a parameter.
- CachingExecutors: cache-key creation, the five-argument `query`, `flushStatements`,
  `isCached`, `deferLoad`, `clearLocalCache`, `getTransaction`, `isClosed` and
  `setExecutorWrapper` are left out. They pass straight to the delegate.
- CachingExecutors: the transactional cache manager's internals are not part of this model.
  Only the interface the executor calls is specified.
- CachingExecutors.CachingExecutor.Close: a failure of the delegate's close is not modelled.
- ResultSetWrappers.ToUpper: upper-casing and case-insensitive comparison are modelled for
  ASCII letters only.
- ResultSetWrappers: the type-handler registry and class loading are given functions, and a
  class-loading failure is a missing class.
- MapperMethods.Execute: `executeForMany`, `executeForMap`, `executeForCursor`, `selectOne`,
  `flushStatements` and the row counts are the SQL session's answers, given as values.
  Converting a list to the declared collection type (object factory and meta object) is left
  out.
- MapperMethods.Execute: argument conversion (`convertArgsToSqlCommandParam`) and the
  RowBounds/ResultHandler extraction are left out. `executeWithResultHandler`'s result-type
  test is a flag.
- MapperMethods.NewMethodSignature: generic return-type resolution (`TypeParameterResolver`) is
  left out, as is the nested `ParamNameResolver`, which `ParamNameResolvers` models.
  Assignability of parameter types is a per-parameter flag.
- MapperMethods.ConvertToArray: unboxing into a primitive array is not modelled; a primitive
  array holds the same element values as an object array would.
- MapperMethods.ClassName: array and other class names are rendered only approximately in
  error messages.
- MapperMethods.ParamMap.Get: the message text listing the available names is not modelled,
  because Java's hash-set order is unspecified. The error carries the key and the set of names.
- MapperMethods.ResolveMappedStatement: interfaces form a tree of values. Class identity is
  value equality, and `isAssignableFrom` is reachability in that tree.
