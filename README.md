# Druid's JDBC statement proxy, modelled in Dafny

`StatementProxyImpl` wraps a driver `Statement`. Most operations are
dispatched through a freshly built filter chain (statistics, logging,
firewall filters, and finally the driver). The exceptions make no dispatch:
the batch accessors `getBatchSqlList` and `getBatchSql`, the four timing
setters, `closeOnCompletion`, `isCloseOnCompletion`, and `unwrap`, which hands
any type other than `Statement` to the generic wrapper. Around the dispatches
the proxy keeps bookkeeping in its fields, and filters read and drive it:

- the batch SQL list, created lazily, appended to by `addBatch`, emptied by
  `clearBatch`, and rendered as text with `"\n;\n"` between entries;
- the cached update count, filled by `getUpdateCount`, set by `executeUpdate`
  and by a one-element `executeBatch`, and dropped by `execute`,
  `executeQuery` and both `getMoreResults` forms;
- the last SQL and the kind of the last execution, written before the
  dispatch (`executeBatch` writes only the kind and leaves the SQL alone);
- whether the last execution produced a result set: `executeQuery`,
  `executeUpdate` and `executeBatch` write it before the dispatch, `execute`
  writes it after a successful dispatch, from the chain's answer;
- two timing markers: an idempotent start, and a finish that takes effect once
  and only after a start.

Files:

- `jdbc.dfy` (module `Jdbc`): Java `int`/`long` as `int32`/`int64`, `long`
  wrap-around (`Wrap64`), `Option` for nullable values, `Outcome` for calls that
  may throw `SQLException`, the execute kinds, the overload arguments.
- `filter_chain.dfy` (module `Filters`): the chain as an oracle. Each dispatch
  appends the call, with the arguments forwarded, to `log`. It answers with any
  value or any error.
- `batch_text.dfy` (module `BatchText`): the rendering loop of `getBatchSql`.
  It is proved equal to a reference join applied to the list without its
  leading empty entries.
- `proxy_state.dfy` (module `ProxyState`): the fields as one value
  (`Snapshot`), the timing transitions, and lemmas about them.
- `statement_proxy.dfy` (module `Proxy`): the class `StatementProxy`. Each
  method states the call it dispatches and the whole new state, as an update of
  the old state that depends on the chain's answer.
- `scenarios.dfy` (module `ProxyScenarios`): callers that chain operations. Their
  contracts follow from the proxy's contracts alone.

Behaviour of the code that a reader might not expect (the model follows the code):

- `executeUpdate` does not clear the cached update count before dispatching.
  When the dispatch fails, the previous count stays cached.
- `executeBatch` never clears the cached update count. When the batch fails,
  or its result is `null` or does not have exactly one element, an earlier
  count stays cached, and `getUpdateCount` returns it without a dispatch
  (`CountSurvivesBatch`).
- `getUpdateCount` caches only a successful answer. Two calls in a row dispatch
  at most once when the first succeeds, but twice when the first fails.
- `getBatchSql` writes a separator only when the text built so far is non-empty.
  Leading empty entries vanish, and a later empty entry still gets a separator.
  So `["a", ""]` renders as `"a\n;\n"`, with a trailing separator. For lists of
  non-empty entries the text is the plain join.
- A clock reading `<= 0` passed to `setLastExecuteStartNano()` is recorded,
  but the start still reads "not started". The next start overwrites it, and a
  finish before that does nothing (`NonPositiveStartIsOverwritten`).
- A finish in the same nanosecond as the start records 0, which still reads
  "not finished", so a later finish overwrites it
  (`SameInstantFinishIsOverwritten`). This is why `StartNowIdempotent` and
  `FinishNowOnce` need a positive reading and a clock that has moved on.
- `nanoTime - start` is `long` arithmetic, so it can wrap. The elapsed time is
  exact whenever the clock has not gone backwards (`FinishMeasures`).

## Model

| member | source | states |
|---|---|---|
| `Jdbc.Wrap64` | src/main/java/com/alibaba/druid/proxy/jdbc/StatementProxyImpl.java:428 | Java `long` subtraction: the result is congruent to the true difference modulo 2^64, and equal to it when it fits in 64 bits |
| `Filters.FilterChain.constructor` | src/main/java/com/alibaba/druid/proxy/jdbc/StatementProxyImpl.java:68-70 | a statement's chains start with no dispatch recorded |
| `Filters.FilterChain.InvokeUnit` | src/main/java/com/alibaba/druid/proxy/jdbc/StatementProxyImpl.java:68-70 | a `void` dispatch (`statement_addBatch`, `statement_clearBatch`) is recorded once with its arguments; it succeeds or throws; it accepts only `void` dispatches |
| `Filters.FilterChain.InvokeBool` | src/main/java/com/alibaba/druid/proxy/jdbc/StatementProxyImpl.java:68-70 | a `boolean` dispatch (`statement_execute`, `statement_getMoreResults`) is recorded once with its arguments; it accepts only `boolean` dispatches |
| `Filters.FilterChain.InvokeInt` | src/main/java/com/alibaba/druid/proxy/jdbc/StatementProxyImpl.java:68-70 | an `int` dispatch (`statement_executeUpdate`, `statement_getUpdateCount`) is recorded once with its arguments; it accepts only `int` dispatches |
| `Filters.FilterChain.InvokeCounts` | src/main/java/com/alibaba/druid/proxy/jdbc/StatementProxyImpl.java:68-70 | the `int[]` dispatch `statement_executeBatch` is recorded once; its answer may be `null`; it accepts only that dispatch |
| `Filters.FilterChain.InvokeResultSet` | src/main/java/com/alibaba/druid/proxy/jdbc/StatementProxyImpl.java:68-70 | the `ResultSet` dispatch `statement_executeQuery` is recorded once with its SQL; its answer may be `null`; it accepts only that dispatch |
| `BatchText.DropLeadingEmptyShape` | src/main/java/com/alibaba/druid/proxy/jdbc/StatementProxyImpl.java:375-379 | the entries that produce no separator are exactly the leading empty ones: what is kept is a suffix starting with a non-empty entry, and everything dropped is empty |
| `BatchText.JoinSnoc` | src/main/java/com/alibaba/druid/proxy/jdbc/StatementProxyImpl.java:376-379 | appending an entry to a non-empty join adds exactly one separator and the entry; appending to an empty join adds the entry alone |
| `BatchText.JoinEnds` | src/main/java/com/alibaba/druid/proxy/jdbc/StatementProxyImpl.java:374-381 | the reference join starts with the first entry and ends with the last: no leading or trailing separator |
| `BatchText.JoinDroppedEmptyIff` | src/main/java/com/alibaba/druid/proxy/jdbc/StatementProxyImpl.java:372-382 | the batch text is empty if and only if every entry is empty (in particular for an empty list) |
| `BatchText.DropLeadingEmptySnoc` | src/main/java/com/alibaba/druid/proxy/jdbc/StatementProxyImpl.java:375-379 | adding an entry after the first non-empty one keeps it, even when it is empty; before that only a non-empty entry is kept |
| `BatchText.RenderStep` | src/main/java/com/alibaba/druid/proxy/jdbc/StatementProxyImpl.java:376-379 | one loop turn (separator only if the buffer is non-empty, then the entry) turns the rendering of the entries seen into the rendering of one more |
| `BatchText.Render` | src/main/java/com/alibaba/druid/proxy/jdbc/StatementProxyImpl.java:372-382 | the loop's text is the `"\n;\n"` join of the list after its leading empty entries; for lists of non-empty entries it is the plain join |
| `ProxyState.TimingTouchesOnlyMarkers` | src/main/java/com/alibaba/druid/proxy/jdbc/StatementProxyImpl.java:426-445 | the timing setters change only the two timing markers |
| `ProxyState.StartNowIdempotent` | src/main/java/com/alibaba/druid/proxy/jdbc/StatementProxyImpl.java:441-445 | once a positive start is recorded, a further `setLastExecuteStartNano()` changes nothing; from "not started" a positive reading is recorded and the phase becomes "started" |
| `ProxyState.FinishBeforeStartIsNoOp` | src/main/java/com/alibaba/druid/proxy/jdbc/StatementProxyImpl.java:426-430 | `setLastExecuteTimeNano()` before a start changes nothing |
| `ProxyState.FinishMeasures` | src/main/java/com/alibaba/druid/proxy/jdbc/StatementProxyImpl.java:426-430 | from "started", a clock reading not before the start gives exactly `now - start`, and the phase is "completed" when time has passed |
| `ProxyState.FinishNowOnce` | src/main/java/com/alibaba/druid/proxy/jdbc/StatementProxyImpl.java:426-430 | a finish after the start takes effect once; a second finish changes nothing |
| `ProxyState.RestartRearms` | src/main/java/com/alibaba/druid/proxy/jdbc/StatementProxyImpl.java:436-439 | `setLastExecuteStartNano(t)` clears the time, so the next finish measures from `t` even after a completed measurement |
| `ProxyState.ExecutionBracket` | src/main/java/com/alibaba/druid/proxy/jdbc/StatementProxyImpl.java:426-445 | after the markers are reset, start at `a` and finish at `b` record `b - a`, and later starts and finishes leave it |
| `ProxyState.NonPositiveStartIsOverwritten` | src/main/java/com/alibaba/druid/proxy/jdbc/StatementProxyImpl.java:441-445 | a start reading `<= 0` is recorded but leaves the phase "not started": the next start overwrites it and a finish is a no-op |
| `ProxyState.SameInstantFinishIsOverwritten` | src/main/java/com/alibaba/druid/proxy/jdbc/StatementProxyImpl.java:426-430 | a finish at the start's own instant records 0, and a later finish replaces it with the real elapsed time |
| `Proxy.StatementProxy.MaterializeBatch` | src/main/java/com/alibaba/druid/proxy/jdbc/StatementProxyImpl.java:74-76 | the lazy creation shared by `addBatch`, `clearBatch` (89-91) and `getBatchSqlList` (364-366): a missing list becomes empty, an existing one is kept, nothing else changes |
| `Proxy.StatementProxy.constructor` | src/main/java/com/alibaba/druid/proxy/jdbc/StatementProxyImpl.java:54-58 | a new proxy has no SQL, kind, cached count or batch list, and zero markers |
| `Proxy.StatementProxy.AddBatch` | src/main/java/com/alibaba/druid/proxy/jdbc/StatementProxyImpl.java:73-80 | dispatches `statement_addBatch(sql)`, materializes the list, and appends `sql` after the earlier entries only if the dispatch succeeds; nothing else changes |
| `Proxy.StatementProxy.ClearBatch` | src/main/java/com/alibaba/druid/proxy/jdbc/StatementProxyImpl.java:88-95 | dispatches `statement_clearBatch`, materializes the list, and empties it only if the dispatch succeeds |
| `Proxy.StatementProxy.GetBatchSqlList` | src/main/java/com/alibaba/druid/proxy/jdbc/StatementProxyImpl.java:363-369 | returns the batch with no dispatch, and never `null`: afterwards the list exists, unchanged or empty |
| `Proxy.StatementProxy.GetBatchSql` | src/main/java/com/alibaba/druid/proxy/jdbc/StatementProxyImpl.java:372-382 | returns the `"\n;\n"` join of the batch without its leading empty entries, with no dispatch; only the list's materialization changes |
| `Proxy.StatementProxy.Execute` | src/main/java/com/alibaba/druid/proxy/jdbc/StatementProxyImpl.java:108-153 | all four `execute` forms: dispatch with the forwarded arguments; count dropped, SQL, kind `Execute` and markers -1 written even if the dispatch fails; `firstResultSet` takes the answer only on success |
| `Proxy.StatementProxy.ExecuteQuery` | src/main/java/com/alibaba/druid/proxy/jdbc/StatementProxyImpl.java:172-181 | sets `firstResultSet`, drops the count, records SQL, kind `ExecuteQuery` and markers -1, whatever the dispatch does |
| `Proxy.StatementProxy.ExecuteUpdate` | src/main/java/com/alibaba/druid/proxy/jdbc/StatementProxyImpl.java:184-229 | all four forms: `firstResultSet` false, SQL, kind `ExecuteUpdate`, markers -1; the count becomes the answer on success and is otherwise the old one |
| `Proxy.StatementProxy.ExecuteBatch` | src/main/java/com/alibaba/druid/proxy/jdbc/StatementProxyImpl.java:156-169 | kind `ExecuteBatch`, `firstResultSet` false, markers -1; SQL and batch untouched; a one-element answer becomes the count, anything else leaves it |
| `Proxy.StatementProxy.GetMoreResults` | src/main/java/com/alibaba/druid/proxy/jdbc/StatementProxyImpl.java:262-271 | both forms drop the cached count before dispatching, also when the dispatch fails; nothing else changes |
| `Proxy.StatementProxy.GetUpdateCount` | src/main/java/com/alibaba/druid/proxy/jdbc/StatementProxyImpl.java:300-305 | a cached count is returned with no dispatch; otherwise one dispatch, and a successful answer is cached |
| `Proxy.StatementProxy.SetLastExecuteStartNano` | src/main/java/com/alibaba/druid/proxy/jdbc/StatementProxyImpl.java:436-439 | the state becomes `Restart`: start set, time -1 |
| `Proxy.StatementProxy.SetLastExecuteStartNanoNow` | src/main/java/com/alibaba/druid/proxy/jdbc/StatementProxyImpl.java:441-445 | the state becomes `StartNow`, whose idempotence `StartNowIdempotent` proves |
| `Proxy.StatementProxy.SetLastExecuteTimeNano` | src/main/java/com/alibaba/druid/proxy/jdbc/StatementProxyImpl.java:422-424 | only the time marker changes, to the given value |
| `Proxy.StatementProxy.SetLastExecuteTimeNanoNow` | src/main/java/com/alibaba/druid/proxy/jdbc/StatementProxyImpl.java:426-430 | the state becomes `FinishNow`, which runs once and only after a start (`FinishNowOnce`, `FinishBeforeStartIsNoOp`) |
| `Proxy.StatementProxy.CloseOnCompletion` | src/main/java/com/alibaba/druid/proxy/jdbc/StatementProxyImpl.java:388-390 | always fails with feature-not-supported; changes no state and dispatches nothing |
| `Proxy.StatementProxy.IsCloseOnCompletion` | src/main/java/com/alibaba/druid/proxy/jdbc/StatementProxyImpl.java:392-394 | always fails with feature-not-supported; changes no state and dispatches nothing |
| `Proxy.StatementProxy.Unwrap` | src/main/java/com/alibaba/druid/proxy/jdbc/StatementProxyImpl.java:397-403 | yields the raw statement if and only if the requested type is `Statement`; otherwise the request goes unchanged to the wrapper's `unwrap` |
| `ProxyScenarios.GetUpdateCountTwice` | src/main/java/com/alibaba/druid/proxy/jdbc/StatementProxyImpl.java:300-305 | two calls in a row: at most one dispatch and equal answers when the first succeeds; two dispatches when the first fails on an empty cache |
| `ProxyScenarios.UpdateThenCount` | src/main/java/com/alibaba/druid/proxy/jdbc/StatementProxyImpl.java:191-192 | the count a successful `executeUpdate` returns is what `getUpdateCount` returns next, with no further dispatch |
| `ProxyScenarios.SingleCountBatch` | src/main/java/com/alibaba/druid/proxy/jdbc/StatementProxyImpl.java:164-166 | `executeBatch` answering `[x]` makes the next `getUpdateCount` return `x` with no dispatch |
| `ProxyScenarios.CountSurvivesBatch` | src/main/java/com/alibaba/druid/proxy/jdbc/StatementProxyImpl.java:156-169 | after a batch that fails, answers `null` or answers any length other than 1, `getUpdateCount` returns the count cached before the batch, with no dispatch |
| `ProxyScenarios.MoreResultsThenCount` | src/main/java/com/alibaba/druid/proxy/jdbc/StatementProxyImpl.java:262-271 | after either `getMoreResults` form, successful or not, `getUpdateCount` dispatches again |
| `ProxyScenarios.FailedExecute` | src/main/java/com/alibaba/druid/proxy/jdbc/StatementProxyImpl.java:108-116 | a failed `execute` leaves the attempted SQL, the kind `Execute` and no cached count; `firstResultSet` keeps its old value |
| `ProxyScenarios.TimedExecute` | src/main/java/com/alibaba/druid/proxy/jdbc/StatementProxyImpl.java:171-181 | `executeQuery`, then start at `a` and finish at `b`, records start `a` and time `b - a`; repeated starts and finishes do not disturb it |
| `ProxyScenarios.AddTwoAndRender` | src/main/java/com/alibaba/druid/proxy/jdbc/StatementProxyImpl.java:73-80 | on a new proxy, both `addBatch` calls are dispatched in order; when both succeed the list is `[s1, s2]` and, for a non-empty `s1`, the text is `s1 + "\n;\n" + s2` (also for an empty `s2`) |
| `ProxyScenarios.ClearAndRender` | src/main/java/com/alibaba/druid/proxy/jdbc/StatementProxyImpl.java:88-95 | after a successful `clearBatch` the list is empty and its text is `""` |

## Left out

- The filters, `FilterChainImpl` and the driver are not part of this model. They are replaced by the `FilterChain` oracle. The proxy builds a fresh chain for each call; the oracle's `log` records the dispatches of all of them.
- Filters calling back into the proxy during a dispatch are not modelled. For example, a statistics filter may call `setLastExecuteStartNano()` mid-call. After a dispatch the model shows only the proxy's own writes. The timing transitions are modelled as separate operations (`ExecutionBracket`, `TimedExecute`).
- Pass-through operations that touch no proxy state are not modelled. These are `cancel`, `close`, `clearWarnings`, `getConnection`, `getFetchDirection`, `getFetchSize`, `getGeneratedKeys`, `getMaxFieldSize`, `getMaxRows`, `getQueryTimeout`, `getResultSet`, `getResultSetConcurrency`, `getResultSetHoldability`, `getResultSetType`, `getWarnings`, `isClosed`, `isPoolable` and the `set*` configuration calls. Each only dispatches to the chain.
- The plain getters (`getLastExecuteSql`, `getLastExecuteType`, `isFirstResultSet`, `getLastExecuteStartNano`, `getLastExecuteTimeNano`, `getRawObject`) are the class's public fields.
- `getConnectionProxy` and `createChain`'s data-source lookup are not modelled: `ConnectionProxy` is not part of this model.
- `getSqlStat`/`setSqlStat` are not modelled, because `JdbcSqlStat` is an opaque record the proxy only stores and returns.
- `getParameters` is not modelled; it always returns an empty map.
- Proxy.StatementProxy.Unwrap: for any type other than `Statement` it returns `ByWrapper(iface)` and does not model what `WrapperProxyImpl.unwrap` then does. That class is not part of this model.
- Proxy.StatementProxy.GetBatchSqlList: returns the list's contents as a value. Java returns the live `ArrayList`, and a caller that mutates it changes the proxy's batch. That aliasing is not modelled.
- `null` SQL strings and a `null` batch entry are not modelled; SQL arguments are always strings. In Java, `addBatch(null)` would render as `"null"` in `getBatchSql`.
- `System.nanoTime` is not modelled. The clock reading is the `nanoTime` parameter of the two clock-reading setters.
- Thread safety is not modelled. The class does no locking.
- The overloads are folded into single methods. The four `execute` forms and the four `executeUpdate` forms differ only in the extra argument forwarded to the chain (`KeyRequest`). The two `getMoreResults` forms are one method with an optional `current` argument.
