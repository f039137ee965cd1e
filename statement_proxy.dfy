/**
 * The JDBC statement proxy: every operation dispatches through the filter
 * chain, and the execution bookkeeping around the dispatch is kept in the
 * proxy's own fields. Writes made before a dispatch stay in place when the
 * dispatch fails; writes made from its result happen only when it succeeds.
 */
module Proxy {
  import opened Jdbc
  import opened Filters
  import opened ProxyState
  import BatchText

  /** The result of `unwrap`: the raw statement, or the request handed to the generic wrapper's `unwrap`. */
  datatype Unwrapped = RawStatement(statement: StatementRef) | ByWrapper(iface: Capability)

  class StatementProxy {
    const chain: FilterChain
    const statement: StatementRef

    var lastExecuteSql: Option<string>
    var lastExecuteStartNano: int64
    var lastExecuteTimeNano: int64
    var firstResultSet: bool
    var batchSqlList: Option<seq<string>>
    var lastExecuteType: Option<ExecuteType>
    var updateCount: Option<int32>

    /** The bookkeeping fields as one value. */
    ghost function State(): Snapshot
      reads this
    {
      Snapshot(lastExecuteSql, lastExecuteType, firstResultSet, updateCount,
               lastExecuteStartNano, lastExecuteTimeNano, batchSqlList)
    }

    constructor (chain: FilterChain, statement: StatementRef)
      ensures this.chain == chain && this.statement == statement
      ensures State() == Initial
    {
      this.chain := chain;
      this.statement := statement;
      lastExecuteSql := None;
      lastExecuteStartNano := 0;
      lastExecuteTimeNano := 0;
      firstResultSet := false;
      batchSqlList := None;
      lastExecuteType := None;
      updateCount := None;
    }

    /** Create the batch list if it does not exist yet. */
    method MaterializeBatch()
      modifies this
      ensures State() == old(State()).(batchSqlList := Some(BatchList(old(State()))))
    {
      if batchSqlList.None? {
        batchSqlList := Some([]);
      }
    }

    /** `addBatch(sql)`: the chain sees the batch before `sql` is appended; a failed dispatch appends nothing. */
    method AddBatch(sql: string) returns (r: Outcome<()>)
      modifies this, chain
      ensures chain.log == old(chain.log) + [StatementAddBatch(sql)]
      ensures State() == old(State()).(batchSqlList :=
        Some(if r.Ok? then BatchList(old(State())) + [sql] else BatchList(old(State()))))
    {
      MaterializeBatch();
      r := chain.InvokeUnit(StatementAddBatch(sql));
      if r.Ok? {
        batchSqlList := Some(batchSqlList.value + [sql]);
      }
    }

    /** `clearBatch()`: the list is emptied after a successful dispatch. */
    method ClearBatch() returns (r: Outcome<()>)
      modifies this, chain
      ensures chain.log == old(chain.log) + [StatementClearBatch]
      ensures State() == old(State()).(batchSqlList :=
        Some(if r.Ok? then [] else BatchList(old(State()))))
    {
      MaterializeBatch();
      r := chain.InvokeUnit(StatementClearBatch);
      if r.Ok? {
        batchSqlList := Some([]);
      }
    }

    /** `getBatchSqlList()`: never null; the first call creates the empty list. No dispatch. */
    method GetBatchSqlList() returns (items: seq<string>)
      modifies this
      ensures items == BatchList(old(State()))
      ensures State() == old(State()).(batchSqlList := Some(items))
    {
      MaterializeBatch();
      items := batchSqlList.value;
    }

    /** `getBatchSql()`: the batch rendered with "\n;\n" between entries. No dispatch. */
    method GetBatchSql() returns (text: string)
      modifies this
      ensures text == BatchText.Join(BatchText.DropLeadingEmpty(BatchList(old(State()))))
      ensures State() == old(State()).(batchSqlList := Some(BatchList(old(State()))))
    {
      var items := GetBatchSqlList();
      text := BatchText.Render(items);
    }

    /**
     * The four `execute` overloads, told apart by `keys`: the cached update count
     * is dropped, the SQL, the kind and reset timing markers are recorded, and
     * then the chain's answer becomes `firstResultSet`.
     */
    method Execute(sql: string, keys: KeyRequest) returns (r: Outcome<bool>)
      modifies this, chain
      ensures chain.log == old(chain.log) + [StatementExecute(sql, keys)]
      ensures State() == old(State()).(
        updateCount := None, lastExecuteSql := Some(sql), lastExecuteType := Some(ExecuteType.Execute),
        lastExecuteStartNano := -1, lastExecuteTimeNano := -1,
        firstResultSet := if r.Ok? then r.value else old(firstResultSet))
    {
      updateCount := None;
      lastExecuteSql := Some(sql);
      lastExecuteType := Some(ExecuteType.Execute);
      lastExecuteStartNano := -1;
      lastExecuteTimeNano := -1;
      r := chain.InvokeBool(StatementExecute(sql, keys));
      if r.Ok? {
        firstResultSet := r.value;
      }
    }

    /** `executeQuery(sql)`: as `execute`, but the outcome is known to be a result set before the dispatch. */
    method ExecuteQuery(sql: string) returns (r: Outcome<Option<ResultSetRef>>)
      modifies this, chain
      ensures chain.log == old(chain.log) + [StatementExecuteQuery(sql)]
      ensures State() == old(State()).(
        firstResultSet := true, updateCount := None, lastExecuteSql := Some(sql),
        lastExecuteType := Some(ExecuteType.ExecuteQuery),
        lastExecuteStartNano := -1, lastExecuteTimeNano := -1)
    {
      firstResultSet := true;
      updateCount := None;
      lastExecuteSql := Some(sql);
      lastExecuteType := Some(ExecuteType.ExecuteQuery);
      lastExecuteStartNano := -1;
      lastExecuteTimeNano := -1;
      r := chain.InvokeResultSet(StatementExecuteQuery(sql));
    }

    /**
     * The four `executeUpdate` overloads: the cached update count is not dropped
     * beforehand; a successful dispatch replaces it with the count returned.
     */
    method ExecuteUpdate(sql: string, keys: KeyRequest) returns (r: Outcome<int32>)
      modifies this, chain
      ensures chain.log == old(chain.log) + [StatementExecuteUpdate(sql, keys)]
      ensures State() == old(State()).(
        firstResultSet := false, lastExecuteSql := Some(sql),
        lastExecuteType := Some(ExecuteType.ExecuteUpdate),
        lastExecuteStartNano := -1, lastExecuteTimeNano := -1,
        updateCount := if r.Ok? then Some(r.value) else old(updateCount))
    {
      firstResultSet := false;
      lastExecuteSql := Some(sql);
      lastExecuteType := Some(ExecuteType.ExecuteUpdate);
      lastExecuteStartNano := -1;
      lastExecuteTimeNano := -1;
      r := chain.InvokeInt(StatementExecuteUpdate(sql, keys));
      if r.Ok? {
        updateCount := Some(r.value);
      }
    }

    /**
     * `executeBatch()`: neither the SQL nor the batch list is touched; a
     * one-element result becomes the cached update count, any other result
     * leaves the cache as it was.
     */
    method ExecuteBatch() returns (r: Outcome<Option<seq<int32>>>)
      modifies this, chain
      ensures chain.log == old(chain.log) + [StatementExecuteBatch]
      ensures State() == old(State()).(
        firstResultSet := false, lastExecuteType := Some(ExecuteType.ExecuteBatch),
        lastExecuteStartNano := -1, lastExecuteTimeNano := -1,
        updateCount := if r.Ok? && r.value.Some? && |r.value.value| == 1 then Some(r.value.value[0])
                       else old(updateCount))
    {
      firstResultSet := false;
      lastExecuteType := Some(ExecuteType.ExecuteBatch);
      lastExecuteStartNano := -1;
      lastExecuteTimeNano := -1;
      r := chain.InvokeCounts(StatementExecuteBatch);
      if r.Ok? && r.value.Some? && |r.value.value| == 1 {
        updateCount := Some(r.value.value[0]);
      }
    }

    /** Both `getMoreResults` overloads (`current` is the argument of the second): the cache is dropped before the dispatch. */
    method GetMoreResults(current: Option<int32>) returns (r: Outcome<bool>)
      modifies this, chain
      ensures chain.log == old(chain.log) + [StatementGetMoreResults(current)]
      ensures State() == old(State()).(updateCount := None)
    {
      updateCount := None;
      r := chain.InvokeBool(StatementGetMoreResults(current));
    }

    /** `getUpdateCount()`: a cached count is returned without a dispatch; otherwise the chain's count is cached. */
    method GetUpdateCount() returns (r: Outcome<int32>)
      modifies this, chain
      ensures old(updateCount).Some? ==> r == Ok(old(updateCount).value) && chain.log == old(chain.log)
      ensures old(updateCount).None? ==> chain.log == old(chain.log) + [StatementGetUpdateCount]
      ensures State() == old(State()).(updateCount := if r.Ok? then Some(r.value) else old(updateCount))
    {
      if updateCount.None? {
        r := chain.InvokeInt(StatementGetUpdateCount);
        if r.Ok? {
          updateCount := Some(r.value);
        }
      } else {
        r := Ok(updateCount.value);
      }
    }

    /** `setLastExecuteStartNano(long)`. */
    method SetLastExecuteStartNano(start: int64)
      modifies this
      ensures State() == Restart(old(State()), start)
    {
      lastExecuteStartNano := start;
      lastExecuteTimeNano := -1;
    }

    /** `setLastExecuteStartNano()`, with the clock reading `nanoTime` passed in. */
    method SetLastExecuteStartNanoNow(nanoTime: int64)
      modifies this
      ensures State() == StartNow(old(State()), nanoTime)
    {
      if lastExecuteStartNano <= 0 {
        SetLastExecuteStartNano(nanoTime);
      }
    }

    /** `setLastExecuteTimeNano(long)`. */
    method SetLastExecuteTimeNano(time: int64)
      modifies this
      ensures State() == SetTime(old(State()), time)
    {
      lastExecuteTimeNano := time;
    }

    /** `setLastExecuteTimeNano()`, with the clock reading `nanoTime` passed in. */
    method SetLastExecuteTimeNanoNow(nanoTime: int64)
      modifies this
      ensures State() == FinishNow(old(State()), nanoTime)
    {
      if lastExecuteTimeNano <= 0 && lastExecuteStartNano > 0 {
        lastExecuteTimeNano := Wrap64(nanoTime as int - lastExecuteStartNano as int);
      }
    }

    /** `closeOnCompletion()`: never supported, whatever the state; nothing changes and nothing is dispatched. */
    method CloseOnCompletion() returns (r: Outcome<()>)
      ensures r == Err(FeatureNotSupported)
    {
      r := Err(FeatureNotSupported);
    }

    /** `isCloseOnCompletion()`: never supported, whatever the state; nothing changes and nothing is dispatched. */
    method IsCloseOnCompletion() returns (r: Outcome<bool>)
      ensures r == Err(FeatureNotSupported)
    {
      r := Err(FeatureNotSupported);
    }

    /** `unwrap(iface)`: exactly the base statement capability yields the raw statement. */
    method Unwrap(iface: Capability) returns (r: Unwrapped)
      ensures r.RawStatement? <==> iface == StatementCapability
      ensures r.RawStatement? ==> r.statement == statement
      ensures r.ByWrapper? ==> r.iface == iface
    {
      if iface == StatementCapability {
        r := RawStatement(statement);
      } else {
        r := ByWrapper(iface);
      }
    }
  }
}
