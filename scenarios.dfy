/**
 * Callers of the statement proxy: sequences of operations and what the
 * proxy's contracts alone guarantee about them.
 */
module ProxyScenarios {
  import opened Jdbc
  import opened Filters
  import opened ProxyState
  import opened Proxy
  import BatchText

  /**
   * Two `getUpdateCount()` calls in a row dispatch at most once when the first
   * succeeds, and then agree; a failed first call caches nothing, so the second
   * dispatches again.
   */
  method GetUpdateCountTwice(p: StatementProxy) returns (first: Outcome<int32>, second: Outcome<int32>)
    modifies p, p.chain
    ensures first.Ok? ==> second == first && |p.chain.log| <= |old(p.chain.log)| + 1
    ensures old(p.updateCount).None? && first.Err? ==>
      p.chain.log == old(p.chain.log) + [StatementGetUpdateCount, StatementGetUpdateCount]
    ensures old(p.updateCount).Some? ==> first == second == Ok(old(p.updateCount).value) && p.chain.log == old(p.chain.log)
  {
    first := p.GetUpdateCount();
    second := p.GetUpdateCount();
  }

  /** The count `executeUpdate` returns is the one `getUpdateCount()` then returns, without a dispatch. */
  method UpdateThenCount(p: StatementProxy, sql: string, keys: KeyRequest) returns (n: Outcome<int32>, m: Outcome<int32>)
    modifies p, p.chain
    ensures n.Ok? ==> m == n && p.chain.log == old(p.chain.log) + [StatementExecuteUpdate(sql, keys)]
  {
    n := p.ExecuteUpdate(sql, keys);
    m := p.GetUpdateCount();
  }

  /** A batch that reports exactly one count: `getUpdateCount()` answers it without a dispatch. */
  method SingleCountBatch(p: StatementProxy) returns (counts: Outcome<Option<seq<int32>>>, m: Outcome<int32>)
    modifies p, p.chain
    ensures counts.Ok? && counts.value.Some? && |counts.value.value| == 1 ==>
      m == Ok(counts.value.value[0]) && p.chain.log == old(p.chain.log) + [StatementExecuteBatch]
  {
    counts := p.ExecuteBatch();
    m := p.GetUpdateCount();
  }

  /**
   * A batch that fails, answers `null`, or reports any other number of counts
   * leaves an earlier cached count in place, and `getUpdateCount()` answers with
   * that earlier count.
   */
  method CountSurvivesBatch(p: StatementProxy) returns (counts: Outcome<Option<seq<int32>>>, m: Outcome<int32>)
    modifies p, p.chain
    requires p.updateCount.Some?
    ensures !(counts.Ok? && counts.value.Some? && |counts.value.value| == 1) ==>
      m == Ok(old(p.updateCount).value) && p.chain.log == old(p.chain.log) + [StatementExecuteBatch]
  {
    counts := p.ExecuteBatch();
    m := p.GetUpdateCount();
  }

  /** After either `getMoreResults` form, even a failed one, `getUpdateCount()` asks the chain again. */
  method MoreResultsThenCount(p: StatementProxy, current: Option<int32>) returns (more: Outcome<bool>, m: Outcome<int32>)
    modifies p, p.chain
    ensures p.chain.log == old(p.chain.log) + [StatementGetMoreResults(current), StatementGetUpdateCount]
  {
    more := p.GetMoreResults(current);
    m := p.GetUpdateCount();
  }

  /** A failed `execute` still leaves the attempted SQL and its kind for inspection, and no cached count. */
  method FailedExecute(p: StatementProxy, sql: string, keys: KeyRequest) returns (r: Outcome<bool>)
    modifies p, p.chain
    ensures r.Err? ==> (p.lastExecuteSql == Some(sql) && p.lastExecuteType == Some(ExecuteType.Execute)
                        && p.updateCount == None && p.firstResultSet == old(p.firstResultSet))
  {
    r := p.Execute(sql, keys);
  }

  /**
   * A statistics filter brackets the driver call: after any execution the
   * markers are reset, a start at `a` and a finish at `b` record `b - a`, and
   * a repeated start or finish changes nothing.
   */
  method TimedExecute(p: StatementProxy, sql: string, a: int64, b: int64, c: int64, d: int64) returns (r: Outcome<Option<ResultSetRef>>)
    modifies p, p.chain
    requires 0 < a < b
    ensures p.lastExecuteStartNano == a && p.lastExecuteTimeNano as int == b as int - a as int
    ensures p.lastExecuteSql == Some(sql)
  {
    r := p.ExecuteQuery(sql);
    ghost var s := p.State();
    p.SetLastExecuteStartNanoNow(a);
    p.SetLastExecuteTimeNanoNow(b);
    ExecutionBracket(s, a, b, c, d);
    p.SetLastExecuteStartNanoNow(c);
    p.SetLastExecuteTimeNanoNow(d);
  }

  /**
   * Two statements added to a fresh batch come back in order, and render joined
   * by "\n;\n" (the first one must be non-empty for its separator to appear).
   */
  method AddTwoAndRender(p: StatementProxy, s1: string, s2: string)
    returns (r1: Outcome<()>, r2: Outcome<()>, items: seq<string>, text: string)
    modifies p, p.chain
    requires p.State() == Initial && s1 != ""
    ensures p.chain.log == old(p.chain.log) + [StatementAddBatch(s1), StatementAddBatch(s2)]
    ensures r1.Ok? && r2.Ok? ==> items == [s1, s2] && text == s1 + BatchText.Separator + s2
  {
    r1 := p.AddBatch(s1);
    r2 := p.AddBatch(s2);
    items := p.GetBatchSqlList();
    text := p.GetBatchSql();
    if r1.Ok? && r2.Ok? {
      assert BatchText.DropLeadingEmpty(items) == items;
    }
  }

  /** After a successful `clearBatch()` the list is empty and renders as the empty string. */
  method ClearAndRender(p: StatementProxy) returns (r: Outcome<()>, items: seq<string>, text: string)
    modifies p, p.chain
    ensures r.Ok? ==> items == [] && text == ""
  {
    r := p.ClearBatch();
    items := p.GetBatchSqlList();
    text := p.GetBatchSql();
  }
}
