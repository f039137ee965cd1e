/**
 * The filter chain a statement proxy dispatches every operation through. Its
 * filters and the driver behind it are not part of this model: each dispatch
 * is recorded, with the arguments forwarded to it, and answers with any value
 * or any `SqlError`.
 */
module Filters {
  import opened Jdbc

  /** One `statement_*` dispatch of the chain, with the arguments the proxy forwards. */
  datatype ChainCall =
    | StatementAddBatch(sql: string)
    | StatementClearBatch
    | StatementExecute(sql: string, keys: KeyRequest)
    | StatementExecuteQuery(sql: string)
    | StatementExecuteUpdate(sql: string, keys: KeyRequest)
    | StatementExecuteBatch
    | StatementGetMoreResults(current: Option<int32>)   // None: getMoreResults(), Some(c): getMoreResults(c)
    | StatementGetUpdateCount

  /**
   * The chains built for one statement. The proxy builds a fresh chain for each
   * call; `log` lists, across all of them, the dispatches made so far.
   */
  class FilterChain {
    var log: seq<ChainCall>

    constructor ()
      ensures log == []
    {
      log := [];
    }

    method InvokeUnit(call: ChainCall) returns (r: Outcome<()>)
      requires call.StatementAddBatch? || call.StatementClearBatch?
      modifies this
      ensures log == old(log) + [call]
    {
      log := log + [call];
      r :| true;
    }

    method InvokeBool(call: ChainCall) returns (r: Outcome<bool>)
      requires call.StatementExecute? || call.StatementGetMoreResults?
      modifies this
      ensures log == old(log) + [call]
    {
      log := log + [call];
      r :| true;
    }

    method InvokeInt(call: ChainCall) returns (r: Outcome<int32>)
      requires call.StatementExecuteUpdate? || call.StatementGetUpdateCount?
      modifies this
      ensures log == old(log) + [call]
    {
      log := log + [call];
      r :| true;
    }

    /** A dispatch answering with a Java `int[]`, which may be `null`. */
    method InvokeCounts(call: ChainCall) returns (r: Outcome<Option<seq<int32>>>)
      requires call.StatementExecuteBatch?
      modifies this
      ensures log == old(log) + [call]
    {
      log := log + [call];
      r :| true;
    }

    /** A dispatch answering with a `ResultSet`, which may be `null`. */
    method InvokeResultSet(call: ChainCall) returns (r: Outcome<Option<ResultSetRef>>)
      requires call.StatementExecuteQuery?
      modifies this
      ensures log == old(log) + [call]
    {
      log := log + [call];
      r :| true;
    }
  }
}
