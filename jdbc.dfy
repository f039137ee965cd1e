/** Value types shared by the statement proxy, its filter chain and the driver it wraps. */
module Jdbc {

  /** Java `int`. */
  newtype int32 = x: int | -0x8000_0000 <= x < 0x8000_0000

  /** Java `long`. */
  newtype int64 = x: int | -0x8000_0000_0000_0000 <= x < 0x8000_0000_0000_0000

  const TwoTo64: int := 0x1_0000_0000_0000_0000

  /** Java `long` arithmetic: the two's-complement value of `x` in 64 bits. */
  function Wrap64(x: int): (r: int64)
    ensures (r as int - x) % TwoTo64 == 0
    ensures -0x8000_0000_0000_0000 <= x < 0x8000_0000_0000_0000 ==> r as int == x
  {
    var m := x % TwoTo64;
    assert x == (x / TwoTo64) * TwoTo64 + m;
    if m < 0x8000_0000_0000_0000 then m as int64 else (m - TwoTo64) as int64
  }

  /** A nullable reference: `None` stands for Java's `null`. */
  datatype Option<T> = None | Some(value: T)
  {
    function GetOr(default: T): T
    {
      match this
      case Some(v) => v
      case None => default
    }
  }

  /** What a `SQLException` can be. */
  datatype SqlError =
    | SqlException(id: nat)    // any failure raised by a filter or by the driver
    | FeatureNotSupported      // `SQLFeatureNotSupportedException`

  /** The outcome of a call that may throw a `SQLException`. */
  datatype Outcome<T> = Ok(value: T) | Err(error: SqlError)

  /** The kind of the most recent execution, `StatementExecuteType`. */
  datatype ExecuteType = Execute | ExecuteQuery | ExecuteUpdate | ExecuteBatch

  /** The extra argument that tells the four `execute` (and `executeUpdate`) overloads apart. */
  datatype KeyRequest =
    | NoKeys                                        // execute(sql)
    | AutoGeneratedKeys(flag: int32)                // execute(sql, int autoGeneratedKeys)
    | ColumnIndexes(indexes: Option<seq<int32>>)    // execute(sql, int[] columnIndexes)
    | ColumnNames(names: Option<seq<string>>)       // execute(sql, String[] columnNames)

  /** Identity of the raw driver `Statement` the proxy wraps. */
  datatype StatementRef = StatementRef(id: nat)

  /** Identity of a driver `ResultSet`. */
  datatype ResultSetRef = ResultSetRef(id: nat)

  /** The `Class` object passed to `unwrap`. */
  datatype Capability = StatementCapability | OtherCapability(name: string)
}
