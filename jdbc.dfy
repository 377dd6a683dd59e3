/** The JDBC collaborators of the DAO handler, reduced to the values it exchanges
    with them: argument and column values, the statement it prepares, the answer
    the database gives to that statement, and the step at which a driver call throws. */
module Jdbc {

  /** A Java reference that may be null (`Object[] args`, `Long result`). */
  datatype Option<+T> = None | Some(value: T)

  /** A Java `int`, the type `executeUpdate` reports its row count in. */
  type Int32 = x: int | -0x8000_0000 <= x < 0x8000_0000

  /** A Java `long`, the type of generated keys and of the DAO's mutation results. */
  type Int64 = x: int | -0x8000_0000_0000_0000 <= x < 0x8000_0000_0000_0000

  /** A dynamically typed value, as passed to `setObject` and returned by `getObject`. */
  datatype Value = Null | Integer(n: int) | Text(s: string) | Bytes(b: seq<bv8>)

  /** One materialized row: column name to value. */
  type Row = map<string, Value>

  /** The argument array of a proxied call; `None` is a null array. */
  type Args = Option<seq<Value>>

  /** Every cursor row has one value per column of the result's metadata. */
  predicate Rectangular(columns: seq<string>, rows: seq<seq<Value>>)
  {
    forall i :: 0 <= i < |rows| ==> |rows[i]| == |columns|
  }

  /** A query result: the column names of its metadata (column i + 1 is
      `columns[i]`) and the rows the cursor yields, in cursor order. */
  datatype Table = Table(columns: seq<string>, rows: seq<seq<Value>>)

  type ResultTable = t: Table | Rectangular(t.columns, t.rows) witness Table([], [])

  /** What the database is asked to run: the SQL text, the parameter table after
      binding, and whether generated keys are requested (`RETURN_GENERATED_KEYS`). */
  datatype Request = Request(sql: string, parameters: map<int, Value>, returnGeneratedKeys: bool)

  /** What the database answers: the result of `executeQuery`, the row count of
      `executeUpdate`, and the first column of each row of `getGeneratedKeys`. */
  datatype Response = Response(table: ResultTable, updateCount: Int32, generatedKeys: seq<Int64>)

  /** The driver call that throws during one DAO call, if any. */
  datatype Fault =
    | NoFault
    | AtConnect           // `dataSource.getConnection()`
    | AtPrepare           // `connection.prepareStatement(...)`
    | AtBind(index: nat)  // `setObject(index + 1, args[index])`
    | AtExecute           // `executeQuery` (or `getMetaData`) / `executeUpdate`
    | AtFetch(row: nat)   // `next()` or a `getObject` while reading cursor row `row` (0-based)
    | AtGeneratedKeys     // `getGeneratedKeys`, its `next()` or `getLong(1)`
    | AtClose             // closing the connection at the end of the try-with-resources

  /** The database as seen by one DAO call: where it throws, and how it answers
      whatever statement the call submits. */
  datatype Backend = Backend(fault: Fault, answer: Request -> Response)

  /** A prepared statement; its parameter table is filled in place by `SetObject`. */
  class PreparedStatement {
    const sql: string
    const returnGeneratedKeys: bool
    var parameters: map<int, Value>

    constructor (sql: string, returnGeneratedKeys: bool)
      ensures this.sql == sql && this.returnGeneratedKeys == returnGeneratedKeys
      ensures parameters == map[]
    {
      this.sql := sql;
      this.returnGeneratedKeys := returnGeneratedKeys;
      parameters := map[];
    }

    /** Binds parameter `index` (1-based) to `x`, replacing any earlier binding. */
    method SetObject(index: int, x: Value)
      modifies this
      ensures parameters == old(parameters)[index := x]
    {
      parameters := parameters[index := x];
    }

    /** The request the statement submits when it is executed. */
    function Submitted(): (request: Request)
      reads this
    {
      Request(sql, parameters, returnGeneratedKeys)
    }
  }
}
