/** The three executors of DaoFactory: `select`, `update` and `insert`. Each
    catches every exception and returns what its local result held when the
    exception was thrown. Each is given as a method that follows the code step by
    step, and a function stating the result it is proved to return. */
module Executors {
  import opened Jdbc
  import opened Binder
  import opened Materializer

  /** The call throws before the statement has executed: on getting the
      connection, on preparing, on a `setObject` that binding reaches, or in
      the execution itself. */
  predicate AbortsBeforeExecution(args: Args, fault: Fault)
  {
    match fault
    case AtConnect => true
    case AtPrepare => true
    case AtBind(_) => BindFails(args, fault)
    case AtExecute => true
    case _ => false
  }

  /** The request an executor submits once binding has completed. */
  function Submission(sql: string, args: Args, returnGeneratedKeys: bool): (request: Request)
  {
    Request(sql, ParameterTable(args), returnGeneratedKeys)
  }

  /** The table the database answers to the query of `select`. */
  function QueryTable(sql: string, args: Args, db: Backend): (table: ResultTable)
  {
    db.answer(Submission(sql, args, false)).table
  }

  /** The number of cursor rows appended to the list before `select` stops. */
  function RowsDelivered(args: Args, fault: Fault, available: nat): (k: nat)
    ensures k <= available
  {
    if AbortsBeforeExecution(args, fault) then 0
    else match fault
      case AtFetch(row) => if row < available then row else available
      case _ => available
  }

  /** What `select` returns: the maps of the cursor rows read before any failure. */
  function SelectOutcome(sql: string, args: Args, db: Backend): (list: seq<Row>)
    ensures |list| <= |QueryTable(sql, args, db).rows|
    ensures AbortsBeforeExecution(args, db.fault) ==> list == []
  {
    var table := QueryTable(sql, args, db);
    var k := RowsDelivered(args, db.fault, |table.rows|);
    assert Rectangular(table.columns, table.rows[..k]) by {
      MaterializePrefix(table.columns, table.rows, k);
    }
    Materialize(table.columns, table.rows[..k])
  }

  /** What `update` returns: the row count widened to long, or 0 when the call
      throws before the count is assigned. */
  function UpdateOutcome(sql: string, args: Args, db: Backend): (rows: Int64)
    ensures -0x8000_0000 <= rows < 0x8000_0000
    ensures rows != 0 ==> !AbortsBeforeExecution(args, db.fault)
  {
    if AbortsBeforeExecution(args, db.fault) then 0
    else db.answer(Submission(sql, args, false)).updateCount
  }

  /** What `insert` returns: null when the call throws before the count is
      assigned; otherwise the first generated key when keys are requested and
      read, and the row count when they are not requested, not read, or absent. */
  function InsertOutcome(sql: string, args: Args, useGeneratedKey: bool, db: Backend): (result: Option<Int64>)
    ensures result.Some? ==>
      var response := db.answer(Submission(sql, args, useGeneratedKey));
      result.value == response.updateCount || (useGeneratedKey && |response.generatedKeys| > 0 && result.value == response.generatedKeys[0])
  {
    if AbortsBeforeExecution(args, db.fault) then None
    else
      var response := db.answer(Submission(sql, args, useGeneratedKey));
      if useGeneratedKey && db.fault != AtGeneratedKeys && |response.generatedKeys| > 0
      then Some(response.generatedKeys[0])
      else Some(response.updateCount)
  }

  /** `select`: prepare, bind, execute, then append one map per cursor row. */
  method Select(sql: string, args: Args, db: Backend) returns (list: seq<Row>)
    ensures list == SelectOutcome(sql, args, db)
  {
    list := [];
    if db.fault == AtConnect || db.fault == AtPrepare {
      return;
    }
    var statement := new PreparedStatement(sql, false);
    var bound := Bind(statement, args, db.fault);
    if !bound || db.fault == AtExecute {
      return;
    }
    assert statement.parameters == ParameterTable(args);
    var table := db.answer(statement.Submitted()).table;
    var r := 0;
    while r < |table.rows|
      invariant 0 <= r <= |table.rows|
      invariant list == Materialize(table.columns, table.rows[..r])
      invariant db.fault.AtFetch? ==> r <= db.fault.row
    {
      if db.fault == AtFetch(r) {
        return;
      }
      var row := BuildRow(table.columns, table.rows[r]);
      assert table.rows[..r + 1][..r] == table.rows[..r];
      list := list + [row];
      r := r + 1;
    }
    assert table.rows[..r] == table.rows;
  }

  /** `update` (also run for DELETE): prepare, bind, and take the row count. */
  method Update(sql: string, args: Args, db: Backend) returns (rows: Int64)
    ensures rows == UpdateOutcome(sql, args, db)
  {
    rows := 0;
    if db.fault == AtConnect || db.fault == AtPrepare {
      return;
    }
    var statement := new PreparedStatement(sql, false);
    var bound := Bind(statement, args, db.fault);
    if !bound || db.fault == AtExecute {
      return;
    }
    assert statement.parameters == ParameterTable(args);
    rows := db.answer(statement.Submitted()).updateCount;
    // A failure on closing the connection is caught here; `rows` is kept.
  }

  /** `insert`: prepare (requesting generated keys if asked), bind, take the row
      count, then replace it by the first generated key if there is one. */
  method Insert(sql: string, args: Args, useGeneratedKey: bool, db: Backend) returns (result: Option<Int64>)
    ensures result == InsertOutcome(sql, args, useGeneratedKey, db)
  {
    result := None;
    if db.fault == AtConnect || db.fault == AtPrepare {
      return;
    }
    var statement := new PreparedStatement(sql, useGeneratedKey);
    var bound := Bind(statement, args, db.fault);
    if !bound || db.fault == AtExecute {
      return;
    }
    assert statement.parameters == ParameterTable(args);
    var response := db.answer(statement.Submitted());
    result := Some(response.updateCount);
    if useGeneratedKey {
      if db.fault == AtGeneratedKeys {
        return;
      }
      if |response.generatedKeys| > 0 {
        result := Some(response.generatedKeys[0]);
      }
    }
  }

  /** `select` never fails outright: it returns the maps of a prefix of the
      cursor, each with the column names as keys; the list is empty when the
      statement did not execute, and stops just before the row whose read throws. */
  lemma SelectOutcomeIsPrefix(sql: string, args: Args, db: Backend)
    ensures var table := QueryTable(sql, args, db);
      var rows := SelectOutcome(sql, args, db);
      && |rows| <= |table.rows|
      && rows == Materialize(table.columns, table.rows)[..|rows|]
      && (forall i :: 0 <= i < |rows| ==> rows[i].Keys == set name | name in table.columns)
      && (AbortsBeforeExecution(args, db.fault) ==> rows == [])
      && (!AbortsBeforeExecution(args, db.fault) && db.fault.AtFetch? && db.fault.row < |table.rows| ==>
            |rows| == db.fault.row)
  {
    var table := QueryTable(sql, args, db);
    var k := RowsDelivered(args, db.fault, |table.rows|);
    MaterializePrefix(table.columns, table.rows, k);
    MaterializeShape(table.columns, table.rows);
    forall i | 0 <= i < k
      ensures SelectOutcome(sql, args, db)[i].Keys == set name | name in table.columns
    {
      RowOfKeys(table.columns, table.rows[i]);
    }
  }

  /** When no cursor read fails, `select` returns one map per cursor row, map i
      being that of row i; a failure after the cursor is drained changes nothing. */
  lemma SelectOutcomeComplete(sql: string, args: Args, db: Backend)
    requires !AbortsBeforeExecution(args, db.fault)
    requires !(db.fault.AtFetch? && db.fault.row < |QueryTable(sql, args, db).rows|)
    ensures var table := QueryTable(sql, args, db);
      && SelectOutcome(sql, args, db) == Materialize(table.columns, table.rows)
      && forall i :: 0 <= i < |table.rows| ==> SelectOutcome(sql, args, db)[i] == RowOf(table.columns, table.rows[i])
  {
    var table := QueryTable(sql, args, db);
    assert table.rows[..|table.rows|] == table.rows;
    MaterializeShape(table.columns, table.rows);
  }

  /** `update` returns 0 exactly on a failure before execution (or when the
      database reports 0), and otherwise the reported count, whatever fails after. */
  lemma UpdateOutcomeSwallowsFailures(sql: string, args: Args, db: Backend)
    ensures AbortsBeforeExecution(args, db.fault) ==> UpdateOutcome(sql, args, db) == 0
    ensures !AbortsBeforeExecution(args, db.fault) ==>
      UpdateOutcome(sql, args, db) == UpdateOutcome(sql, args, Backend(NoFault, db.answer))
    ensures UpdateOutcome(sql, args, Backend(NoFault, db.answer)) == db.answer(Submission(sql, args, false)).updateCount
  {
  }

  /** `insert` returns null if and only if the call throws before execution. */
  lemma InsertNullIffAborts(sql: string, args: Args, useGeneratedKey: bool, db: Backend)
    ensures InsertOutcome(sql, args, useGeneratedKey, db).None? <==> AbortsBeforeExecution(args, db.fault)
  {
  }

  /** Without generated keys `insert` returns the row count; with them, the first
      key when the key set has a row and the keys are read, and the row count when
      the key set is empty or reading it throws. */
  lemma InsertResultSelection(sql: string, args: Args, useGeneratedKey: bool, db: Backend)
    requires !AbortsBeforeExecution(args, db.fault)
    ensures var response := db.answer(Submission(sql, args, useGeneratedKey));
      && (!useGeneratedKey ==> InsertOutcome(sql, args, useGeneratedKey, db) == Some(response.updateCount))
      && (useGeneratedKey && db.fault != AtGeneratedKeys && response.generatedKeys != [] ==>
            InsertOutcome(sql, args, useGeneratedKey, db) == Some(response.generatedKeys[0]))
      && (useGeneratedKey && response.generatedKeys == [] ==>
            InsertOutcome(sql, args, useGeneratedKey, db) == Some(response.updateCount))
      && (useGeneratedKey && db.fault == AtGeneratedKeys ==>
            InsertOutcome(sql, args, useGeneratedKey, db) == Some(response.updateCount))
  {
  }
}
