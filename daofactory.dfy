/** The invocation handler of DaoFactory: every call on a proxied DAO interface
    is routed by the method's annotations and declared return type to one of the
    executors, whose result is then post-processed. */
module DaoFactory {
  import opened Jdbc
  import opened Materializer
  import opened Executors

  /** The declared (generic) return type of a DAO method, as far as `invoke`
      inspects it: a parameterized `List` with the type name of its element type,
      a parameterized `HashMap`, or anything else (raw types, primitives, ...). */
  datatype ReturnType = ParamList(elemTypeName: string) | ParamHashMap | Other

  /** The attributes of an `@Insert` annotation. */
  datatype InsertAnnotation = InsertAnnotation(sql: string, useGeneratedKey: bool)

  /** A DAO method as `invoke` sees it: the SQL of each annotation present on it
      (a method may carry several) and its declared return type. */
  datatype DaoMethod = DaoMethod(
    select: Option<string>,
    insert: Option<InsertAnnotation>,
    update: Option<string>,
    delete: Option<string>,
    returnType: ReturnType)

  /** What `invoke` decides to do before touching the database. */
  datatype Plan =
    | ReturnNull                                     // answer null without running anything
    | RejectReturnType                               // throw UnsupportedDataTypeException
    | SelectList(sql: string)                        // return the list `select` builds
    | SelectFirst(sql: string)                       // return element 0 of that list
    | RunInsert(sql: string, useGeneratedKey: bool)  // return what `insert` returns
    | RunUpdate(sql: string)                         // return what `update` returns

  /** The Java object `invoke` returns. */
  datatype JavaObject = NullRef | RowList(rows: seq<Row>) | RowMap(row: Row) | Boxed(n: Int64)

  /** The exceptions `invoke` lets escape. */
  datatype JavaException = UnsupportedDataType(message: string) | IndexOutOfBounds(index: int, size: int)

  datatype Outcome = Returns(value: JavaObject) | Throws(exception: JavaException)

  const UnsupportedMessage := "Unsupported return type."

  /** `part` starts at position i of `s`. */
  predicate OccursAt(s: string, part: string, i: int)
  {
    0 <= i <= |s| - |part| && s[i..i + |part|] == part
  }

  /** Java's `s.contains(part)`: `part` occurs in `s` as a contiguous substring. */
  predicate Contains(s: string, part: string)
    ensures Contains(s, part) ==> |part| <= |s|
    ensures |part| == 0 ==> Contains(s, part)
  {
    assert |part| == 0 ==> OccursAt(s, part, 0);
    exists i | 0 <= i <= |s| - |part| :: OccursAt(s, part, i)
  }

  /** A string built as `pre + part + post` contains `part`. */
  lemma ContainsInfix(pre: string, part: string, post: string)
    ensures Contains(pre + part + post, part)
  {
    assert (pre + part + post)[|pre|..|pre| + |part|] == part;
    assert OccursAt(pre + part + post, part, |pre|);
  }

  /** A string in which the first character of `part` never occurs does not contain `part`. */
  lemma NotContainsWithoutFirstChar(s: string, part: string)
    requires |part| > 0 && part[0] !in s
    ensures !Contains(s, part)
  {
  }

  /** The branching of `invoke`: annotations are tested in the order Select,
      Insert, Update, Delete; a Select method is also classified by its return type. */
  function Dispatch(m: DaoMethod): (plan: Plan)
    ensures plan.RejectReturnType? <==>
      m.select.Some? && m.returnType.ParamList? && !Contains(m.returnType.elemTypeName, "HashMap")
    ensures plan.RunInsert? <==> m.select.None? && m.insert.Some?
    ensures plan.RunUpdate? <==> m.select.None? && m.insert.None? && (m.update.Some? || m.delete.Some?)
    ensures (plan.SelectList? || plan.SelectFirst?) ==> m.select == Some(plan.sql)
  {
    if m.select.Some? then
      match m.returnType
      case ParamList(elemTypeName) =>
        if Contains(elemTypeName, "HashMap") then SelectList(m.select.value) else RejectReturnType
      case ParamHashMap => SelectFirst(m.select.value)
      case Other => ReturnNull
    else if m.insert.Some? then RunInsert(m.insert.value.sql, m.insert.value.useGeneratedKey)
    else if m.update.Some? then RunUpdate(m.update.value)
    else if m.delete.Some? then RunUpdate(m.delete.value)
    else ReturnNull
  }

  /** Carrying out a plan against the database; `SelectFirst` is `list.get(0)`. */
  function Perform(plan: Plan, args: Args, db: Backend): (outcome: Outcome)
    ensures outcome.Throws? <==>
      plan.RejectReturnType? || (plan.SelectFirst? && SelectOutcome(plan.sql, args, db) == [])
    ensures outcome == Returns(NullRef) <==>
      plan.ReturnNull? || (plan.RunInsert? && InsertOutcome(plan.sql, args, plan.useGeneratedKey, db).None?)
  {
    match plan
    case ReturnNull => Returns(NullRef)
    case RejectReturnType => Throws(UnsupportedDataType(UnsupportedMessage))
    case SelectList(sql) => Returns(RowList(SelectOutcome(sql, args, db)))
    case SelectFirst(sql) =>
      var rows := SelectOutcome(sql, args, db);
      if |rows| == 0 then Throws(IndexOutOfBounds(0, 0)) else Returns(RowMap(rows[0]))
    case RunInsert(sql, useGeneratedKey) =>
      (match InsertOutcome(sql, args, useGeneratedKey, db)
       case None => Returns(NullRef)
       case Some(result) => Returns(Boxed(result)))
    case RunUpdate(sql) => Returns(Boxed(UpdateOutcome(sql, args, db)))
  }

  /** `invoke(proxy, method, args)`. */
  function Invoke(m: DaoMethod, args: Args, db: Backend): (outcome: Outcome)
    ensures outcome.Throws? <==>
      && m.select.Some?
      && (|| (m.returnType.ParamList? && !Contains(m.returnType.elemTypeName, "HashMap"))
          || (m.returnType == ParamHashMap && SelectOutcome(m.select.value, args, db) == []))
  {
    Perform(Dispatch(m), args, db)
  }

  // ---- Select dispatch -------------------------------------------------------

  /** A `List<E>` return whose element type name contains "HashMap" returns the
      whole list `select` builds; any other element type is rejected. */
  lemma SelectListDispatch(m: DaoMethod, args: Args, db: Backend)
    requires m.select.Some? && m.returnType.ParamList?
    ensures Contains(m.returnType.elemTypeName, "HashMap") ==>
      Invoke(m, args, db) == Returns(RowList(SelectOutcome(m.select.value, args, db)))
    ensures !Contains(m.returnType.elemTypeName, "HashMap") ==>
      Invoke(m, args, db) == Throws(UnsupportedDataType(UnsupportedMessage))
  {
  }

  /** A `HashMap<K, V>` return yields element 0 of the list, and fails with an
      index error when the list is empty. */
  lemma SelectHashMapDispatch(m: DaoMethod, args: Args, db: Backend)
    requires m.select.Some? && m.returnType == ParamHashMap
    ensures var rows := SelectOutcome(m.select.value, args, db);
      Invoke(m, args, db) == if rows == [] then Throws(IndexOutOfBounds(0, 0)) else Returns(RowMap(rows[0]))
  {
  }

  /** Any other return type of a Select method yields null, whatever the database does. */
  lemma SelectOtherReturnsNull(m: DaoMethod, args: Args, db: Backend)
    requires m.select.Some? && m.returnType == Other
    ensures Invoke(m, args, db) == Returns(NullRef)
  {
  }

  /** A single-row select returns the map of the first cursor row when that row
      is read, and fails (rather than answering null or an empty map) when the
      query matches nothing or the call fails before the first row. */
  lemma SingleRowSelect(m: DaoMethod, args: Args, db: Backend)
    requires m.select.Some? && m.returnType == ParamHashMap
    ensures var table := QueryTable(m.select.value, args, db);
      && (table.rows == [] || AbortsBeforeExecution(args, db.fault) || db.fault == AtFetch(0) ==>
            Invoke(m, args, db) == Throws(IndexOutOfBounds(0, 0)))
      && (table.rows != [] && !AbortsBeforeExecution(args, db.fault) && db.fault != AtFetch(0) ==>
            Invoke(m, args, db) == Returns(RowMap(RowOf(table.columns, table.rows[0]))))
  {
    var table := QueryTable(m.select.value, args, db);
    SelectOutcomeIsPrefix(m.select.value, args, db);
    MaterializeShape(table.columns, table.rows);
  }

  // ---- Dispatch precedence ---------------------------------------------------

  /** Select is tested first: other annotations on a Select method are ignored. */
  lemma SelectTakesPrecedence(m: DaoMethod)
    requires m.select.Some?
    ensures Dispatch(m) == Dispatch(m.(insert := None, update := None, delete := None))
    ensures Dispatch(m).ReturnNull? || Dispatch(m).RejectReturnType?
      || Dispatch(m) == SelectList(m.select.value) || Dispatch(m) == SelectFirst(m.select.value)
  {
  }

  /** Insert comes next, ahead of Update and Delete, and ignores the return type. */
  lemma InsertBeforeUpdateAndDelete(m: DaoMethod)
    requires m.select.None? && m.insert.Some?
    ensures Dispatch(m) == Dispatch(m.(update := None, delete := None))
    ensures Dispatch(m) == RunInsert(m.insert.value.sql, m.insert.value.useGeneratedKey)
  {
  }

  /** `update` runs for exactly the methods whose first annotation among the four
      is Update or Delete, with that annotation's own SQL. */
  lemma RunUpdateIff(m: DaoMethod, sql: string)
    ensures Dispatch(m) == RunUpdate(sql) <==>
      && m.select.None? && m.insert.None?
      && (m.update == Some(sql) || (m.update.None? && m.delete == Some(sql)))
  {
  }

  /** A Delete method behaves exactly as an Update method with the same SQL. */
  lemma DeleteRoutesLikeUpdate(sql: string, returnType: ReturnType, args: Args, db: Backend)
    ensures Invoke(DaoMethod(None, None, None, Some(sql), returnType), args, db)
      == Invoke(DaoMethod(None, None, Some(sql), None, returnType), args, db)
      == Returns(Boxed(UpdateOutcome(sql, args, db)))
  {
  }

  /** `invoke` answers null without touching the database exactly when the method
      has none of the four annotations, or is a Select of an unsupported
      non-list shape. */
  lemma ReturnNullIff(m: DaoMethod)
    ensures Dispatch(m) == ReturnNull <==>
      || (m.select.None? && m.insert.None? && m.update.None? && m.delete.None?)
      || (m.select.Some? && m.returnType == Other)
  {
  }

  /** The database is consulted only when an executor runs: when `invoke` answers
      null or rejects the return type, the outcome is the same for every database. */
  lemma NoExecutorNoDatabase(m: DaoMethod, args: Args, db1: Backend, db2: Backend)
    requires Dispatch(m).ReturnNull? || Dispatch(m).RejectReturnType?
    ensures Invoke(m, args, db1) == Invoke(m, args, db2)
    ensures Invoke(m, args, db1).Returns? <==> Dispatch(m).ReturnNull?
  {
  }
}
