# SimpleORM's DAO invocation handler, modelled in Dafny

SimpleORM turns an annotated Java interface into a data-access object. `DaoFactory`
is the `InvocationHandler` behind the proxy. Each call on the interface goes to
`invoke`. That method looks at the method's annotations (`@Select`, `@Insert`,
`@Update`, `@Delete`) and, for a Select, at its declared generic return type. It
then runs one of three private executors:

- `select` binds the arguments and drains the result cursor into a list of
  column-name to value `HashMap`s.
- `update` (also used for DELETE) binds the arguments and returns the row count.
- `insert` binds the arguments and returns the row count, or the first generated key.

Each executor catches every exception. It then returns whatever its local result
held at that moment.

The model abstracts the database away. One call sees a `Backend`, made of two parts:

- a `Fault`: the driver call that throws, if any. It is one of getting the
  connection, preparing, `setObject` of argument i, executing, reading cursor row
  k, reading the generated keys, or closing the connection.
- an uninterpreted function `answer`. It maps the request the executor submits
  (the SQL text, the bound parameter table, and the generated-keys mode) to the
  database's response (the result table, the update count, and the generated keys).

Modules:

- `Jdbc` (jdbc.dfy): values, rows, requests, responses, faults, and the
  `PreparedStatement` class whose parameter table `setObject` updates in place.
- `Binder` (binder.dfy): the positional binding loop shared by the three
  executors. It is proved against `Positional`/`ParameterTable`.
- `Materializer` (materializer.dfy): the row loop `BuildRow` of `select`, proved
  against `RowOf`, and `Materialize`, the specification of `select`'s cursor loop.
  The cursor loop itself is in `Executors.Select`.
- `Executors` (executors.dfy): the methods `Select`, `Update` and `Insert`. They
  follow the Java statement by statement. Each is proved to return exactly
  `SelectOutcome`, `UpdateOutcome` or `InsertOutcome`, three functions that state
  the result for every fault.
- `DaoFactory` (daofactory.dfy): `invoke`, split into `Dispatch` and `Perform`.
  `Dispatch` is the branching on annotations and return type, producing a `Plan`.
  `Perform` runs the executor the plan names and post-processes its result
  (`get(0)`, boxing, null). `Invoke` glues the two together. The lemmas state the
  dispatch rules.
- `ItemDao` (itemdao.dfy): the five methods of the test interface `ItemDao` as
  descriptors, with worked outcomes against databases of known behaviour.

The model keeps these behaviours of the code as written:

- An empty generated-key set leaves `insert`'s result at the row count
  (DaoFactory.java:155-157: the key replaces the count only when `rs.next()` succeeds).
- Every failure inside an executor is caught (DaoFactory.java:94-96, :119-121,
  :159-161). `select` returns the rows read so far (possibly none), `update` returns 0
  or the count already assigned, and `insert` returns null or the count or key
  already assigned.
- A single-row Select on an empty result fails through `List.get(0)`, with an
  index-out-of-bounds exception (DaoFactory.java:50).
- A Select whose return type is neither a parameterized `List` nor a parameterized
  `HashMap` reaches the final `return null` (DaoFactory.java:64). Only a `List` whose
  element type name lacks "HashMap" raises `UnsupportedDataTypeException`
  (DaoFactory.java:46).
- The element-type test is a substring test on the type name (DaoFactory.java:43).
  So a `List<LinkedHashMap<…>>` (or a list of any type whose name contains "HashMap")
  is accepted.

## Model

| member | source | states |
|---|---|---|
| `Jdbc.PreparedStatement.SetObject` | src/main/java/top/cloudli/orm/DaoFactory.java:81 | setting parameter `index` replaces that one entry of the parameter table and leaves every other entry unchanged |
| `Binder.PositionalExact` | src/main/java/top/cloudli/orm/DaoFactory.java:79-82 | after binding n arguments one index at a time, exactly indices 1..n are set, and index i + 1 holds argument i |
| `Binder.ParameterTableExact` | src/main/java/top/cloudli/orm/DaoFactory.java:79-82 | with a non-null argument array, index i + 1 receives exactly `args[i]` for every i < args.length, and no other index is set; with a null array nothing is bound |
| `Binder.Bind` | src/main/java/top/cloudli/orm/DaoFactory.java:79-82 | the binding loop succeeds unless a `setObject` it reaches throws; the statement's table gains exactly the arguments bound before that point (all of them on success) |
| `Materializer.Materialize` | src/main/java/top/cloudli/orm/DaoFactory.java:87-93 | the list has exactly one map per cursor row |
| `Materializer.MaterializeShape` | src/main/java/top/cloudli/orm/DaoFactory.java:87-93 | map i of the list is the map built from cursor row i, so the list is in cursor order |
| `Materializer.MaterializePrefix` | src/main/java/top/cloudli/orm/DaoFactory.java:87-93 | the list built from the first k cursor rows is the first k maps of the full list |
| `Materializer.RowOfKeys` | src/main/java/top/cloudli/orm/DaoFactory.java:88-91 | the key set of each row map equals the set of column names of the result |
| `Materializer.RowOfLastWins` | src/main/java/top/cloudli/orm/DaoFactory.java:89-91 | for a repeated column name, the map keeps the value of the last column with that name |
| `Materializer.BuildRow` | src/main/java/top/cloudli/orm/DaoFactory.java:88-91 | the column loop, putting names into a fresh map in column order, builds exactly `RowOf` of the row |
| `Executors.Select` | src/main/java/top/cloudli/orm/DaoFactory.java:74-99 | connect, prepare, bind, execute, then append one map per cursor row until the cursor ends or a read throws; returns exactly `SelectOutcome` for every fault, never null |
| `Executors.Update` | src/main/java/top/cloudli/orm/DaoFactory.java:108-124 | returns exactly `UpdateOutcome`: 0 when anything throws before `executeUpdate` returns, else the reported count widened to long |
| `Executors.Insert` | src/main/java/top/cloudli/orm/DaoFactory.java:135-164 | returns exactly `InsertOutcome`: null until `executeUpdate` returns, then the count, replaced by the first generated key when keys are requested and one is read |
| `Executors.SelectOutcome` | src/main/java/top/cloudli/orm/DaoFactory.java:74-98 | what `select` returns: the maps of the cursor rows read before any failure, never more than the cursor holds, and none when the call throws before the query executes |
| `Executors.UpdateOutcome` | src/main/java/top/cloudli/orm/DaoFactory.java:108-124 | what `update` returns: the driver's `int` count widened to `long`, so always within the `int` range; it is non-zero only when the statement executed |
| `Executors.InsertOutcome` | src/main/java/top/cloudli/orm/DaoFactory.java:135-164 | what `insert` returns: null when the call throws before `executeUpdate` completes; otherwise either the row count or, in generated-keys mode, the first generated key |
| `Executors.SelectOutcomeIsPrefix` | src/main/java/top/cloudli/orm/DaoFactory.java:74-98 | on any failure `select` returns a prefix of the full materialization (no longer than the cursor), each map keyed by the column names; it returns the empty list when the statement never executed, and exactly the rows before the one whose read throws |
| `Executors.SelectOutcomeComplete` | src/main/java/top/cloudli/orm/DaoFactory.java:84-93 | when no cursor read fails, `select` returns one map per cursor row, map i built from row i, whatever fails afterwards |
| `Executors.UpdateOutcomeSwallowsFailures` | src/main/java/top/cloudli/orm/DaoFactory.java:109-123 | a failure before execution yields 0; a failure after it yields the same count as no failure at all, namely the driver's count |
| `Executors.InsertNullIffAborts` | src/main/java/top/cloudli/orm/DaoFactory.java:136-163 | `insert` returns null exactly when the call throws before `executeUpdate` completes |
| `Executors.InsertResultSelection` | src/main/java/top/cloudli/orm/DaoFactory.java:141-161 | without generated keys the row count is returned; with them, the first key when the key set has a row and it is read; with an empty key set, or when reading the keys throws, the row count |
| `DaoFactory.Contains` | src/main/java/top/cloudli/orm/DaoFactory.java:43 | Java's `String.contains`: the part occurs at some position of the string; a string never contains a longer part, and always contains the empty one |
| `DaoFactory.Dispatch` | src/main/java/top/cloudli/orm/DaoFactory.java:38-62 | the branching of `invoke`: annotations are tested in the order Select, Insert, Update, Delete, and a Select is classified by its return shape; the return type is rejected exactly for a Select returning `List<E>` whose element type name lacks "HashMap"; `insert` runs exactly when @Insert is the first annotation present; `update` runs exactly when neither @Select nor @Insert is present and @Update or @Delete is |
| `DaoFactory.Perform` | src/main/java/top/cloudli/orm/DaoFactory.java:44-64 | carrying out a plan: it throws exactly on a rejected return type or on `get(0)` of an empty `select` list, and answers null exactly for the null plan or an `insert` that returns null; otherwise it returns the executor's result, boxed |
| `DaoFactory.Invoke` | src/main/java/top/cloudli/orm/DaoFactory.java:37-65 | `invoke(proxy, method, args)`: an exception escapes only from a Select method, exactly when its `List` element type lacks "HashMap" or its single-row result is empty |
| `DaoFactory.ContainsInfix` | src/main/java/top/cloudli/orm/DaoFactory.java:43 | a type name of the form pre + "HashMap" + post passes the `contains("HashMap")` test |
| `DaoFactory.NotContainsWithoutFirstChar` | src/main/java/top/cloudli/orm/DaoFactory.java:43 | a type name without the letter 'H' fails the `contains("HashMap")` test |
| `DaoFactory.SelectListDispatch` | src/main/java/top/cloudli/orm/DaoFactory.java:41-47 | a Select returning `List<E>` returns the whole list `select` builds when E's type name contains "HashMap", and otherwise throws UnsupportedDataTypeException("Unsupported return type.") |
| `DaoFactory.SelectHashMapDispatch` | src/main/java/top/cloudli/orm/DaoFactory.java:48-51 | a Select returning a parameterized `HashMap` returns element 0 of the list `select` builds, and throws an index error (index 0, size 0) when that list is empty |
| `DaoFactory.SelectOtherReturnsNull` | src/main/java/top/cloudli/orm/DaoFactory.java:38-64 | a Select with any other return type returns null, whatever the database does |
| `DaoFactory.SingleRowSelect` | src/main/java/top/cloudli/orm/DaoFactory.java:50 | a single-row Select returns the map of the first cursor row when that row is read; on an empty result, a failure before execution, or a failure reading row 0, it throws instead of returning null or an empty row |
| `DaoFactory.SelectTakesPrecedence` | src/main/java/top/cloudli/orm/DaoFactory.java:38-52 | when @Select is present, the other annotations do not affect the plan, and the plan is one of the Select plans, carrying the Select SQL |
| `DaoFactory.InsertBeforeUpdateAndDelete` | src/main/java/top/cloudli/orm/DaoFactory.java:52-58 | without @Select, @Insert wins over @Update and @Delete, and runs `insert` with its SQL and flag whatever the return type |
| `DaoFactory.RunUpdateIff` | src/main/java/top/cloudli/orm/DaoFactory.java:58-62 | `update` runs with SQL s if and only if there is neither @Select nor @Insert, and either @Update carries s, or there is no @Update and @Delete carries s |
| `DaoFactory.DeleteRoutesLikeUpdate` | src/main/java/top/cloudli/orm/DaoFactory.java:58-61 | a @Delete method behaves exactly like a @Update method with the same SQL: both return the boxed `update` result |
| `DaoFactory.ReturnNullIff` | src/main/java/top/cloudli/orm/DaoFactory.java:38-64 | `invoke` answers null without running anything if and only if the method has none of the four annotations, or is a Select whose return type is neither a parameterized List nor a parameterized HashMap |
| `DaoFactory.NoExecutorNoDatabase` | src/main/java/top/cloudli/orm/DaoFactory.java:38-64 | when no executor runs, the outcome is the same for every database, and it is a return exactly when the plan is to answer null |
| `ItemDao.RowTypeNameContainsHashMap` | src/test/java/top/cloudli/orm/dao/ItemDao.java:13-14 | the element type name of `getAll`'s `List<HashMap<String, Object>>` passes the HashMap test |
| `ItemDao.ItemDaoPlans` | src/test/java/top/cloudli/orm/dao/ItemDao.java:13-26 | plans of the five methods: `getAll` returns the list, `getById` returns element 0, `add` runs an insert with generated keys, `update` and `removeById` each run `update` with their own SQL |
| `ItemDao.ElementTypeIsSubstringTest` | src/main/java/top/cloudli/orm/DaoFactory.java:43 | a list of `LinkedHashMap` rows is accepted by the substring test, and a list of a typed row class is rejected |
| `ItemDao.AddReturnsGeneratedKey` | src/test/java/top/cloudli/orm/dao/ItemDao.java:19-20 | `add("NewItem")` submits parameter 1 = "NewItem" in generated-keys mode, and returns the generated key, or the row count when no key comes back |
| `ItemDao.FailuresAreSwallowed` | src/main/java/top/cloudli/orm/DaoFactory.java:94-163 | when no connection can be obtained, `add` returns null, `update` returns 0 and `getAll` returns the empty list |
| `ItemDao.UpdateAndRemove` | src/test/java/top/cloudli/orm/dao/ItemDao.java:22-26 | `update(name, id)` binds name to 1 and id to 2; both `update` and `removeById` return the reported count |
| `ItemDao.GetByIdFoundAndMissing` | src/test/java/top/cloudli/orm/dao/ItemDao.java:16-17 | `getById(id)` returns the row as the map {id, name}, and throws an index error when no row matches |

## Left out

- Proxy construction (`createDao`, `Proxy.newProxyInstance`) and the `DataSource`
  field are left out. There is no logic in them. A method is given to `invoke` as
  its annotations and return type (`DaoMethod`), and the data source is the `Backend`.
- The proxy's own handling of `invoke`'s result is not modelled. It unboxes a
  null into a primitive `long` return (a NullPointerException for `add` when
  `insert` answers null). It also wraps the checked UnsupportedDataTypeException
  in UndeclaredThrowableException.
- The JDBC driver is foreign code. This covers `getConnection`, `prepareStatement`,
  `setObject`, `executeQuery`, `executeUpdate`, `getGeneratedKeys` and the
  result-set calls. Each is reduced to the uninterpreted `answer` function and a
  single fault point per call. A fault that depends on the data (an argument
  count that does not match the placeholders, say) is covered by choosing the
  fault, not derived from the SQL.
- Closing resources by try-with-resources is left out. Only a fault on closing
  is modelled, and it leaves every result unchanged.
- Logging (`log.debug`) and `printStackTrace` are left out. They are side effects only.
- Value conversion by `getObject` and `getLong` is left out. Values form a small
  tagged union, and a generated key arrives as an already converted `long`.
- Only Java `int` and `long` ranges are modelled. Row counts are `Int32` and keys
  are `Int64`, and widening an `int` to a `long` loses nothing, so no wrap-around
  arises.
- Concurrency is left out. Each call is independent, and the handler has no
  mutable shared state.
- `src/test/java/top/cloudli/orm/SimpleORMTest.java` is left out. It is an ordered
  test against a live MySQL database. Its scenario is reflected only in the
  single-call examples of `ItemDao`.
