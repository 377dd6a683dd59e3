/** The five methods of the test interface ItemDao as DAO method descriptors,
    and what `invoke` does with them against databases of known behaviour. */
module ItemDao {
  import opened Jdbc
  import opened Binder
  import opened Materializer
  import opened Executors
  import opened DaoFactory

  /** `getTypeName()` of the type argument `HashMap<String, Object>`, that is
      "java.util.HashMap<java.lang.String, java.lang.Object>". */
  const RowTypeName := "java.util." + "HashMap" + "<java.lang.String, java.lang.Object>"

  /** `List<HashMap<String, Object>> getAll()` */
  const GetAll := DaoMethod(Some("select * from item"), None, None, None, ParamList(RowTypeName))
  /** `HashMap<String, Object> getById(long id)` */
  const GetById := DaoMethod(Some("select * from item where id = ?"), None, None, None, ParamHashMap)
  /** `long add(String name)`, with `useGeneratedKey = true` */
  const Add := DaoMethod(None, Some(InsertAnnotation("insert into item(name) values(?)", true)), None, None, Other)
  /** `long update(String name, long id)` */
  const UpdateName := DaoMethod(None, None, Some("update item set name = ? where id = ?"), None, Other)
  /** `long removeById(long id)` */
  const RemoveById := DaoMethod(None, None, None, Some("delete from item where id = ?"), Other)

  /** The element type name of `getAll` contains "HashMap". */
  lemma RowTypeNameContainsHashMap()
    ensures Contains(RowTypeName, "HashMap")
  {
    ContainsInfix("java.util.", "HashMap", "<java.lang.String, java.lang.Object>");
  }

  /** The plan `invoke` picks for each of the five methods. */
  lemma ItemDaoPlans()
    ensures Dispatch(GetAll) == SelectList("select * from item")
    ensures Dispatch(GetById) == SelectFirst("select * from item where id = ?")
    ensures Dispatch(Add) == RunInsert("insert into item(name) values(?)", true)
    ensures Dispatch(UpdateName) == RunUpdate("update item set name = ? where id = ?")
    ensures Dispatch(RemoveById) == RunUpdate("delete from item where id = ?")
  {
    RowTypeNameContainsHashMap();
  }

  /** The element-type test is a substring test: a list of `LinkedHashMap` rows is
      accepted, a list of a row class is rejected. */
  lemma ElementTypeIsSubstringTest(args: Args, db: Backend)
    ensures var linked := DaoMethod(Some("select * from item"), None, None, None,
                                    ParamList("java.util.Linked" + "HashMap" + "<java.lang.String, java.lang.Object>"));
      Invoke(linked, args, db) == Returns(RowList(SelectOutcome("select * from item", args, db)))
    ensures var typed := DaoMethod(Some("select * from item"), None, None, None, ParamList("top.cloudli.orm.Item"));
      Invoke(typed, args, db) == Throws(UnsupportedDataType(UnsupportedMessage))
  {
    ContainsInfix("java.util.Linked", "HashMap", "<java.lang.String, java.lang.Object>");
    NotContainsWithoutFirstChar("top.cloudli.orm.Item", "HashMap");
  }

  /** `add("NewItem")` binds the name to placeholder 1, asks for generated keys,
      and returns the generated key; when no key comes back it returns the row count. */
  lemma AddReturnsGeneratedKey(id: Int64, count: Int32)
    ensures Submission("insert into item(name) values(?)", Some([Text("NewItem")]), true)
      == Request("insert into item(name) values(?)", map[1 := Text("NewItem")], true)
    ensures Invoke(Add, Some([Text("NewItem")]), Backend(NoFault, req => Response(Table([], []), count, [id])))
      == Returns(Boxed(id))
    ensures Invoke(Add, Some([Text("NewItem")]), Backend(NoFault, req => Response(Table([], []), count, [])))
      == Returns(Boxed(count))
  {
  }

  /** When the connection cannot be obtained, `add` answers null and `update`
      answers 0: the failure is swallowed. */
  lemma FailuresAreSwallowed(answer: Request -> Response)
    ensures Invoke(Add, Some([Text("NewItem")]), Backend(AtConnect, answer)) == Returns(NullRef)
    ensures Invoke(UpdateName, Some([Text("UpdatedItem"), Integer(1)]), Backend(AtConnect, answer)) == Returns(Boxed(0))
    ensures Invoke(GetAll, None, Backend(AtConnect, answer)) == Returns(RowList([]))
  {
    ItemDaoPlans();
  }

  /** `update("UpdatedItem", id)` binds name to 1 and id to 2 and returns the
      reported count; `removeById(id)` runs its own DELETE through the same executor. */
  lemma UpdateAndRemove(id: int, count: Int32)
    ensures Submission("update item set name = ? where id = ?", Some([Text("UpdatedItem"), Integer(id)]), false)
      == Request("update item set name = ? where id = ?", map[1 := Text("UpdatedItem"), 2 := Integer(id)], false)
    ensures Invoke(UpdateName, Some([Text("UpdatedItem"), Integer(id)]),
                   Backend(NoFault, req => Response(Table([], []), count, []))) == Returns(Boxed(count))
    ensures Invoke(RemoveById, Some([Integer(id)]),
                   Backend(NoFault, req => Response(Table([], []), count, []))) == Returns(Boxed(count))
  {
    ItemDaoPlans();
    var values := [Text("UpdatedItem"), Integer(id)];
    assert Positional(values, 1) == map[1 := Text("UpdatedItem")];
    assert Positional(values, 2) == Positional(values, 1)[2 := Integer(id)];
  }

  /** `getById(id)` returns the one matching row as a map, and fails with an index
      error, not a null or empty row, once the row has been removed. */
  lemma GetByIdFoundAndMissing(id: int)
    ensures var found := Table(["id", "name"], [[Integer(id), Text("UpdatedItem")]]);
      Invoke(GetById, Some([Integer(id)]), Backend(NoFault, req => Response(found, 0, [])))
        == Returns(RowMap(map["id" := Integer(id), "name" := Text("UpdatedItem")]))
    ensures Invoke(GetById, Some([Integer(id)]), Backend(NoFault, req => Response(Table([], []), 0, [])))
      == Throws(IndexOutOfBounds(0, 0))
  {
    ItemDaoPlans();
    var found := Table(["id", "name"], [[Integer(id), Text("UpdatedItem")]]);
    var db := Backend(NoFault, req => Response(found, 0, []));
    SingleRowSelect(GetById, Some([Integer(id)]), db);
    assert RowUpTo(found.columns, found.rows[0], 1) == map["id" := Integer(id)];
    assert RowUpTo(found.columns, found.rows[0], 2) == map["id" := Integer(id), "name" := Text("UpdatedItem")];
  }
}
