/** The positional binder that `select`, `update` and `insert` each run on the
    statement they prepare: argument i goes to placeholder i + 1. */
module Binder {
  import opened Jdbc

  /** The parameter table after the first `n` arguments have been set, one
      index at a time in ascending order. */
  function Positional(values: seq<Value>, n: nat): (table: map<int, Value>)
    requires n <= |values|
  {
    if n == 0 then map[] else Positional(values, n - 1)[n := values[n - 1]]
  }

  /** The parameter table after a complete binding; a null array binds nothing. */
  function ParameterTable(args: Args): (table: map<int, Value>)
  {
    match args
    case None => map[]
    case Some(values) => Positional(values, |values|)
  }

  /** Binding throws: `setObject` fails on an index the arguments reach. */
  predicate BindFails(args: Args, fault: Fault)
  {
    args.Some? && fault.AtBind? && fault.index < |args.value|
  }

  /** The parameter table at the moment binding stops, completed or not. */
  function BoundBeforeFault(args: Args, fault: Fault): (table: map<int, Value>)
  {
    match args
    case None => map[]
    case Some(values) =>
      if BindFails(args, fault) then Positional(values, fault.index) else Positional(values, |values|)
  }

  /** Exactly the indices 1..n are bound, index i + 1 to `values[i]`. */
  lemma {:induction false} PositionalExact(values: seq<Value>, n: nat)
    requires n <= |values|
    ensures forall k :: k in Positional(values, n) <==> 1 <= k <= n
    ensures forall i :: 0 <= i < n ==> Positional(values, n)[i + 1] == values[i]
  {
    if n > 0 {
      PositionalExact(values, n - 1);
    }
  }

  /** With a non-null array, index i + 1 holds exactly `args[i]` for every
      i < args.length and no other index is set; with a null array nothing is. */
  lemma ParameterTableExact(args: Args)
    ensures args.None? ==> ParameterTable(args) == map[]
    ensures args.Some? ==>
      && (forall i :: 0 <= i < |args.value| ==> i + 1 in ParameterTable(args) && ParameterTable(args)[i + 1] == args.value[i])
      && (forall k :: k in ParameterTable(args) ==> 1 <= k <= |args.value|)
  {
    if args.Some? {
      PositionalExact(args.value, |args.value|);
      assert ParameterTable(args) == Positional(args.value, |args.value|);
    }
  }

  /** The loop `for (i = 0; i < args.length; i++) statement.setObject(i + 1, args[i])`,
      skipped for a null array; it stops at the first `setObject` that throws. */
  method Bind(statement: PreparedStatement, args: Args, fault: Fault) returns (ok: bool)
    modifies statement
    ensures ok <==> !BindFails(args, fault)
    ensures statement.parameters == old(statement.parameters) + BoundBeforeFault(args, fault)
  {
    ok := true;
    if args.Some? {
      var values := args.value;
      var i := 0;
      while i < |values|
        invariant 0 <= i <= |values|
        invariant statement.parameters == old(statement.parameters) + Positional(values, i)
        invariant BindFails(args, fault) ==> i <= fault.index
      {
        if fault == AtBind(i) {
          ok := false;
          return;
        }
        statement.SetObject(i + 1, values[i]);
        i := i + 1;
      }
    }
  }
}
