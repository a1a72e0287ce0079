/**
  The join resolver's per-join decisions: which tables a join's ON clause
  filters, which tables survive to the WHERE-level main-table list, and how
  a trailing list of ON predicates shared by several joins is paired with
  the joins it belongs to.
*/
module Joins {
  import opened Ast
  import opened Scope
  import opened Injector

  /**
    State carried from one join to the next:
    - `mainTables`: the tables still to be filtered in WHERE;
    - `mainTable`: the table that ends up the driving (main) table, if known;
    - `leftTable`: the table just left of the next join, if known;
    - `pending`: ON targets of joins whose predicates come later in a shared
      trailing list, most recent first; a null entry marks a join whose ON
      must be left alone.
  */
  datatype JoinState = JoinState(
    mainTables: seq<Table>,
    mainTable: Option<Table>,
    leftTable: Option<Table>,
    pending: seq<Option<seq<Table>>>)

  /** The main table, when known, is one of the main tables. */
  predicate Coherent(st: JoinState) {
    st.mainTable.Some? ==> st.mainTable.value in st.mainTables
  }

  /**
    The state before the first join: a FROM item that yields exactly one
    table makes it both the main table and the first left table.
  */
  function Start(mainTables: seq<Table>): (st: JoinState)
    ensures st.mainTables == mainTables && st.pending == []
    ensures st.leftTable == st.mainTable
    ensures st.mainTable.Some? <==> |mainTables| == 1
    ensures Coherent(st)
  {
    if |mainTables| == 1 then JoinState(mainTables, Some(mainTables[0]), Some(mainTables[0]), [])
    else JoinState(mainTables, None, None, [])
  }

  /**
    Where a non-comma join's filters go, given its first right-hand table:
    the ON targets (null when nothing may be filtered there) and the updated
    main-table bookkeeping.
  */
  function Classify(st: JoinState, kind: JoinKind, joinTable: Table): (out: (JoinState, Option<seq<Table>>))
    requires kind != Comma
    ensures out.0.leftTable == st.leftTable && out.0.pending == st.pending
    ensures kind == Right ==>
      && out.0.mainTables == [joinTable]
      && out.0.mainTable == Some(joinTable)
      && out.1 == (if st.leftTable.Some? then Some([st.leftTable.value]) else None)
    ensures kind == Inner ==>
      && out.0.mainTables == []
      && out.0.mainTable == None
      && out.1 == Some(if st.mainTable.Some? then [st.mainTable.value, joinTable] else [joinTable])
    ensures kind != Right && kind != Inner ==>
      && out.1 == Some([joinTable])
      && out.0.mainTable == st.mainTable
      && out.0.mainTables == st.mainTables +
           (if st.mainTable.Some? && st.mainTable.value !in st.mainTables then [st.mainTable.value] else [])
    ensures Coherent(out.0)
    ensures Coherent(st) && kind != Right && kind != Inner ==> out.0.mainTables == st.mainTables
  {
    var (mainTable, mainTables, targets) :=
      if kind == Right then
        (Some(joinTable), [], if st.leftTable.Some? then Some([st.leftTable.value]) else None)
      else if kind == Inner then
        (None, [], Some(if st.mainTable.Some? then [st.mainTable.value, joinTable] else [joinTable]))
      else
        (st.mainTable, st.mainTables, Some([joinTable]));
    var mainTables' :=
      if mainTable.Some? && mainTable.value !in mainTables then mainTables + [mainTable.value] else mainTables;
    (st.(mainTable := mainTable, mainTables := mainTables'), targets)
  }

  /**
    One trailing ON predicate with the targets popped for it: a null or
    empty target list leaves the predicate alone.
  */
  function PairedOn(e: Expr, targets: Option<seq<Table>>, env: Env): (r: Expr)
    requires env.stack != []
    ensures targets.None? || targets.value == [] ==> r == e
  {
    if targets.None? || targets.value == [] then e else Inject(Some(e), targets.value, env).value
  }

  /** The target list the `k`-th pop takes from `pending` (null once it is exhausted). */
  function PoppedAt(pending: seq<Option<seq<Table>>>, k: nat): Option<seq<Table>> {
    if k < |pending| then pending[k] else None
  }

  function Min(a: nat, b: nat): nat {
    if a <= b then a else b
  }

  /**
    `n` pops from the pushed target lists, most recent first: the lists
    popped, in order, and what is left. Pops beyond the pushed lists yield
    null.
  */
  function Pops(n: nat, pending: seq<Option<seq<Table>>>): (out: (seq<Option<seq<Table>>>, seq<Option<seq<Table>>>))
    ensures |out.0| == n
    ensures forall k | 0 <= k < n :: out.0[k] == PoppedAt(pending, k)
    ensures out.1 == pending[Min(n, |pending|)..]
    decreases n
  {
    if n == 0 then ([], pending)
    else
      var top := PoppedAt(pending, 0);
      var rest := if pending == [] then [] else pending[1..];
      var tail := Pops(n - 1, rest);
      ([top] + tail.0, tail.1)
  }

  /**
    A trailing list of ON predicates: each predicate, in order, pops the most
    recently pushed target list, so the first predicate goes to the latest
    join.
  */
  function PairTail(on: seq<Expr>, pending: seq<Option<seq<Table>>>, env: Env): (out: (seq<Expr>, seq<Option<seq<Table>>>))
    requires env.stack != []
    ensures |out.0| == |on|
    ensures forall k | 0 <= k < |on| :: out.0[k] == PairedOn(on[k], PoppedAt(pending, k), env)
    ensures out.1 == pending[Min(|on|, |pending|)..]
  {
    var popped := Pops(|on|, pending);
    (seq(|on|, k requires 0 <= k < |on| => PairedOn(on[k], popped.0[k], env)), popped.1)
  }

  /**
    The ON handling of one classified join. A single predicate with known
    targets is rewritten at once; otherwise the targets are pushed, and a
    list of several predicates is paired with the pushed targets.
  */
  function AttachOn(st: JoinState, on: seq<Expr>, joinTable: Table, targets: Option<seq<Table>>, env: Env)
    : (out: (JoinState, seq<Expr>))
    requires env.stack != []
    ensures |out.1| == |on|
    ensures out.0.mainTables == st.mainTables && out.0.mainTable == st.mainTable
    ensures |on| == 1 && targets.Some? ==>
      && out.1 == [PairedOn(on[0], targets, env)]
      && out.0.pending == st.pending
      && out.0.leftTable == (if st.mainTable.Some? then st.mainTable else Some(joinTable))
    ensures !(|on| == 1 && targets.Some?) ==> out.0.leftTable == Some(joinTable)
    ensures |on| <= 1 && !(|on| == 1 && targets.Some?) ==>
      out.1 == on && out.0.pending == [targets] + st.pending
    ensures |on| > 1 ==>
      && out.1[0] == PairedOn(on[0], targets, env)
      && (forall k | 1 <= k < |on| :: out.1[k] == PairedOn(on[k], PoppedAt(st.pending, k - 1), env))
      && out.0.pending == st.pending[Min(|on| - 1, |st.pending|)..]
  {
    if |on| == 1 && targets.Some? then
      var leftTable := if st.mainTable.Some? then st.mainTable else Some(joinTable);
      (st.(leftTable := leftTable), [PairedOn(on[0], targets, env)])
    else
      var pushed := [targets] + st.pending;
      if |on| > 1 then
        var paired := PairTail(on, pushed, env);
        assert forall k | 1 <= k < |on| :: PoppedAt(pushed, k) == PoppedAt(st.pending, k - 1);
        assert pushed[Min(|on|, |pushed|)..] == st.pending[Min(|on| - 1, |st.pending|)..];
        (st.(pending := paired.1, leftTable := Some(joinTable)), paired.0)
      else
        (st.(pending := pushed, leftTable := Some(joinTable)), on)
  }

  /**
    One join whose right side resolved to `tables` (a table, or the main
    tables of a parenthesised group). A comma join only adds its tables to
    the main tables; any other join needs a first table to classify.
  */
  function Resolve(st: JoinState, j: Join, tables: seq<Table>, env: Env): (r: Result<(JoinState, Join)>)
    requires env.stack != []
    ensures r.Failure? <==> j.kind != Comma && tables == []
    ensures j.kind == Comma ==> r == Success((st.(mainTables := st.mainTables + tables), j))
    ensures r.Success? ==>
      && r.value.1.right == j.right && r.value.1.kind == j.kind
      && |r.value.1.on| == |j.on|
    ensures r.Success? && Coherent(st) ==> Coherent(r.value.0)
  {
    if j.kind == Comma then
      Success((st.(mainTables := st.mainTables + tables), j))
    else if tables == [] then
      Failure(EmptyJoinGroup)
    else
      var (st1, targets) := Classify(st, j.kind, tables[0]);
      var (st2, on) := AttachOn(st1, j.on, tables[0], targets, env);
      Success((st2, j.(on := on)))
  }
}
