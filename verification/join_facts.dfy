/**
  Properties of the join resolver over whole join chains: outer joins never
  move their non-preserved side into WHERE, a RIGHT join hands WHERE to its
  right table, and a shared trailing ON list is paired latest-join-first.
*/
module JoinFacts {
  import opened Ast
  import opened Scope
  import opened Injector
  import opened InjectorFacts
  import opened Joins
  import opened Processor

  /**
    An ON predicate is either left alone or becomes the left operand of an
    AND with the filters (parenthesised when it is an OR): the join
    condition itself is never weakened.
  */
  lemma PairedOnKeepsPredicate(e: Expr, targets: Option<seq<Table>>, env: Env)
    requires env.stack != []
    ensures var r := PairedOn(e, targets, env);
      r == e || (r.Binary? && r.op == AndOp && r.left == (if IsOr(e) then Paren(e) else e))
  {
  }

  /**
    An ON predicate paired with a non-empty target list: left alone when no
    target has a filter, otherwise the predicate (parenthesised if an OR)
    AND the chain of the targets' filters in target order.
  */
  lemma PairedOnInjectsFilters(e: Expr, targets: seq<Table>, env: Env)
    requires env.stack != [] && targets != []
    ensures var fs := Filters(Peek(env.stack), env.bare, targets);
      var r := PairedOn(e, Some(targets), env);
      && (fs == [] ==> r == e)
      && (fs != [] ==>
            && r.Binary? && r.op == AndOp
            && r.left == (if IsOr(e) then Paren(e) else e)
            && Operands(r.right, |fs|) == Some(fs))
  {
    var fs := Filters(Peek(env.stack), env.bare, targets);
    if fs != [] {
      InjectConjoinsFilters(Some(e), targets, env);
    }
  }

  /**
    A non-comma join is classified by the first table of its right-hand
    side alone: the other tables of a join group are neither ON targets nor
    main tables.
  */
  lemma ResolveUsesFirstTable(st: JoinState, j: Join, tables: seq<Table>, env: Env)
    requires env.stack != [] && j.kind != Comma && tables != []
    ensures Resolve(st, j, tables, env) == Resolve(st, j, [tables[0]], env)
  {
  }

  /**
    A plain table joined by LEFT, FULL, CROSS or a bare `JOIN`: the kinds
    that are neither a comma, RIGHT nor INNER, and so keep the main tables.
  */
  predicate NonInnerTableJoin(j: Join) {
    j.right.TableItem? && (j.kind == Left || j.kind == Full || j.kind == Cross || j.kind == Unmarked)
  }

  /** One such join of a table: the main tables stay, its single ON gets its own table's filter. */
  lemma NonInnerJoinStep(st: JoinState, j: Join, env: Env)
    requires env.stack != [] && Coherent(st) && NonInnerTableJoin(j)
    ensures var r := JoinStep(st, j, env);
      && r.Success?
      && Coherent(r.value.0)
      && r.value.0.mainTables == st.mainTables
      && (|j.on| == 1 ==> r.value.1.on == [PairedOn(j.on[0], Some([j.right.table]), env)])
  {
    var cl := Classify(st, j.kind, j.right.table);
    var at := AttachOn(cl.0, j.on, j.right.table, cl.1, env);
    assert Resolve(st, j, [j.right.table], env) == Success((at.0, j.(on := at.1)));
  }

  /**
    A chain of LEFT/FULL/CROSS/bare joins of tables never adds a joined
    table to the WHERE-level main tables (for an outer join that would drop
    the NULL-padded rows), and each single ON predicate is filtered for its
    own right table.
  */
  lemma {:induction false} NonInnerChainKeepsMainTables(st: JoinState, joins: seq<Join>, env: Env)
    requires env.stack != [] && Coherent(st)
    requires forall k | 0 <= k < |joins| :: NonInnerTableJoin(joins[k])
    ensures ProcessJoins(st, joins, env).Success?
    ensures ProcessJoins(st, joins, env).value.0.mainTables == st.mainTables
    ensures forall k | 0 <= k < |joins| && joins[k].right.TableItem? && |joins[k].on| == 1 ::
      ProcessJoins(st, joins, env).value.1[k].on == [PairedOn(joins[k].on[0], Some([joins[k].right.table]), env)]
    decreases |joins|
  {
    if joins != [] {
      var j := joins[0];
      NonInnerJoinStep(st, j, env);
      var first := JoinStep(st, j, env).value;
      var tail := joins[1..];
      assert forall k | 0 <= k < |tail| :: tail[k] == joins[k + 1];
      NonInnerChainKeepsMainTables(first.0, tail, env);
      var rest := ProcessJoins(first.0, tail, env).value;
      var all := ProcessJoins(st, joins, env);
      assert all == Success((rest.0, [first.1] + rest.1));
      forall k | 0 <= k < |joins| && joins[k].right.TableItem? && |joins[k].on| == 1
        ensures all.value.1[k].on == [PairedOn(joins[k].on[0], Some([joins[k].right.table]), env)]
      {
        if k > 0 {
          assert all.value.1[k] == rest.1[k - 1];
        }
      }
    }
  }

  /**
    A RIGHT join of a table makes it the only main table, whatever came
    before, and filters only the known left table in its ON clause.
  */
  lemma RightJoinHandsWhereToRightTable(st: JoinState, t: Table, p: Expr, env: Env)
    requires env.stack != []
    ensures var r := JoinStep(st, Join(TableItem(t), Right, [p]), env);
      && r.Success?
      && r.value.0.mainTables == [t]
      && r.value.0.mainTable == Some(t)
      && r.value.1.on == (if st.leftTable.Some? then [PairedOn(p, Some([st.leftTable.value]), env)] else [p])
  {
  }

  /**
    An INNER join of a table, from any state: no table is left for WHERE,
    and its targets are the known main table (if any) and the joined
    table. A single ON is filtered for them at once; without an ON they are
    pushed for a later trailing predicate.
  */
  lemma InnerJoinStep(st: JoinState, t: Table, on: seq<Expr>, env: Env)
    requires env.stack != [] && |on| <= 1
    ensures var targets := if st.mainTable.Some? then [st.mainTable.value, t] else [t];
      var r := JoinStep(st, Join(TableItem(t), Inner, on), env);
      && r.Success?
      && r.value.0.mainTables == [] && r.value.0.mainTable == None
      && r.value.0.leftTable == Some(t)
      && (|on| == 1 ==> r.value.1.on == [PairedOn(on[0], Some(targets), env)] && r.value.0.pending == st.pending)
      && (on == [] ==> r.value.1.on == [] && r.value.0.pending == [Some(targets)] + st.pending)
  {
  }

  /** `a INNER JOIN b` with no ON of its own: the pair `a, b` is pushed for a later ON. */
  lemma InnerJoinWithoutOnPushesPair(a: Table, b: Table, env: Env)
    requires env.stack != []
    ensures JoinStep(Start([a]), Join(TableItem(b), Inner, []), env)
      == Success((JoinState([], None, Some(b), [Some([a, b])]), Join(TableItem(b), Inner, [])))
  {
    var st0 := Start([a]);
    assert st0 == JoinState([a], Some(a), Some(a), []);
    var cl := Classify(st0, Inner, b);
    assert cl == (JoinState([], None, Some(a), []), Some([a, b]));
    var at := AttachOn(cl.0, [], b, cl.1, env);
    assert at.0.pending == [Some([a, b])] + [] == [Some([a, b])];
    assert at == (JoinState([], None, Some(b), [Some([a, b])]), []);
  }

  /**
    `... INNER JOIN c ON x ON y` after a pushed `[a, b]`: `x` pops the targets
    pushed for `c` itself, `y` the pair pushed before.
  */
  lemma InnerJoinPairsTrailingOn(a: Table, b: Table, c: Table, x: Expr, y: Expr, env: Env)
    requires env.stack != []
    ensures JoinStep(JoinState([], None, Some(b), [Some([a, b])]), Join(TableItem(c), Inner, [x, y]), env)
      == Success((JoinState([], None, Some(c), []),
                  Join(TableItem(c), Inner, [PairedOn(x, Some([c]), env), PairedOn(y, Some([a, b]), env)])))
  {
    var st := JoinState([], None, Some(b), [Some([a, b])]);
    var cl := Classify(st, Inner, c);
    assert cl == (st, Some([c]));
    var at := AttachOn(cl.0, [x, y], c, cl.1, env);
    assert at.1 == [PairedOn(x, Some([c]), env), PairedOn(y, Some([a, b]), env)];
    assert at.0 == JoinState([], None, Some(c), []);
  }

  /** The fold over `[j] + rest`: the step for `j`, then the fold over `rest`. */
  lemma ProcessJoinsCons(st: JoinState, j: Join, rest: seq<Join>, env: Env)
    requires env.stack != []
    requires JoinStep(st, j, env).Success?
    requires ProcessJoins(JoinStep(st, j, env).value.0, rest, env).Success?
    ensures var first := JoinStep(st, j, env).value;
      var tail := ProcessJoins(first.0, rest, env).value;
      ProcessJoins(st, [j] + rest, env) == Success((tail.0, [first.1] + tail.1))
  {
    assert ([j] + rest)[0] == j;
    assert ([j] + rest)[1..] == rest;
  }

  /** The fold over the last join alone, from the state `a INNER JOIN b` leaves. */
  lemma TrailingJoinFold(a: Table, b: Table, c: Table, x: Expr, y: Expr, env: Env)
    requires env.stack != []
    ensures ProcessJoins(JoinState([], None, Some(b), [Some([a, b])]), [Join(TableItem(c), Inner, [x, y])], env)
      == Success((JoinState([], None, Some(c), []),
                  [Join(TableItem(c), Inner, [PairedOn(x, Some([c]), env), PairedOn(y, Some([a, b]), env)])]))
  {
    var st1 := JoinState([], None, Some(b), [Some([a, b])]);
    var jc := Join(TableItem(c), Inner, [x, y]);
    var st2 := JoinState([], None, Some(c), []);
    var jc' := Join(TableItem(c), Inner, [PairedOn(x, Some([c]), env), PairedOn(y, Some([a, b]), env)]);
    InnerJoinPairsTrailingOn(a, b, c, x, y, env);
    assert ProcessJoins(st2, [], env) == Success((st2, []));
    ProcessJoinsCons(st1, jc, [], env);
    assert [jc] + [] == [jc];
    assert [jc'] + [] == [jc'];
  }

  /**
    `a INNER JOIN b INNER JOIN c ON x ON y`: both predicates trail the last join. The
    first goes to the latest join (`c`), the second to the one before
    (`a` and `b`), and no table is left for WHERE.
  */
  lemma SharedTailPairsLatestFirst(a: Table, b: Table, c: Table, x: Expr, y: Expr, env: Env)
    requires env.stack != []
    ensures ProcessJoins(Start([a]), [Join(TableItem(b), Inner, []), Join(TableItem(c), Inner, [x, y])], env)
      == Success((JoinState([], None, Some(c), []),
                  [Join(TableItem(b), Inner, []),
                   Join(TableItem(c), Inner, [PairedOn(x, Some([c]), env), PairedOn(y, Some([a, b]), env)])]))
  {
    var jb := Join(TableItem(b), Inner, []);
    var jc := Join(TableItem(c), Inner, [x, y]);
    InnerJoinWithoutOnPushesPair(a, b, env);
    TrailingJoinFold(a, b, c, x, y, env);
    ProcessJoinsCons(Start([a]), jb, [jc], env);
    assert [jb] + [jc] == [jb, jc];
    assert [jb] + [Join(TableItem(c), Inner, [PairedOn(x, Some([c]), env), PairedOn(y, Some([a, b]), env)])]
      == [jb, Join(TableItem(c), Inner, [PairedOn(x, Some([c]), env), PairedOn(y, Some([a, b]), env)])];
  }

  /**
    A RIGHT join with no known left table (here, after a derived table)
    pushes a null target: its single ON predicate is left alone.
  */
  lemma RightJoinWithoutLeftTableLeavesOn(st: JoinState, t: Table, p: Expr, env: Env)
    requires env.stack != [] && st.leftTable.None?
    ensures var r := JoinStep(st, Join(TableItem(t), Right, [p]), env);
      && r.Success?
      && r.value.1.on == [p]
      && r.value.0.pending == [None] + st.pending
      && r.value.0.leftTable == Some(t)
  {
  }
}
