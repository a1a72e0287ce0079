/**
  Whole-statement behaviour of the rewrite on common statement shapes: a
  single table, an OR condition, LEFT, RIGHT, INNER and comma
  joins, a joined group, a comma join followed by INNER, UPDATE, an IN sub-select, a UNION, and a second rewrite of an
  already rewritten statement. Rules are arbitrary: each lemma holds for
  every set of active rules, with the filters they build written `Inject`.
*/
module Scenarios {
  import opened Ast
  import opened Scope
  import opened Injector
  import opened InjectorFacts
  import opened Joins
  import opened JoinFacts
  import opened Processor
  import opened Dispatch

  /** A select list and WHERE clause with no nested statement in them. */
  predicate Flat(items: seq<Expr>, where: Option<Expr>) {
    && (forall k | 0 <= k < |items| :: !MentionsSelect(items[k]))
    && (where.Some? ==> !MentionsSelect(where.value))
  }

  /**
    A plain select over one table and a join chain: the joins are resolved
    from that table, and whatever main tables survive are filtered in WHERE.
  */
  lemma PlainOverTable(items: seq<Expr>, t: Table, joins: seq<Join>, where: Option<Expr>, env: Env,
                       st: JoinState, joins': seq<Join>)
    requires env.stack != [] && Flat(items, where)
    requires joins == [] ==> st == Start([t]) && joins' == []
    requires joins != [] ==> ProcessJoins(Start([t]), joins, env) == Success((st, joins'))
    ensures ProcessBody(Plain(items, Some(TableItem(t)), joins, where), env)
      == Success(Plain(items, Some(TableItem(t)), joins',
                       if st.mainTables != [] then Inject(where, st.mainTables, env) else where))
  {
    assert ProcessSelectItems(items, env) == Success(items);
    assert ScanWhereOpt(where, env) == Success(where);
    assert ProcessFromOpt(Some(TableItem(t)), env) == Success(([t], Some(TableItem(t))));
  }

  /** `SELECT .. FROM t [WHERE w]`: the filter of `t` goes into WHERE. */
  lemma SingleTableFilteredInWhere(items: seq<Expr>, t: Table, where: Option<Expr>, env: Env)
    requires env.stack != [] && Flat(items, where)
    ensures ProcessBody(Plain(items, Some(TableItem(t)), [], where), env)
      == Success(Plain(items, Some(TableItem(t)), [], Inject(where, [t], env)))
  {
    PlainOverTable(items, t, [], where, env, Start([t]), []);
  }

  /**
    `SELECT * FROM t` with one rule building `p` for `t`: the WHERE clause is
    exactly `p`.
  */
  lemma SingleTableGetsExactlyItsFilter(items: seq<Expr>, t: Table, p: Expr, env: Env)
    requires env.stack != [] && Flat(items, None)
    requires TableFilter(Peek(env.stack), env.bare, t) == Some(p)
    ensures ProcessBody(Plain(items, Some(TableItem(t)), [], None), env)
      == Success(Plain(items, Some(TableItem(t)), [], Some(p)))
  {
    SingleTableFilteredInWhere(items, t, None, env);
    assert Filters(Peek(env.stack), env.bare, [t]) == [p];
  }

  /** `SELECT * FROM t WHERE a OR b`: the result is `(a OR b) AND p`. */
  lemma OrConditionIsParenthesised(items: seq<Expr>, t: Table, a: Expr, b: Expr, p: Expr, env: Env)
    requires env.stack != [] && Flat(items, Some(Binary(OrOp, a, b)))
    requires TableFilter(Peek(env.stack), env.bare, t) == Some(p)
    ensures ProcessBody(Plain(items, Some(TableItem(t)), [], Some(Binary(OrOp, a, b))), env)
      == Success(Plain(items, Some(TableItem(t)), [], Some(And(Paren(Binary(OrOp, a, b)), p))))
  {
    SingleTableFilteredInWhere(items, t, Some(Binary(OrOp, a, b)), env);
    assert Filters(Peek(env.stack), env.bare, [t]) == [p];
  }

  /**
    `FROM a LEFT JOIN b ON c`: `b` (the NULL-padded side) is filtered in ON
    only; WHERE filters `a` alone. FULL, CROSS and a bare `JOIN` take the
    same branch and are rewritten the same way.
  */
  lemma LeftJoinFiltersRightSideInOn(items: seq<Expr>, a: Table, b: Table, kind: JoinKind, c: Expr,
                                     where: Option<Expr>, env: Env)
    requires env.stack != [] && Flat(items, where)
    requires kind == Left || kind == Full || kind == Cross || kind == Unmarked
    ensures ProcessBody(Plain(items, Some(TableItem(a)), [Join(TableItem(b), kind, [c])], where), env)
      == Success(Plain(items, Some(TableItem(a)), [Join(TableItem(b), kind, [PairedOn(c, Some([b]), env)])],
                       Inject(where, [a], env)))
  {
    var j := Join(TableItem(b), kind, [c]);
    var st := JoinState([a], Some(a), Some(a), []);
    var j' := Join(TableItem(b), kind, [PairedOn(c, Some([b]), env)]);
    assert Start([a]) == st;
    var cl := Classify(st, kind, b);
    assert cl == (st, Some([b]));
    assert JoinStep(st, j, env) == Success((st, j'));
    assert ProcessJoins(st, [], env) == Success((st, []));
    ProcessJoinsCons(st, j, [], env);
    assert [j] + [] == [j] && [j'] + [] == [j'];
    PlainOverTable(items, a, [j], where, env, st, [j']);
  }

  /**
    `FROM a RIGHT JOIN b ON c`: `a` (the NULL-padded side) is filtered in ON;
    WHERE filters the preserved side `b`.
  */
  lemma RightJoinFiltersLeftSideInOn(items: seq<Expr>, a: Table, b: Table, c: Expr, where: Option<Expr>, env: Env)
    requires env.stack != [] && Flat(items, where)
    ensures ProcessBody(Plain(items, Some(TableItem(a)), [Join(TableItem(b), Right, [c])], where), env)
      == Success(Plain(items, Some(TableItem(a)), [Join(TableItem(b), Right, [PairedOn(c, Some([a]), env)])],
                       Inject(where, [b], env)))
  {
    var j := Join(TableItem(b), Right, [c]);
    var st := JoinState([a], Some(a), Some(a), []);
    var st' := JoinState([b], Some(b), Some(b), []);
    var j' := Join(TableItem(b), Right, [PairedOn(c, Some([a]), env)]);
    assert Start([a]) == st;
    var cl := Classify(st, Right, b);
    assert cl.0.mainTables == [] + [b] == [b];
    assert cl == (JoinState([b], Some(b), Some(a), []), Some([a]));
    assert JoinStep(st, j, env) == Success((st', j'));
    assert ProcessJoins(st', [], env) == Success((st', []));
    ProcessJoinsCons(st, j, [], env);
    assert [j] + [] == [j] && [j'] + [] == [j'];
    PlainOverTable(items, a, [j], where, env, st', [j']);
  }

  /** `FROM a INNER JOIN b ON c`: both tables are filtered in ON; WHERE is left alone. */
  lemma InnerJoinFiltersBothInOn(items: seq<Expr>, a: Table, b: Table, c: Expr, where: Option<Expr>, env: Env)
    requires env.stack != [] && Flat(items, where)
    ensures ProcessBody(Plain(items, Some(TableItem(a)), [Join(TableItem(b), Inner, [c])], where), env)
      == Success(Plain(items, Some(TableItem(a)), [Join(TableItem(b), Inner, [PairedOn(c, Some([a, b]), env)])],
                       where))
  {
    var j := Join(TableItem(b), Inner, [c]);
    var st := JoinState([a], Some(a), Some(a), []);
    var st' := JoinState([], None, Some(b), []);
    var j' := Join(TableItem(b), Inner, [PairedOn(c, Some([a, b]), env)]);
    assert Start([a]) == st;
    var cl := Classify(st, Inner, b);
    assert cl == (JoinState([], None, Some(a), []), Some([a, b]));
    assert JoinStep(st, j, env) == Success((st', j'));
    assert ProcessJoins(st', [], env) == Success((st', []));
    ProcessJoinsCons(st, j, [], env);
    assert [j] + [] == [j] && [j'] + [] == [j'];
    PlainOverTable(items, a, [j], where, env, st', [j']);
  }

  /**
    `FROM a LEFT JOIN (b, d) ON x`: only the group's first table `b` is
    filtered, in ON; WHERE filters `a` alone, so `d` is filtered nowhere.
    FULL, CROSS and a bare `JOIN` take the same branch.
  */
  lemma JoinedGroupFiltersOnlyItsFirstTable(items: seq<Expr>, a: Table, b: Table, d: Table, kind: JoinKind, x: Expr,
                                            where: Option<Expr>, env: Env)
    requires env.stack != [] && Flat(items, where)
    requires kind == Left || kind == Full || kind == Cross || kind == Unmarked
    ensures var g := Group(TableItem(b), Joined([Join(TableItem(d), Comma, [])]));
      ProcessBody(Plain(items, Some(TableItem(a)), [Join(g, kind, [x])], where), env)
      == Success(Plain(items, Some(TableItem(a)), [Join(g, kind, [PairedOn(x, Some([b]), env)])],
                       Inject(where, [a], env)))
  {
    var jd := Join(TableItem(d), Comma, []);
    var g := Group(TableItem(b), Joined([jd]));
    // the group: `b` starts its chain and the comma adds `d`
    var sb := JoinState([b], Some(b), Some(b), []);
    var sbd := JoinState([b, d], Some(b), Some(b), []);
    assert Start([b]) == sb;
    assert [b] + [d] == [b, d];
    assert JoinStep(sb, jd, env) == Success((sbd, jd));
    assert ProcessJoins(sbd, [], env) == Success((sbd, []));
    ProcessJoinsCons(sb, jd, [], env);
    assert [jd] + [] == [jd];
    assert SubJoin(g, env) == Success(([b, d], g));
    // the outer join sees `[b, d]` and classifies by `b`
    var j := Join(g, kind, [x]);
    var st := JoinState([a], Some(a), Some(a), []);
    var j' := Join(g, kind, [PairedOn(x, Some([b]), env)]);
    assert Start([a]) == st;
    ResolveUsesFirstTable(st, j, [b, d], env);
    assert Classify(st, kind, b) == (st, Some([b]));
    assert Resolve(st, j, [b], env) == Success((st, j'));
    assert JoinStep(st, j, env) == Success((st, j'));
    assert ProcessJoins(st, [], env) == Success((st, []));
    ProcessJoinsCons(st, j, [], env);
    assert [j] + [] == [j] && [j'] + [] == [j'];
    PlainOverTable(items, a, [j], where, env, st, [j']);
  }

  /**
    `FROM a, b INNER JOIN c ON y`: the comma adds `b` to the main tables,
    the INNER join then clears them and targets only `a` and `c`, so `b` is
    filtered nowhere and WHERE is left alone.
  */
  lemma CommaThenInnerJoinDropsCommaTable(items: seq<Expr>, a: Table, b: Table, c: Table, y: Expr,
                                          where: Option<Expr>, env: Env)
    requires env.stack != [] && Flat(items, where)
    ensures ProcessBody(Plain(items, Some(TableItem(a)), [Join(TableItem(b), Comma, []), Join(TableItem(c), Inner, [y])], where), env)
      == Success(Plain(items, Some(TableItem(a)),
                       [Join(TableItem(b), Comma, []), Join(TableItem(c), Inner, [PairedOn(y, Some([a, c]), env)])],
                       where))
  {
    var jb := Join(TableItem(b), Comma, []);
    var jc := Join(TableItem(c), Inner, [y]);
    var jc' := Join(TableItem(c), Inner, [PairedOn(y, Some([a, c]), env)]);
    var st0 := JoinState([a], Some(a), Some(a), []);
    var st1 := JoinState([a, b], Some(a), Some(a), []);
    var st2 := JoinState([], None, Some(c), []);
    assert Start([a]) == st0;
    assert [a] + [b] == [a, b];
    assert JoinStep(st0, jb, env) == Success((st1, jb));
    assert Classify(st1, Inner, c) == (JoinState([], None, Some(a), []), Some([a, c]));
    assert JoinStep(st1, jc, env) == Success((st2, jc'));
    assert ProcessJoins(st2, [], env) == Success((st2, []));
    ProcessJoinsCons(st1, jc, [], env);
    assert [jc] + [] == [jc] && [jc'] + [] == [jc'];
    ProcessJoinsCons(st0, jb, [jc], env);
    assert [jb] + [jc] == [jb, jc] && [jb] + [jc'] == [jb, jc'];
    PlainOverTable(items, a, [jb, jc], where, env, st2, [jb, jc']);
  }

  /** `FROM a, b`: one WHERE injection carrying the filters of `a` and of `b`. */
  lemma CommaJoinFiltersBothInWhere(items: seq<Expr>, a: Table, b: Table, where: Option<Expr>, env: Env)
    requires env.stack != [] && Flat(items, where)
    ensures ProcessBody(Plain(items, Some(TableItem(a)), [Join(TableItem(b), Comma, [])], where), env)
      == Success(Plain(items, Some(TableItem(a)), [Join(TableItem(b), Comma, [])], Inject(where, [a, b], env)))
  {
    var j := Join(TableItem(b), Comma, []);
    var st := JoinState([a], Some(a), Some(a), []);
    var st' := JoinState([a, b], Some(a), Some(a), []);
    assert Start([a]) == st;
    assert [a] + [b] == [a, b];
    assert JoinStep(st, j, env) == Success((st', j));
    assert ProcessJoins(st', [], env) == Success((st', []));
    ProcessJoinsCons(st, j, [], env);
    assert [j] + [] == [j];
    PlainOverTable(items, a, [j], where, env, st', [j]);
  }

  /** With filters `p` for `a` and `q` for `b`, the comma join's WHERE is `w AND (p AND q)`. */
  lemma CommaJoinConjoinsBothFilters(a: Table, b: Table, p: Expr, q: Expr, w: Expr, env: Env)
    requires env.stack != [] && !IsOr(w)
    requires TableFilter(Peek(env.stack), env.bare, a) == Some(p)
    requires TableFilter(Peek(env.stack), env.bare, b) == Some(q)
    ensures Inject(Some(w), [a, b], env) == Some(And(w, And(p, q)))
  {
    var rules := Peek(env.stack);
    FiltersCons(rules, env.bare, a, [b]);
    assert [a] + [b] == [a, b];
    assert Filters(rules, env.bare, [b]) == [q];
    assert Filters(rules, env.bare, [a, b]) == [p, q];
  }

  /** `UPDATE t SET .. WHERE w` with filter `p` for `t`: `WHERE w AND p`. */
  lemma UpdateAppendsFilter(t: Table, assignments: seq<Expr>, w: Expr, p: Expr, active: seq<Rule>, stack: Stack,
                            bare: string -> string)
    requires !IsOr(w)
    requires TableFilter(active, bare, t) == Some(p)
    ensures Rewrite(Update(t, assignments, Some(w)), active, stack, bare)
      == (Success(Update(t, assignments, Some(And(w, p)))), stack)
  {
    assert Filters(active, bare, [t]) == [p];
  }

  /**
    `SELECT .. FROM x WHERE l IN (inner)`: the nested select is rewritten
    under the same rules, and the outer WHERE gets only `x`'s filter on top.
  */
  lemma InSubSelectRewrittenWithSameRules(items: seq<Expr>, x: Table, l: Expr, inner: SelectBody,
                                          inner': SelectBody, env: Env)
    requires env.stack != [] && Flat(items, None) && !MentionsSelect(l)
    requires ProcessBody(inner, env) == Success(inner')
    ensures ProcessBody(Plain(items, Some(TableItem(x)), [], Some(In(l, SubSelect(inner)))), env)
      == Success(Plain(items, Some(TableItem(x)), [], Inject(Some(In(l, SubSelect(inner'))), [x], env)))
  {
    var w := In(l, SubSelect(inner));
    assert MentionsSelect(w);
    assert ScanWhere(w, env) == Success(In(l, SubSelect(inner')));
    assert ScanWhereOpt(Some(w), env) == Success(Some(In(l, SubSelect(inner'))));
    assert ProcessSelectItems(items, env) == Success(items);
    assert ProcessFromOpt(Some(TableItem(x)), env) == Success(([x], Some(TableItem(x))));
  }

  /** A UNION of two selects over `t`: each branch gets `t`'s filter on its own. */
  lemma UnionBranchesFilteredIndependently(items: seq<Expr>, t: Table, w1: Option<Expr>, w2: Option<Expr>, env: Env)
    requires env.stack != [] && Flat(items, w1) && Flat(items, w2)
    ensures ProcessBody(SetOp([Plain(items, Some(TableItem(t)), [], w1), Plain(items, Some(TableItem(t)), [], w2)]), env)
      == Success(SetOp([Plain(items, Some(TableItem(t)), [], Inject(w1, [t], env)),
                        Plain(items, Some(TableItem(t)), [], Inject(w2, [t], env))]))
  {
    var m1 := Plain(items, Some(TableItem(t)), [], w1);
    var m2 := Plain(items, Some(TableItem(t)), [], w2);
    SingleTableFilteredInWhere(items, t, w1, env);
    SingleTableFilteredInWhere(items, t, w2, env);
    var r := ProcessBody(SetOp([m1, m2]), env);
    assert r.Success?;
    assert r.value.members == [Plain(items, Some(TableItem(t)), [], Inject(w1, [t], env)),
                               Plain(items, Some(TableItem(t)), [], Inject(w2, [t], env))];
  }

  /**
    The rewrite is not idempotent: rewriting `SELECT .. FROM t` twice with a
    filter `p` for `t` yields `p AND p`, not `p`.
  */
  lemma RewriteIsNotIdempotent(items: seq<Expr>, t: Table, p: Expr, env: Env)
    requires env.stack != [] && Flat(items, None) && !MentionsSelect(p) && !IsOr(p)
    requires TableFilter(Peek(env.stack), env.bare, t) == Some(p)
    ensures var once := ProcessBody(Plain(items, Some(TableItem(t)), [], None), env);
      && once == Success(Plain(items, Some(TableItem(t)), [], Some(p)))
      && ProcessBody(once.value, env) == Success(Plain(items, Some(TableItem(t)), [], Some(And(p, p))))
      && ProcessBody(once.value, env) != once
  {
    SingleTableGetsExactlyItsFilter(items, t, p, env);
    SingleTableFilteredInWhere(items, t, Some(p), env);
    assert Filters(Peek(env.stack), env.bare, [t]) == [p];
    assert p < And(p, p);
  }

  /**
    `FROM (t)`: a parenthesised table without joins yields no main table,
    so it is not filtered at all, whatever the rules say about `t`.
  */
  lemma ParenthesisedTableIsNotFiltered(items: seq<Expr>, t: Table, where: Option<Expr>, env: Env)
    requires env.stack != [] && Flat(items, where)
    ensures ProcessBody(Plain(items, Some(Group(TableItem(t), Unjoined)), [], where), env)
      == Success(Plain(items, Some(Group(TableItem(t), Unjoined)), [], where))
  {
    var f := Group(TableItem(t), Unjoined);
    assert ProcessFromOpt(Some(f), env) == Success(([], Some(f)));
    assert ProcessSelectItems(items, env) == Success(items);
    assert ScanWhereOpt(where, env) == Success(where);
  }

  /**
    `JOIN (t)` of any kind but comma: the group yields no table to classify,
    and the whole rewrite fails.
  */
  lemma JoiningParenthesisedTableFails(items: seq<Expr>, a: Table, t: Table, kind: JoinKind, on: seq<Expr>,
                                       where: Option<Expr>, env: Env)
    requires env.stack != [] && Flat(items, where) && kind != Comma
    ensures ProcessBody(Plain(items, Some(TableItem(a)), [Join(Group(TableItem(t), Unjoined), kind, on)], where), env)
      == Failure(EmptyJoinGroup)
  {
    var j := Join(Group(TableItem(t), Unjoined), kind, on);
    assert JoinStep(Start([a]), j, env) == Failure(EmptyJoinGroup);
    assert ProcessSelectItems(items, env) == Success(items);
    assert ScanWhereOpt(where, env) == Success(where);
    assert ProcessFromOpt(Some(TableItem(a)), env) == Success(([a], Some(TableItem(a))));
  }
}
