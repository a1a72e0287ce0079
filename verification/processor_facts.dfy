/**
  Properties of the recursive walk as a whole: with no rule covering any
  table it changes nothing; it consults only the top frame of the stack;
  and the "mentions a sub-select" guard of the WHERE scan is only a
  shortcut, never a change of outcome.
*/
module ProcessorFacts {
  import opened Ast
  import opened Scope
  import opened Injector
  import opened InjectorFacts
  import opened Joins
  import opened Processor

  /** No rule of the top frame covers any table name. */
  ghost predicate Inert(env: Env)
    requires env.stack != []
  {
    forall i, n | 0 <= i < |Peek(env.stack)| :: !Peek(env.stack)[i].includes(n)
  }

  lemma InjectInert(existing: Option<Expr>, tables: seq<Table>, env: Env)
    requires env.stack != [] && Inert(env)
    ensures Inject(existing, tables, env) == existing
  {
    UncoveredTablesLeaveConditionAlone(existing, tables, env);
  }

  lemma PairedOnInert(e: Expr, targets: Option<seq<Table>>, env: Env)
    requires env.stack != [] && Inert(env)
    ensures PairedOn(e, targets, env) == e
  {
    if targets.Some? {
      InjectInert(Some(e), targets.value, env);
    }
  }

  lemma AttachOnInert(st: JoinState, on: seq<Expr>, joinTable: Table, targets: Option<seq<Table>>, env: Env)
    requires env.stack != [] && Inert(env)
    ensures AttachOn(st, on, joinTable, targets, env).1 == on
  {
    var out := AttachOn(st, on, joinTable, targets, env).1;
    if |on| == 1 && targets.Some? {
      PairedOnInert(on[0], targets, env);
    } else if |on| > 1 {
      PairedOnInert(on[0], targets, env);
      forall k | 1 <= k < |on|
        ensures out[k] == on[k]
      {
        PairedOnInert(on[k], PoppedAt(st.pending, k - 1), env);
      }
    }
  }

  lemma ResolveInert(st: JoinState, j: Join, tables: seq<Table>, env: Env)
    requires env.stack != [] && Inert(env)
    ensures Resolve(st, j, tables, env).Success? ==> Resolve(st, j, tables, env).value.1 == j
  {
    if j.kind != Comma && tables != [] {
      var cl := Classify(st, j.kind, tables[0]);
      AttachOnInert(cl.0, j.on, tables[0], cl.1, env);
    }
  }

  /**
    Rules that cover no table leave every select body exactly as it was
    (the rewrite then only re-prints the statement).
  */
  lemma {:induction false} BodyInert(b: SelectBody, env: Env)
    requires env.stack != [] && Inert(env)
    ensures ProcessBody(b, env).Success? ==> ProcessBody(b, env).value == b
    decreases b, 0
  {
    match b
    case Plain(items, from, joins, where) =>
      ItemsInert(items, env);
      ScanOptInert(where, env);
      FromOptInert(from, env);
      var fromOut := ProcessFromOpt(from, env);
      if fromOut.Success? && joins != [] {
        JoinsInert(Start(fromOut.value.0), joins, env);
      }
      if ProcessBody(b, env).Success? {
        var joinOut := if joins == [] then Success((Start(fromOut.value.0), joins))
                       else ProcessJoins(Start(fromOut.value.0), joins, env);
        InjectInert(where, joinOut.value.0.mainTables, env);
      }
    case ParenSelect(inner) =>
      BodyInert(inner, env);
    case SetOp(members) =>
      if ProcessBody(b, env).Success? {
        var ms := ProcessBody(b, env).value.members;
        forall k | 0 <= k < |members|
          ensures ms[k] == members[k]
        {
          BodyInert(members[k], env);
        }
      }
    case OtherSelect(_) =>
  }

  lemma {:induction false} ItemInert(e: Expr, env: Env)
    requires env.stack != [] && Inert(env)
    ensures ProcessSelectItem(e, env).Success? ==> ProcessSelectItem(e, env).value == e
    decreases e, 0
  {
    match e
    case SubSelect(b) => BodyInert(b, env);
    case Func(_, args) => ItemsInert(args, env);
    case _ =>
  }

  lemma {:induction false} ItemsInert(es: seq<Expr>, env: Env)
    requires env.stack != [] && Inert(env)
    ensures ProcessSelectItems(es, env).Success? ==> ProcessSelectItems(es, env).value == es
    decreases es, 0
  {
    var r := ProcessSelectItems(es, env);
    if r.Success? {
      forall k | 0 <= k < |es|
        ensures r.value[k] == es[k]
      {
        ItemInert(es[k], env);
      }
    }
  }

  lemma {:induction false} ScanInert(e: Expr, env: Env)
    requires env.stack != [] && Inert(env)
    ensures ScanWhere(e, env).Success? ==> ScanWhere(e, env).value == e
    decreases e, 0
  {
    if e.SubSelect? {
      BodyInert(e.body, env);
    } else if MentionsSelect(e) {
      match e
      case Binary(_, l, r) =>
        ScanInert(l, env);
        ScanInert(r, env);
      case In(_, r) =>
        if r.SubSelect? {
          BodyInert(r.body, env);
        }
      case Exists(i) => ScanInert(i, env);
      case Not(i) => ScanInert(i, env);
      case Paren(i) => ScanInert(i, env);
      case _ =>
    }
  }

  lemma {:induction false} ScanOptInert(where: Option<Expr>, env: Env)
    requires env.stack != [] && Inert(env)
    ensures ScanWhereOpt(where, env).Success? ==> ScanWhereOpt(where, env).value == where
    decreases where, 0
  {
    if where.Some? {
      ScanInert(where.value, env);
    }
  }

  lemma {:induction false} FromInert(f: FromItem, env: Env)
    requires env.stack != [] && Inert(env)
    ensures ProcessFrom(f, env).Success? ==> ProcessFrom(f, env).value.1 == f
    decreases f, 2
  {
    match f
    case TableItem(_) =>
    case Group(_, _) => SubJoinInert(f, env);
    case _ => OtherFromInert(f, env);
  }

  lemma {:induction false} FromOptInert(from: Option<FromItem>, env: Env)
    requires env.stack != [] && Inert(env)
    ensures ProcessFromOpt(from, env).Success? ==> ProcessFromOpt(from, env).value.1 == from
    decreases from, 0
  {
    if from.Some? {
      FromInert(from.value, env);
    }
  }

  lemma {:induction false} OtherFromInert(f: FromItem, env: Env)
    requires env.stack != [] && Inert(env)
    ensures OtherFromItem(f, env).Success? ==> OtherFromItem(f, env).value == f
    decreases f, 0
  {
    if f.Derived? {
      BodyInert(f.body, env);
    }
  }

  lemma {:induction false} SubJoinInert(f: FromItem, env: Env)
    requires env.stack != [] && Inert(env) && f.Group?
    ensures SubJoin(f, env).Success? ==> SubJoin(f, env).value.1 == f
    decreases f, 1
  {
    match f.joins
    case Unjoined =>
      if f.inner.Group? {
        SubJoinInert(f.inner, env);
      }
    case Joined(js) =>
      FromInert(f.inner, env);
      var fromOut := ProcessFrom(f.inner, env);
      if fromOut.Success? {
        JoinsInert(Start(fromOut.value.0), js, env);
      }
  }

  lemma {:induction false} JoinsInert(st: JoinState, joins: seq<Join>, env: Env)
    requires env.stack != [] && Inert(env)
    ensures ProcessJoins(st, joins, env).Success? ==> ProcessJoins(st, joins, env).value.1 == joins
    decreases joins, 0
  {
    if joins != [] {
      JoinStepInert(st, joins[0], env);
      var first := JoinStep(st, joins[0], env);
      if first.Success? {
        JoinsInert(first.value.0, joins[1..], env);
        var rest := ProcessJoins(first.value.0, joins[1..], env);
        if rest.Success? {
          assert ProcessJoins(st, joins, env) == Success((rest.value.0, [first.value.1] + rest.value.1));
          assert joins == [joins[0]] + joins[1..];
        }
      }
    }
  }

  lemma {:induction false} JoinStepInert(st: JoinState, j: Join, env: Env)
    requires env.stack != [] && Inert(env)
    ensures JoinStep(st, j, env).Success? ==> JoinStep(st, j, env).value.1 == j
    decreases j, 0
  {
    match j.right
    case TableItem(t) =>
      ResolveInert(st, j, [t], env);
    case Group(_, _) =>
      SubJoinInert(j.right, env);
      var out := SubJoin(j.right, env);
      if out.Success? {
        ResolveInert(st, j.(right := out.value.1), out.value.0, env);
      }
    case _ =>
      OtherFromInert(j.right, env);
  }

  /**
    A plain select: its select list, WHERE sub-selects, FROM item and joins
    are processed on their own, and WHERE then receives the filters of
    exactly the main tables that survive the join chain. It is left as the
    scan returned it when none survives.
  */
  lemma PlainWhereFiltersSurvivingTables(items: seq<Expr>, from: Option<FromItem>, joins: seq<Join>,
                                         where: Option<Expr>, env: Env)
    requires env.stack != []
    requires ProcessBody(Plain(items, from, joins, where), env).Success?
    ensures ProcessSelectItems(items, env).Success? && ScanWhereOpt(where, env).Success?
    ensures ProcessFromOpt(from, env).Success?
    ensures joins != [] ==> ProcessJoins(Start(ProcessFromOpt(from, env).value.0), joins, env).Success?
    ensures var b := ProcessBody(Plain(items, from, joins, where), env).value;
      var ts := ProcessFromOpt(from, env).value.0;
      var mainTables := if joins == [] then ts else ProcessJoins(Start(ts), joins, env).value.0.mainTables;
      var w := ScanWhereOpt(where, env).value;
      && b.where == (if mainTables != [] then Inject(w, mainTables, env) else w)
      && b.items == ProcessSelectItems(items, env).value
      && b.from == ProcessFromOpt(from, env).value.1
      && b.joins == (if joins == [] then [] else ProcessJoins(Start(ts), joins, env).value.1)
  {
  }

  /** A joined group in FROM: its item, then its chain from that item's tables. */
  lemma GroupedFromResolvesChain(inner: FromItem, js: seq<Join>, env: Env)
    requires env.stack != []
    ensures var fromOut := ProcessFrom(inner, env);
      ProcessFromOpt(Some(Group(inner, Joined(js))), env)
      == if fromOut.Failure? then Failure(fromOut.fault)
         else
           var joinOut := ProcessJoins(Start(fromOut.value.0), js, env);
           if joinOut.Failure? then Failure(joinOut.fault)
           else Success((joinOut.value.0.mainTables, Some(Group(fromOut.value.1, Joined(joinOut.value.1)))))
  {
  }

  /**
    Parenthesising a FROM item and its join chain changes nothing but the
    parentheses: `FROM (x JOIN ...)` is rewritten as `FROM x JOIN ...` is,
    with the same surviving main tables filtered in WHERE, and fails
    exactly when that fails.
  */
  lemma GroupedJoinsRewriteLikeFlat(items: seq<Expr>, inner: FromItem, js: seq<Join>, where: Option<Expr>, env: Env)
    requires env.stack != []
    ensures var flat := ProcessBody(Plain(items, Some(inner), js, where), env);
      ProcessBody(Plain(items, Some(Group(inner, Joined(js))), [], where), env)
      == if flat.Failure? then Failure(flat.fault)
         else Success(flat.value.(from := Some(Group(flat.value.from.value, Joined(flat.value.joins))), joins := []))
  {
    GroupedFromResolvesChain(inner, js, env);
    var itemsOut := ProcessSelectItems(items, env);
    var whereOut := ScanWhereOpt(where, env);
    var fromOut := ProcessFrom(inner, env);
    if itemsOut.Success? && whereOut.Success? && fromOut.Success? {
      var ts := fromOut.value.0;
      if js == [] {
        assert ProcessJoins(Start(ts), js, env) == Success((Start(ts), []));
      }
      var joinOut := ProcessJoins(Start(ts), js, env);
      if joinOut.Success? {
        assert Start(joinOut.value.0.mainTables).mainTables == joinOut.value.0.mainTables;
      }
    }
  }

  /**
    The WHERE scan without the "mentions a sub-select" shortcut: every
    operand is visited, whether or not it contains a sub-select.
  */
  function ScanUnguarded(e: Expr, env: Env): (r: Result<Expr>)
    requires env.stack != []
    ensures !e.SubSelect? && !e.In? && !e.Binary? && !e.Exists? && !e.Not? && !e.Paren? ==> r == Success(e)
    ensures e.SubSelect? ==>
      r == if ProcessBody(e.body, env).Failure? then Failure(ProcessBody(e.body, env).fault)
           else Success(SubSelect(ProcessBody(e.body, env).value))
    ensures e.Binary? ==>
      && (r.Success? <==> ScanUnguarded(e.left, env).Success? && ScanUnguarded(e.right, env).Success?)
      && (r.Success? ==> r.value == Binary(e.op, ScanUnguarded(e.left, env).value, ScanUnguarded(e.right, env).value))
    ensures e.In? && e.right.SubSelect? ==>
      r == if ProcessBody(e.right.body, env).Failure? then Failure(ProcessBody(e.right.body, env).fault)
           else Success(In(e.left, SubSelect(ProcessBody(e.right.body, env).value)))
    ensures e.In? && !e.right.SubSelect? ==> r == Success(e)
    ensures e.Exists? || e.Not? || e.Paren? ==>
      && (r.Success? <==> ScanUnguarded(e.inner, env).Success?)
      && (r.Success? ==> r.value == e.(inner := ScanUnguarded(e.inner, env).value))
    decreases e
  {
    match e
    case SubSelect(b) =>
      var b' :- ProcessBody(b, env);
      Success(SubSelect(b'))
    case Binary(op, l, r) =>
      var l' :- ScanUnguarded(l, env);
      var r' :- ScanUnguarded(r, env);
      Success(Binary(op, l', r'))
    case In(l, r) =>
      if r.SubSelect? then
        var b' :- ProcessBody(r.body, env);
        Success(In(l, SubSelect(b')))
      else
        Success(e)
    case Exists(i) =>
      var i' :- ScanUnguarded(i, env);
      Success(Exists(i'))
    case Not(i) =>
      var i' :- ScanUnguarded(i, env);
      Success(Not(i'))
    case Paren(i) =>
      var i' :- ScanUnguarded(i, env);
      Success(Paren(i'))
    case _ =>
      Success(e)
  }

  /** The full walk over a condition without sub-selects changes nothing. */
  lemma {:induction false} UnguardedWithoutSelect(e: Expr, env: Env)
    requires env.stack != [] && !MentionsSelect(e)
    ensures ScanUnguarded(e, env) == Success(e)
    decreases e
  {
    match e
    case Binary(_, l, r) =>
      UnguardedWithoutSelect(l, env);
      UnguardedWithoutSelect(r, env);
    case Exists(i) => UnguardedWithoutSelect(i, env);
    case Not(i) => UnguardedWithoutSelect(i, env);
    case Paren(i) => UnguardedWithoutSelect(i, env);
    case _ =>
  }

  /**
    Skipping conditions that mention no sub-select is only a shortcut: the
    guarded scan and the full walk agree on every condition.
  */
  lemma {:induction false} GuardIsShortcut(e: Expr, env: Env)
    requires env.stack != []
    ensures ScanWhere(e, env) == ScanUnguarded(e, env)
    decreases e
  {
    if !e.SubSelect? && !MentionsSelect(e) {
      UnguardedWithoutSelect(e, env);
    } else if !e.SubSelect? {
      match e
      case Binary(_, l, r) =>
        GuardIsShortcut(l, env);
        GuardIsShortcut(r, env);
      case Exists(i) => GuardIsShortcut(i, env);
      case Not(i) => GuardIsShortcut(i, env);
      case Paren(i) => GuardIsShortcut(i, env);
      case _ =>
    }
  }
}
