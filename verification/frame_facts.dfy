/**
  The scope holder's frames below the top are never consulted: a rewrite
  depends on the rules it is called with, not on what enclosing calls have
  pushed, and it hands the caller's stack back as it found it.
*/
module FrameFacts {
  import opened Ast
  import opened Scope
  import opened Injector
  import opened InjectorFacts
  import opened Joins
  import opened Processor
  import opened Dispatch

  /** Two environments with the same top frame and the same name normaliser. */
  ghost predicate SameView(e1: Env, e2: Env) {
    e1.stack != [] && e2.stack != [] && Peek(e1.stack) == Peek(e2.stack) && e1.bare == e2.bare
  }

  lemma PairTailSameView(on: seq<Expr>, pending: seq<Option<seq<Table>>>, e1: Env, e2: Env)
    requires SameView(e1, e2)
    ensures PairTail(on, pending, e1) == PairTail(on, pending, e2)
  {
    var p1 := PairTail(on, pending, e1);
    var p2 := PairTail(on, pending, e2);
    forall k | 0 <= k < |on|
      ensures p1.0[k] == p2.0[k]
    {
      var top := PoppedAt(pending, k);
      if top.Some? {
        InjectReadsTopFrame(Some(on[k]), top.value, e1, e2);
      }
    }
    assert p1.0 == p2.0;
  }

  lemma ResolveSameView(st: JoinState, j: Join, tables: seq<Table>, e1: Env, e2: Env)
    requires SameView(e1, e2)
    ensures Resolve(st, j, tables, e1) == Resolve(st, j, tables, e2)
  {
    if j.kind != Comma && tables != [] {
      var cl := Classify(st, j.kind, tables[0]);
      if |j.on| == 1 && cl.1.Some? {
        InjectReadsTopFrame(Some(j.on[0]), cl.1.value, e1, e2);
      } else if |j.on| > 1 {
        PairTailSameView(j.on, [cl.1] + cl.0.pending, e1, e2);
      }
    }
  }

  /** Processing a select body reads only the top frame. */
  lemma {:induction false} BodySameView(b: SelectBody, e1: Env, e2: Env)
    requires SameView(e1, e2)
    ensures ProcessBody(b, e1) == ProcessBody(b, e2)
    decreases b, 0
  {
    match b
    case Plain(items, from, joins, where) =>
      ItemsSameView(items, e1, e2);
      ScanOptSameView(where, e1, e2);
      FromOptSameView(from, e1, e2);
      var fromOut := ProcessFromOpt(from, e1);
      if fromOut.Success? {
        JoinsSameView(Start(fromOut.value.0), joins, e1, e2);
        var joinOut := if joins == [] then Success((Start(fromOut.value.0), joins))
                       else ProcessJoins(Start(fromOut.value.0), joins, e1);
        var where' := ScanWhereOpt(where, e1);
        if joinOut.Success? && where'.Success? {
          InjectReadsTopFrame(where'.value, joinOut.value.0.mainTables, e1, e2);
        }
      }
    case ParenSelect(inner) =>
      BodySameView(inner, e1, e2);
    case SetOp(members) =>
      MembersSameView(members, e1, e2);
    case OtherSelect(_) =>
  }

  lemma {:induction false} MembersSameView(ms: seq<SelectBody>, e1: Env, e2: Env)
    requires SameView(e1, e2)
    ensures ProcessMembers(ms, e1) == ProcessMembers(ms, e2)
    decreases ms, 0
  {
    if ms != [] {
      BodySameView(ms[0], e1, e2);
      MembersSameView(ms[1..], e1, e2);
    }
  }

  lemma {:induction false} ItemSameView(e: Expr, e1: Env, e2: Env)
    requires SameView(e1, e2)
    ensures ProcessSelectItem(e, e1) == ProcessSelectItem(e, e2)
    decreases e, 0
  {
    match e
    case SubSelect(b) => BodySameView(b, e1, e2);
    case Func(_, args) => ItemsSameView(args, e1, e2);
    case _ =>
  }

  lemma {:induction false} ItemsSameView(es: seq<Expr>, e1: Env, e2: Env)
    requires SameView(e1, e2)
    ensures ProcessSelectItems(es, e1) == ProcessSelectItems(es, e2)
    decreases es, 0
  {
    if es != [] {
      ItemSameView(es[0], e1, e2);
      ItemsSameView(es[1..], e1, e2);
    }
  }

  lemma {:induction false} ScanSameView(e: Expr, e1: Env, e2: Env)
    requires SameView(e1, e2)
    ensures ScanWhere(e, e1) == ScanWhere(e, e2)
    decreases e, 0
  {
    if e.SubSelect? {
      BodySameView(e.body, e1, e2);
    } else if MentionsSelect(e) {
      match e
      case Binary(_, l, r) =>
        ScanSameView(l, e1, e2);
        ScanSameView(r, e1, e2);
      case In(_, r) =>
        if r.SubSelect? {
          BodySameView(r.body, e1, e2);
        }
      case Exists(i) => ScanSameView(i, e1, e2);
      case Not(i) => ScanSameView(i, e1, e2);
      case Paren(i) => ScanSameView(i, e1, e2);
      case _ =>
    }
  }

  lemma {:induction false} ScanOptSameView(where: Option<Expr>, e1: Env, e2: Env)
    requires SameView(e1, e2)
    ensures ScanWhereOpt(where, e1) == ScanWhereOpt(where, e2)
    decreases where, 0
  {
    if where.Some? {
      ScanSameView(where.value, e1, e2);
    }
  }

  lemma {:induction false} FromSameView(f: FromItem, e1: Env, e2: Env)
    requires SameView(e1, e2)
    ensures ProcessFrom(f, e1) == ProcessFrom(f, e2)
    decreases f, 2
  {
    match f
    case TableItem(_) =>
    case Group(_, _) => SubJoinSameView(f, e1, e2);
    case _ => OtherFromSameView(f, e1, e2);
  }

  lemma {:induction false} FromOptSameView(from: Option<FromItem>, e1: Env, e2: Env)
    requires SameView(e1, e2)
    ensures ProcessFromOpt(from, e1) == ProcessFromOpt(from, e2)
    decreases from, 0
  {
    if from.Some? {
      FromSameView(from.value, e1, e2);
    }
  }

  lemma {:induction false} OtherFromSameView(f: FromItem, e1: Env, e2: Env)
    requires SameView(e1, e2)
    ensures OtherFromItem(f, e1) == OtherFromItem(f, e2)
    decreases f, 0
  {
    if f.Derived? {
      BodySameView(f.body, e1, e2);
    }
  }

  lemma {:induction false} SubJoinSameView(f: FromItem, e1: Env, e2: Env)
    requires SameView(e1, e2) && f.Group?
    ensures SubJoin(f, e1) == SubJoin(f, e2)
    decreases f, 1
  {
    match f.joins
    case Unjoined =>
      if f.inner.Group? {
        SubJoinSameView(f.inner, e1, e2);
      }
    case Joined(js) =>
      FromSameView(f.inner, e1, e2);
      var fromOut := ProcessFrom(f.inner, e1);
      if fromOut.Success? {
        JoinsSameView(Start(fromOut.value.0), js, e1, e2);
      }
  }

  lemma {:induction false} JoinsSameView(st: JoinState, joins: seq<Join>, e1: Env, e2: Env)
    requires SameView(e1, e2)
    ensures ProcessJoins(st, joins, e1) == ProcessJoins(st, joins, e2)
    decreases joins, 0
  {
    if joins != [] {
      JoinStepSameView(st, joins[0], e1, e2);
      var first := JoinStep(st, joins[0], e1);
      if first.Success? {
        JoinsSameView(first.value.0, joins[1..], e1, e2);
      }
    }
  }

  lemma {:induction false} JoinStepSameView(st: JoinState, j: Join, e1: Env, e2: Env)
    requires SameView(e1, e2)
    ensures JoinStep(st, j, e1) == JoinStep(st, j, e2)
    decreases j, 0
  {
    match j.right
    case TableItem(t) =>
      ResolveSameView(st, j, [t], e1, e2);
    case Group(_, _) =>
      SubJoinSameView(j.right, e1, e2);
      var out := SubJoin(j.right, e1);
      if out.Success? {
        ResolveSameView(st, j.(right := out.value.1), out.value.0, e1, e2);
      }
    case _ =>
      OtherFromSameView(j.right, e1, e2);
  }

  /**
    The rewrite of a statement depends on the rules it is called with, not on
    the frames enclosing calls left on the stack; and every path hands the
    stack back unchanged, so nested rewrites leave their caller's rules active.
  */
  lemma RewriteIgnoresEnclosingFrames(s: Statement, active: seq<Rule>, stack1: Stack, stack2: Stack,
                                      bare: string -> string)
    ensures Rewrite(s, active, stack1, bare).0 == Rewrite(s, active, stack2, bare).0
    ensures Rewrite(s, active, stack1, bare).1 == stack1
  {
    var e1 := CallEnv(active, stack1, bare);
    var e2 := CallEnv(active, stack2, bare);
    match s
    case Select(body, with) =>
      BodySameView(body, e1, e2);
      MembersSameView(with, e1, e2);
    case Update(table, _, where) =>
      InjectReadsTopFrame(where, [table], e1, e2);
    case Delete(table, where) =>
      InjectReadsTopFrame(where, [table], e1, e2);
    case Insert(_, _) =>
  }
}
