/**
  The recursive walk over a statement's select bodies: select lists and
  function arguments, WHERE sub-selects, FROM items, parenthesised join
  groups and join chains, ending in the WHERE-level injection of a plain
  select. Every function reads the rules of the top frame of `env.stack`,
  so nested statements use the enclosing call's rules.
*/
module Processor {
  import opened Ast
  import opened Scope
  import opened Injector
  import opened Joins

  /** A select body with every nested statement processed and its filters injected. */
  function ProcessBody(b: SelectBody, env: Env): (r: Result<SelectBody>)
    requires env.stack != []
    ensures b.OtherSelect? ==> r == Success(b)
    ensures b.ParenSelect? ==>
      r == if ProcessBody(b.inner, env).Failure? then Failure(ProcessBody(b.inner, env).fault)
           else Success(ParenSelect(ProcessBody(b.inner, env).value))
    ensures b.SetOp? ==>
      (r.Success? <==> forall k | 0 <= k < |b.members| :: ProcessBody(b.members[k], env).Success?)
    ensures b.SetOp? && r.Success? ==>
      && r.value.SetOp?
      && |r.value.members| == |b.members|
      && forall k | 0 <= k < |b.members| :: ProcessBody(b.members[k], env) == Success(r.value.members[k])
    ensures b.Plain? && r.Success? ==>
      && r.value.Plain?
      && |r.value.items| == |b.items|
      && |r.value.joins| == |b.joins|
      && (r.value.from.Some? <==> b.from.Some?)
      && (b.where.Some? ==> r.value.where.Some?)
      && forall k | 0 <= k < |b.joins| ::
           r.value.joins[k].kind == b.joins[k].kind && |r.value.joins[k].on| == |b.joins[k].on|
    decreases b, 0
  {
    match b
    case Plain(items, from, joins, where) =>
      var items' :- ProcessSelectItems(items, env);
      var where' :- ScanWhereOpt(where, env);
      var fromOut :- ProcessFromOpt(from, env);
      var joinOut :- if joins == [] then Success((Start(fromOut.0), joins))
                     else ProcessJoins(Start(fromOut.0), joins, env);
      var mainTables := joinOut.0.mainTables;
      var where'' := if mainTables != [] then Inject(where', mainTables, env) else where';
      Success(Plain(items', fromOut.1, joinOut.1, where''))
    case ParenSelect(inner) =>
      var inner' :- ProcessBody(inner, env);
      Success(ParenSelect(inner'))
    case SetOp(members) =>
      var members' :- ProcessMembers(members, env);
      Success(SetOp(members'))
    case OtherSelect(_) =>
      Success(b)
  }

  /** Each member of a set operation, processed on its own. */
  function ProcessMembers(ms: seq<SelectBody>, env: Env): (r: Result<seq<SelectBody>>)
    requires env.stack != []
    ensures r.Success? <==> forall k | 0 <= k < |ms| :: ProcessBody(ms[k], env).Success?
    ensures r.Success? ==>
      && |r.value| == |ms|
      && forall k | 0 <= k < |ms| :: ProcessBody(ms[k], env) == Success(r.value[k])
    decreases ms, 0
  {
    if ms == [] then Success([])
    else
      var head :- ProcessBody(ms[0], env);
      var tail :- ProcessMembers(ms[1..], env);
      Success([head] + tail)
  }

  /**
    A select-list item (or a function argument): a sub-select is processed,
    a function call has its arguments processed the same way, anything else
    is left alone.
  */
  function ProcessSelectItem(e: Expr, env: Env): (r: Result<Expr>)
    requires env.stack != []
    ensures !MentionsSelect(e) ==> r == Success(e)
    ensures !e.SubSelect? && !e.Func? ==> r == Success(e)
    ensures e.SubSelect? ==>
      r == if ProcessBody(e.body, env).Failure? then Failure(ProcessBody(e.body, env).fault)
           else Success(SubSelect(ProcessBody(e.body, env).value))
    ensures e.Func? ==>
      r == if ProcessSelectItems(e.args, env).Failure? then Failure(ProcessSelectItems(e.args, env).fault)
           else Success(Func(e.name, ProcessSelectItems(e.args, env).value))
    ensures r.Success? ==> Skeleton(r.value) == Skeleton(e)
    decreases e, 0
  {
    match e
    case SubSelect(b) =>
      var b' :- ProcessBody(b, env);
      Success(SubSelect(b'))
    case Func(name, args) =>
      var args' :- ProcessSelectItems(args, env);
      assert SkeletonAll(args') == SkeletonAll(args);
      Success(Func(name, args'))
    case _ =>
      Success(e)
  }

  function ProcessSelectItems(es: seq<Expr>, env: Env): (r: Result<seq<Expr>>)
    requires env.stack != []
    ensures (forall k | 0 <= k < |es| :: !MentionsSelect(es[k])) ==> r == Success(es)
    ensures r.Success? <==> forall k | 0 <= k < |es| :: ProcessSelectItem(es[k], env).Success?
    ensures r.Success? ==>
      && |r.value| == |es|
      && (forall k | 0 <= k < |es| :: ProcessSelectItem(es[k], env) == Success(r.value[k]))
      && SkeletonAll(r.value) == SkeletonAll(es)
    decreases es, 0
  {
    if es == [] then Success([])
    else
      var head := ProcessSelectItem(es[0], env);
      var tail := ProcessSelectItems(es[1..], env);
      assert forall k | 0 <= k < |es| - 1 :: es[1..][k] == es[k + 1];
      if head.Failure? then Failure(head.fault)
      else if tail.Failure? then Failure(tail.fault)
      else
        var out := [head.value] + tail.value;
        assert es == [es[0]] + es[1..];
        assert out[1..] == tail.value;
        assert forall k | 1 <= k < |es| :: out[k] == tail.value[k - 1];
        Success(out)
  }

  /**
    The WHERE scan: finds sub-selects under binary operators, IN, EXISTS,
    NOT and parentheses and processes them. It never touches the condition
    itself, and it looks no further when the condition has no sub-select.
  */
  function ScanWhere(e: Expr, env: Env): (r: Result<Expr>)
    requires env.stack != []
    ensures !MentionsSelect(e) ==> r == Success(e)
    ensures e.SubSelect? ==>
      r == if ProcessBody(e.body, env).Failure? then Failure(ProcessBody(e.body, env).fault)
           else Success(SubSelect(ProcessBody(e.body, env).value))
    ensures e.Binary? && MentionsSelect(e) ==>
      && (r.Success? <==> ScanWhere(e.left, env).Success? && ScanWhere(e.right, env).Success?)
      && (r.Success? ==> r.value == Binary(e.op, ScanWhere(e.left, env).value, ScanWhere(e.right, env).value))
    ensures e.In? && MentionsSelect(e) && e.right.SubSelect? ==>
      r == if ProcessBody(e.right.body, env).Failure? then Failure(ProcessBody(e.right.body, env).fault)
           else Success(In(e.left, SubSelect(ProcessBody(e.right.body, env).value)))
    ensures e.In? && !e.right.SubSelect? ==> r == Success(e)
    ensures (e.Exists? || e.Not? || e.Paren?) && MentionsSelect(e) ==>
      && (r.Success? <==> ScanWhere(e.inner, env).Success?)
      && (r.Success? ==> r.value == e.(inner := ScanWhere(e.inner, env).value))
    ensures e.Leaf? || e.Func? || e.OtherExpr? ==> r == Success(e)
    ensures r.Success? ==> Skeleton(r.value) == Skeleton(e)
    decreases e, 0
  {
    if e.SubSelect? then
      // a sub-select is itself a FROM item: processed as one
      var b' :- ProcessBody(e.body, env);
      Success(SubSelect(b'))
    else if !MentionsSelect(e) then
      Success(e)
    else
      match e
      case Binary(op, l, r) =>
        var l' :- ScanWhere(l, env);
        var r' :- ScanWhere(r, env);
        Success(Binary(op, l', r'))
      case In(l, r) =>
        if r.SubSelect? then
          var b' :- ProcessBody(r.body, env);
          Success(In(l, SubSelect(b')))
        else
          Success(e)
      case Exists(i) =>
        var i' :- ScanWhere(i, env);
        Success(Exists(i'))
      case Not(i) =>
        var i' :- ScanWhere(i, env);
        Success(Not(i'))
      case Paren(i) =>
        var i' :- ScanWhere(i, env);
        Success(Paren(i'))
      case _ =>
        Success(e)
  }

  function ScanWhereOpt(where: Option<Expr>, env: Env): (r: Result<Option<Expr>>)
    requires env.stack != []
    ensures where.None? ==> r == Success(None)
    ensures where.Some? ==>
      r == if ScanWhere(where.value, env).Failure? then Failure(ScanWhere(where.value, env).fault)
           else Success(Some(ScanWhere(where.value, env).value))
    decreases where, 0
  {
    match where
    case None => Success(None)
    case Some(w) =>
      var w' :- ScanWhere(w, env);
      Success(Some(w'))
  }

  /**
    A FROM item: the tables it contributes to the main tables, and the item
    with its nested statements and join groups processed.
  */
  function ProcessFrom(f: FromItem, env: Env): (r: Result<(seq<Table>, FromItem)>)
    requires env.stack != []
    ensures f.TableItem? ==> r == Success(([f.table], f))
    ensures f.Group? ==> r == SubJoin(f, env)
    ensures f.Derived? || f.OtherItem? ==>
      r == if OtherFromItem(f, env).Failure? then Failure(OtherFromItem(f, env).fault)
           else Success(([], OtherFromItem(f, env).value))
    ensures r.Success? ==>
      && (r.value.1.TableItem? <==> f.TableItem?)
      && (r.value.1.Group? <==> f.Group?)
      && (r.value.1.Derived? <==> f.Derived?)
    decreases f, 2
  {
    if f.TableItem? then Success(([f.table], f))
    else if f.Group? then SubJoin(f, env)
    else
      var f' :- OtherFromItem(f, env);
      Success(([], f'))
  }

  function ProcessFromOpt(from: Option<FromItem>, env: Env): (r: Result<(seq<Table>, Option<FromItem>)>)
    requires env.stack != []
    ensures from.None? ==> r == Success(([], None))
    ensures r.Success? ==> (r.value.1.Some? <==> from.Some?)
    ensures from.Some? ==>
      r == if ProcessFrom(from.value, env).Failure? then Failure(ProcessFrom(from.value, env).fault)
           else Success((ProcessFrom(from.value, env).value.0, Some(ProcessFrom(from.value, env).value.1)))
    decreases from, 0
  {
    match from
    case None => Success(([], None))
    case Some(f) =>
      var out :- ProcessFrom(f, env);
      Success((out.0, Some(out.1)))
  }

  /** A derived table is processed as a statement of its own; other items are left alone. */
  function OtherFromItem(f: FromItem, env: Env): (r: Result<FromItem>)
    requires env.stack != []
    ensures !f.Derived? ==> r == Success(f)
    ensures f.Derived? ==>
      r == if ProcessBody(f.body, env).Failure? then Failure(ProcessBody(f.body, env).fault)
           else Success(Derived(ProcessBody(f.body, env).value))
    decreases f, 0
  {
    match f
    case Derived(b) =>
      var b' :- ProcessBody(b, env);
      Success(Derived(b'))
    case _ => Success(f)
  }

  /**
    A parenthesised join group. Groups without joins are unwrapped; the first
    one with joins has its FROM item and joins resolved, and its surviving
    main tables are returned. A group that bottoms out in a non-group item
    without joins yields no table and is left alone.
  */
  function SubJoin(f: FromItem, env: Env): (r: Result<(seq<Table>, FromItem)>)
    requires env.stack != [] && f.Group?
    ensures f.joins.Unjoined? && !f.inner.Group? ==> r == Success(([], f))
    ensures f.joins.Unjoined? && f.inner.Group? ==>
      r == if SubJoin(f.inner, env).Failure? then Failure(SubJoin(f.inner, env).fault)
           else Success((SubJoin(f.inner, env).value.0, Group(SubJoin(f.inner, env).value.1, Unjoined)))
    ensures f.joins.Joined? ==>
      && (r.Success? <==>
            && ProcessFrom(f.inner, env).Success?
            && ProcessJoins(Start(ProcessFrom(f.inner, env).value.0), f.joins.list, env).Success?)
      && (r.Success? ==>
            r.value.0 == ProcessJoins(Start(ProcessFrom(f.inner, env).value.0), f.joins.list, env).value.0.mainTables)
    ensures r.Success? ==> r.value.1.Group? && (r.value.1.joins.Joined? <==> f.joins.Joined?)
    decreases f, 1
  {
    match f.joins
    case Unjoined =>
      if f.inner.Group? then
        var out :- SubJoin(f.inner, env);
        Success((out.0, Group(out.1, Unjoined)))
      else
        Success(([], f))
    case Joined(js) =>
      var fromOut :- ProcessFrom(f.inner, env);
      var joinOut :- ProcessJoins(Start(fromOut.0), js, env);
      Success((joinOut.0.mainTables, Group(fromOut.1, Joined(joinOut.1))))
  }

  /** The join chain as a left fold of `JoinStep` from `st`. */
  function ProcessJoins(st: JoinState, joins: seq<Join>, env: Env): (r: Result<(JoinState, seq<Join>)>)
    requires env.stack != []
    ensures r.Success? ==>
      && |r.value.1| == |joins|
      && (Coherent(st) ==> Coherent(r.value.0))
      && forall k | 0 <= k < |joins| ::
           r.value.1[k].kind == joins[k].kind && |r.value.1[k].on| == |joins[k].on|
    decreases joins, 0
  {
    if joins == [] then Success((st, []))
    else
      var first :- JoinStep(st, joins[0], env);
      var rest :- ProcessJoins(first.0, joins[1..], env);
      Success((rest.0, [first.1] + rest.1))
  }

  /**
    One join: a table or join group on the right is resolved and classified;
    any other right-hand item is only processed, gets no ON filter, and
    leaves the next join without a known left table.
  */
  function JoinStep(st: JoinState, j: Join, env: Env): (r: Result<(JoinState, Join)>)
    requires env.stack != []
    ensures j.right.TableItem? ==> r == Resolve(st, j, [j.right.table], env)
    ensures j.right.Group? ==>
      r == if SubJoin(j.right, env).Failure? then Failure(SubJoin(j.right, env).fault)
           else Resolve(st, j.(right := SubJoin(j.right, env).value.1), SubJoin(j.right, env).value.0, env)
    ensures !j.right.TableItem? && !j.right.Group? ==>
      r == if OtherFromItem(j.right, env).Failure? then Failure(OtherFromItem(j.right, env).fault)
           else Success((st.(leftTable := None), j.(right := OtherFromItem(j.right, env).value)))
    ensures r.Success? ==> r.value.1.kind == j.kind && |r.value.1.on| == |j.on|
    ensures r.Success? && Coherent(st) ==> Coherent(r.value.0)
    decreases j, 0
  {
    if j.right.TableItem? then Resolve(st, j, [j.right.table], env)
    else if j.right.Group? then
      var out :- SubJoin(j.right, env);
      Resolve(st, j.(right := out.1), out.0, env)
    else
      var right' :- OtherFromItem(j.right, env);
      Success((st.(leftTable := None), j.(right := right')))
  }
}
