/**
  The predicate injector: builds the data-scope filter for a list of tables
  from the active rules and conjoins it onto an existing condition (a WHERE
  clause or an ON predicate) without changing what that condition means.
*/
module Injector {
  import opened Ast
  import opened Scope

  /**
    Left fold with AND: `[p1, p2, p3]` becomes `(p1 AND p2) AND p3`; an empty
    list has no conjunction.
  */
  function Conjoin(ps: seq<Expr>): (r: Option<Expr>)
    ensures r.None? <==> ps == []
    ensures |ps| == 1 ==> r == Some(ps[0])
    ensures |ps| > 1 ==> r.Some? && r.value.Binary? && r.value.op == AndOp
    decreases |ps|
  {
    if |ps| == 0 then None
    else if |ps| == 1 then Some(ps[0])
    else Some(And(Conjoin(ps[..|ps| - 1]).value, ps[|ps| - 1]))
  }

  /** Reads the `n` operands back off a left-leaning chain of ANDs, if `e` is one. */
  function Operands(e: Expr, n: nat): Option<seq<Expr>>
    decreases n
  {
    if n <= 1 then Some([e])
    else
      match e
      case Binary(AndOp, l, r) =>
        (match Operands(l, n - 1)
         case Some(xs) => Some(xs + [r])
         case None => None)
      case _ => None
  }

  /**
    The filters the rules covering `name` build for it, in rule order; a rule
    that declines (returns null) contributes nothing.
  */
  function RuleFilters(rules: seq<Rule>, name: string, alias: Option<string>): (fs: seq<Expr>)
    ensures |fs| <= |rules|
    ensures (forall k | 0 <= k < |rules| :: !rules[k].includes(name)) ==> fs == []
    decreases |rules|
  {
    if rules == [] then []
    else
      var tail := RuleFilters(rules[1..], name, alias);
      assert forall k | 0 <= k < |rules| - 1 :: rules[1..][k] == rules[k + 1];
      if rules[0].includes(name) && rules[0].filter(name, alias).Some? then
        [rules[0].filter(name, alias).value] + tail
      else
        tail
  }

  /** The combined filter of one table: its rules' filters joined by AND, if any. */
  function TableFilter(rules: seq<Rule>, bare: string -> string, t: Table): (f: Option<Expr>)
    ensures f.None? <==> RuleFilters(rules, bare(t.name), t.alias) == []
    ensures f.Some? && |RuleFilters(rules, bare(t.name), t.alias)| == 1 ==>
      f == Some(RuleFilters(rules, bare(t.name), t.alias)[0])
  {
    Conjoin(RuleFilters(rules, bare(t.name), t.alias))
  }

  /** The per-table filters of `tables`, in table order, skipping tables without one. */
  function Filters(rules: seq<Rule>, bare: string -> string, tables: seq<Table>): (fs: seq<Expr>)
    ensures |fs| <= |tables|
    ensures (forall k | 0 <= k < |tables| :: TableFilter(rules, bare, tables[k]).None?) ==> fs == []
    decreases |tables|
  {
    if tables == [] then []
    else
      var tail := Filters(rules, bare, tables[1..]);
      assert forall k | 0 <= k < |tables| - 1 :: tables[1..][k] == tables[k + 1];
      match TableFilter(rules, bare, tables[0])
      case Some(p) => [p] + tail
      case None => tail
  }

  /**
    Conjoins the filter `p` onto an existing condition. A top-level OR is
    parenthesised first: otherwise `a OR b AND p` would bind `p` to `b` alone.
  */
  function Merge(existing: Option<Expr>, p: Expr): (r: Expr)
    ensures existing.None? ==> r == p
    ensures existing.Some? ==> r.Binary? && r.op == AndOp && r.right == p && !IsOr(r.left)
    ensures existing.Some? ==>
      r.left == (if IsOr(existing.value) then Paren(existing.value) else existing.value)
  {
    match existing
    case None => p
    case Some(e) => if IsOr(e) then And(Paren(e), p) else And(e, p)
  }

  /**
    The injection itself: the filter for every table in `tables`, under the
    rules of the top frame, conjoined onto `existing`. Without any target
    table or any filter the condition is returned as it is.
  */
  function Inject(existing: Option<Expr>, tables: seq<Table>, env: Env): (r: Option<Expr>)
    requires tables != [] ==> env.stack != []
    ensures existing.Some? ==> r.Some?
    ensures existing.None? && r.Some? ==> tables != [] && Filters(Peek(env.stack), env.bare, tables) != []
    ensures existing.Some? ==>
      || r == existing
      || (r.value.Binary? && r.value.op == AndOp &&
          r.value.left == (if IsOr(existing.value) then Paren(existing.value) else existing.value))
  {
    if tables == [] then existing
    else
      var fs := Filters(Peek(env.stack), env.bare, tables);
      if fs == [] then existing
      else
        // The conjunction of a non-empty list is never null, so the source's
        // null check on it is dead.
        Some(Merge(existing, Conjoin(fs).value))
  }

  /**
    `Inject` for the one table of an UPDATE or DELETE: the table's own
    filter, if it has one, merged into the condition.
  */
  function InjectOne(existing: Option<Expr>, table: Table, env: Env): (r: Option<Expr>)
    requires env.stack != []
    ensures r == Inject(existing, [table], env)
    ensures r == if TableFilter(Peek(env.stack), env.bare, table).None? then existing
                 else Some(Merge(existing, TableFilter(Peek(env.stack), env.bare, table).value))
  {
    assert [table][1..] == [];
    Inject(existing, [table], env)
  }
}
