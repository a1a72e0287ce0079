/**
  Properties of the predicate injector: how filters combine, when the
  condition is left alone, and that injection keeps the printed condition's
  meaning.
*/
module InjectorFacts {
  import opened Ast
  import opened Scope
  import opened Injector

  /** The AND chain `Conjoin` builds reads back as exactly its operands, in order. */
  lemma {:induction false} ConjoinOperands(ps: seq<Expr>)
    requires ps != []
    ensures Operands(Conjoin(ps).value, |ps|) == Some(ps)
    decreases |ps|
  {
    if |ps| == 1 {
      assert [ps[0]] == ps;
    } else {
      var init := ps[..|ps| - 1];
      ConjoinOperands(init);
      assert Conjoin(ps).value == Binary(AndOp, Conjoin(init).value, ps[|ps| - 1]);
      assert init + [ps[|ps| - 1]] == ps;
    }
  }

  /**
    Conjoining filters that print faithfully and bind at least as tightly
    as AND gives such a filter.
  */
  lemma {:induction false} ConjoinPrintsFaithfully(ps: seq<Expr>)
    requires ps != []
    requires forall k | 0 <= k < |ps| :: PrintsFaithfully(ps[k]) && !LooserThanAnd(ps[k])
    ensures PrintsFaithfully(Conjoin(ps).value) && !LooserThanAnd(Conjoin(ps).value)
    decreases |ps|
  {
    if |ps| > 1 {
      ConjoinPrintsFaithfully(ps[..|ps| - 1]);
    }
  }

  /**
    Merging a filter that binds at least as tightly as AND keeps a faithful
    condition faithful, OR conditions included, except for a bare XOR
    condition: only OR is parenthesised, and `a XOR b AND p` regroups as
    `a XOR (b AND p)`.
  */
  lemma MergePrintsFaithfully(existing: Option<Expr>, p: Expr)
    requires existing.Some? ==> PrintsFaithfully(existing.value)
    requires PrintsFaithfully(p) && !LooserThanAnd(p)
    ensures PrintsFaithfully(Merge(existing, p)) <==> !(existing.Some? && IsXor(existing.value))
  {
  }

  /** `WHERE a XOR b` becomes `a XOR b AND p`, which no longer filters the rows `a` selects. */
  lemma XorConditionMisprints(a: Expr, b: Expr, p: Expr)
    ensures Merge(Some(Binary(XorOp, a, b)), p) == And(Binary(XorOp, a, b), p)
    ensures !PrintsFaithfully(Merge(Some(Binary(XorOp, a, b)), p))
  {
  }

  /** Without the parentheses an OR condition would re-associate: `a OR b AND p`. */
  lemma UnparenthesisedOrMisprints(a: Expr, b: Expr, p: Expr)
    ensures !PrintsFaithfully(And(Binary(OrOp, a, b), p))
    ensures PrintsFaithfully(Merge(Some(Binary(OrOp, a, b)), p)) <==>
      PrintsFaithfully(Binary(OrOp, a, b)) && PrintsFaithfully(p) && !LooserThanAnd(p)
  {
  }

  /**
    Only the existing condition is guarded: a rule filter that is itself a
    bare OR is conjoined unparenthesised and re-associates once printed, so
    rules must parenthesise such filters themselves.
  */
  lemma BareOrFilterMisprints(x: Expr, a: Expr, b: Expr)
    ensures !PrintsFaithfully(Merge(Some(x), Binary(OrOp, a, b)))
  {
  }

  /** Every filter any of `rules` builds prints faithfully and binds at least as tightly as AND. */
  ghost predicate FiltersPrintFaithfully(rules: seq<Rule>) {
    forall k, name, alias | 0 <= k < |rules| && rules[k].filter(name, alias).Some? ::
      PrintsFaithfully(rules[k].filter(name, alias).value) && !LooserThanAnd(rules[k].filter(name, alias).value)
  }

  /** A filter is collected for a name exactly when a rule covering the name builds it. */
  lemma {:induction false} RuleFiltersMembers(rules: seq<Rule>, name: string, alias: Option<string>, e: Expr)
    ensures e in RuleFilters(rules, name, alias) <==>
      exists k | 0 <= k < |rules| :: rules[k].includes(name) && rules[k].filter(name, alias) == Some(e)
    decreases |rules|
  {
    if rules != [] {
      var tail := rules[1..];
      RuleFiltersMembers(tail, name, alias, e);
      assert forall k | 0 <= k < |tail| :: tail[k] == rules[k + 1];
      if e in RuleFilters(rules, name, alias) && e !in RuleFilters(tail, name, alias) {
        assert rules[0].includes(name) && rules[0].filter(name, alias) == Some(e);
      }
    }
  }

  /** A name collects no filter exactly when every rule covering it declines. */
  lemma {:induction false} RuleFiltersEmptyIff(rules: seq<Rule>, name: string, alias: Option<string>)
    ensures RuleFilters(rules, name, alias) == [] <==>
      forall k | 0 <= k < |rules| :: !rules[k].includes(name) || rules[k].filter(name, alias).None?
    decreases |rules|
  {
    if rules != [] {
      var tail := rules[1..];
      RuleFiltersEmptyIff(tail, name, alias);
      assert forall k | 0 <= k < |tail| :: tail[k] == rules[k + 1];
    }
  }

  /**
    A table gets a combined filter exactly when some active rule both covers
    its bare name and builds a filter for it.
  */
  lemma TableFilterIffCovered(rules: seq<Rule>, bare: string -> string, t: Table)
    ensures TableFilter(rules, bare, t).None? <==>
      forall k | 0 <= k < |rules| :: !rules[k].includes(bare(t.name)) || rules[k].filter(bare(t.name), t.alias).None?
  {
    RuleFiltersEmptyIff(rules, bare(t.name), t.alias);
  }

  lemma TableFilterPrintsFaithfully(rules: seq<Rule>, bare: string -> string, t: Table)
    requires FiltersPrintFaithfully(rules)
    ensures TableFilter(rules, bare, t).Some? ==>
      PrintsFaithfully(TableFilter(rules, bare, t).value) && !LooserThanAnd(TableFilter(rules, bare, t).value)
  {
    var fs := RuleFilters(rules, bare(t.name), t.alias);
    if fs != [] {
      forall k | 0 <= k < |fs|
        ensures PrintsFaithfully(fs[k]) && !LooserThanAnd(fs[k])
      {
        RuleFiltersMembers(rules, bare(t.name), t.alias, fs[k]);
      }
      ConjoinPrintsFaithfully(fs);
    }
  }

  /** A filter is among the per-table filters exactly when it is one target table's filter. */
  lemma {:induction false} FiltersMembers(rules: seq<Rule>, bare: string -> string, tables: seq<Table>, e: Expr)
    ensures e in Filters(rules, bare, tables) <==>
      exists k | 0 <= k < |tables| :: TableFilter(rules, bare, tables[k]) == Some(e)
    decreases |tables|
  {
    if tables != [] {
      var tail := tables[1..];
      assert tables == [tables[0]] + tail;
      FiltersCons(rules, bare, tables[0], tail);
      FiltersMembers(rules, bare, tail, e);
      if e in Filters(rules, bare, tables) && TableFilter(rules, bare, tables[0]) != Some(e) {
        var k :| 0 <= k < |tail| && TableFilter(rules, bare, tail[k]) == Some(e);
        assert tables[k + 1] == tail[k];
      }
      if exists k | 0 <= k < |tables| :: TableFilter(rules, bare, tables[k]) == Some(e) {
        var k :| 0 <= k < |tables| && TableFilter(rules, bare, tables[k]) == Some(e);
        if k > 0 {
          assert tail[k - 1] == tables[k];
        }
      }
    }
  }

  /**
    Injection preserves precedence: if the existing condition prints
    faithfully and the rules build well-formed filters, so does the result,
    unless the existing condition is a bare XOR and a filter is added to it.
  */
  lemma InjectPrintsFaithfully(existing: Option<Expr>, tables: seq<Table>, env: Env)
    requires env.stack != []
    requires existing.Some? ==> PrintsFaithfully(existing.value)
    requires FiltersPrintFaithfully(Peek(env.stack))
    ensures var r := Inject(existing, tables, env);
      r.Some? ==> (PrintsFaithfully(r.value) <==> !(existing.Some? && IsXor(existing.value)) || r == existing)
  {
    var rules := Peek(env.stack);
    var fs := Filters(rules, env.bare, tables);
    if tables != [] && fs != [] {
      forall k | 0 <= k < |fs|
        ensures PrintsFaithfully(fs[k]) && !LooserThanAnd(fs[k])
      {
        FiltersMembers(rules, env.bare, tables, fs[k]);
        var i :| 0 <= i < |tables| && TableFilter(rules, env.bare, tables[i]) == Some(fs[k]);
        TableFilterPrintsFaithfully(rules, env.bare, tables[i]);
      }
      ConjoinPrintsFaithfully(fs);
      MergePrintsFaithfully(existing, Conjoin(fs).value);
    }
  }

  /**
    The condition comes back unchanged exactly when there is no target table
    or none of the target tables has a filter.
  */
  lemma InjectUnchangedIff(existing: Option<Expr>, tables: seq<Table>, env: Env)
    requires env.stack != []
    ensures Inject(existing, tables, env) == existing <==>
      tables == [] || Filters(Peek(env.stack), env.bare, tables) == []
  {
    var fs := Filters(Peek(env.stack), env.bare, tables);
    if tables != [] && fs != [] && existing.Some? {
      var e := existing.value;
      var m := Merge(existing, Conjoin(fs).value);
      if IsOr(e) {
        assert e < Paren(e) < m;
      } else {
        assert e < m;
      }
    }
  }

  /**
    The injected filter is the AND chain of the per-table filters in table
    order (OR is never introduced), placed right of the existing condition.
  */
  lemma InjectConjoinsFilters(existing: Option<Expr>, tables: seq<Table>, env: Env)
    requires env.stack != []
    ensures var fs := Filters(Peek(env.stack), env.bare, tables);
      fs != [] ==>
        && Inject(existing, tables, env).Some?
        && (existing.None? ==> Operands(Inject(existing, tables, env).value, |fs|) == Some(fs))
        && (existing.Some? ==> Operands(Inject(existing, tables, env).value.right, |fs|) == Some(fs))
  {
    var fs := Filters(Peek(env.stack), env.bare, tables);
    if fs != [] {
      ConjoinOperands(fs);
    }
  }

  /** Several rules covering one table: their filters joined by AND, in rule order. */
  lemma TableFilterConjoinsRules(rules: seq<Rule>, bare: string -> string, t: Table)
    ensures var fs := RuleFilters(rules, bare(t.name), t.alias);
      && (fs == [] <==> TableFilter(rules, bare, t).None?)
      && (fs != [] ==> Operands(TableFilter(rules, bare, t).value, |fs|) == Some(fs))
  {
    var fs := RuleFilters(rules, bare(t.name), t.alias);
    if fs != [] {
      ConjoinOperands(fs);
    }
  }

  /** Two rules both covering a table: `p1 AND p2`, never OR. */
  lemma TwoRulesConjoined(r1: Rule, r2: Rule, bare: string -> string, t: Table, p1: Expr, p2: Expr)
    requires r1.includes(bare(t.name)) && r1.filter(bare(t.name), t.alias) == Some(p1)
    requires r2.includes(bare(t.name)) && r2.filter(bare(t.name), t.alias) == Some(p2)
    ensures TableFilter([r1, r2], bare, t) == Some(And(p1, p2))
  {
    var name := bare(t.name);
    assert [r1, r2][1..] == [r2];
    assert RuleFilters([r2], name, t.alias) == [p2];
    assert RuleFilters([r1, r2], name, t.alias) == [p1, p2];
  }

  /** A table no active rule covers has no filter. */
  lemma UncoveredTableHasNoFilter(rules: seq<Rule>, bare: string -> string, t: Table)
    requires forall i | 0 <= i < |rules| :: !rules[i].includes(bare(t.name))
    ensures TableFilter(rules, bare, t) == None
  {
  }

  /** The filters of a list: the first table's filter, if any, then the rest's. */
  lemma FiltersCons(rules: seq<Rule>, bare: string -> string, t: Table, rest: seq<Table>)
    ensures Filters(rules, bare, [t] + rest) ==
      (match TableFilter(rules, bare, t) case Some(p) => [p] case None => []) + Filters(rules, bare, rest)
  {
    assert ([t] + rest)[0] == t;
    assert ([t] + rest)[1..] == rest;
  }

  lemma ConcatAssoc<T>(x: seq<T>, y: seq<T>, z: seq<T>)
    ensures x + (y + z) == (x + y) + z
  {
  }

  /** Per-table filters of a concatenation: the filters of each part, in order. */
  lemma {:induction false} FiltersAppend(rules: seq<Rule>, bare: string -> string, a: seq<Table>, b: seq<Table>)
    ensures Filters(rules, bare, a + b) == Filters(rules, bare, a) + Filters(rules, bare, b)
    decreases |a|
  {
    if a == [] {
      assert a + b == b;
    } else {
      var rest := a[1..];
      assert a == [a[0]] + rest;
      assert a + b == [a[0]] + (rest + b);
      var head := match TableFilter(rules, bare, a[0]) case Some(p) => [p] case None => [];
      FiltersCons(rules, bare, a[0], rest);
      FiltersCons(rules, bare, a[0], rest + b);
      FiltersAppend(rules, bare, rest, b);
      ConcatAssoc(head, Filters(rules, bare, rest), Filters(rules, bare, b));
    }
  }

  /** A target table no active rule covers can be dropped without changing the result. */
  lemma UncoveredTableContributesNothing(existing: Option<Expr>, tables: seq<Table>, k: nat, env: Env)
    requires env.stack != [] && k < |tables|
    requires forall i | 0 <= i < |Peek(env.stack)| :: !Peek(env.stack)[i].includes(env.bare(tables[k].name))
    ensures Inject(existing, tables, env) == Inject(existing, tables[..k] + tables[k + 1..], env)
  {
    var rules := Peek(env.stack);
    UncoveredTableHasNoFilter(rules, env.bare, tables[k]);
    assert tables == tables[..k] + ([tables[k]] + tables[k + 1..]);
    FiltersAppend(rules, env.bare, tables[..k], [tables[k]] + tables[k + 1..]);
    FiltersAppend(rules, env.bare, [tables[k]], tables[k + 1..]);
    FiltersAppend(rules, env.bare, tables[..k], tables[k + 1..]);
  }

  /** With no target covered by any active rule, the condition is returned as it is. */
  lemma UncoveredTablesLeaveConditionAlone(existing: Option<Expr>, tables: seq<Table>, env: Env)
    requires env.stack != []
    requires forall k, i | 0 <= k < |tables| && 0 <= i < |Peek(env.stack)| ::
      !Peek(env.stack)[i].includes(env.bare(tables[k].name))
    ensures Inject(existing, tables, env) == existing
  {
    forall k | 0 <= k < |tables|
      ensures TableFilter(Peek(env.stack), env.bare, tables[k]).None?
    {
      UncoveredTableHasNoFilter(Peek(env.stack), env.bare, tables[k]);
    }
  }

  /** Injection reads only the top frame of the stack. */
  lemma InjectReadsTopFrame(existing: Option<Expr>, tables: seq<Table>, env1: Env, env2: Env)
    requires env1.stack != [] && env2.stack != []
    requires Peek(env1.stack) == Peek(env2.stack) && env1.bare == env2.bare
    ensures Inject(existing, tables, env1) == Inject(existing, tables, env2)
  {
  }
}
