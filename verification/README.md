# Data-scope SQL rewrite: a Dafny model

This project models the row-scope rewrite engine of the data-scope library
(`DataScopeSqlProcessor`). Given an already parsed SELECT, UPDATE or DELETE
and the list of active data-scope rules, the engine conjoins each rule's
filter predicate into the WHERE clause or the JOIN ON clause where it
belongs, so that the statement only sees the rows the rules allow.

The model is purely functional:

- `ast.dfy` (`Ast`) holds the statement grammar as datatypes: statements,
  select bodies, FROM items, joins and expressions. It also holds a
  `Result` type whose only failure is the one the engine raises itself.
  That failure is a non-comma join whose right side is a parenthesised
  group yielding no table.
- `scope.dfy` (`Scope`) holds the rules and the scope holder. A rule is
  two functions: `includes(name)` and the filter it builds for a table
  name and alias. The holder is a thread-bound stack of rule lists. Here
  it is an explicit stack value, threaded through every call.
- `injector.dfy` (`Injector`) models both `injectExpression` overloads:
  1. collect the filters of the rules covering each table;
  2. AND-chain them;
  3. merge them into the existing condition, putting a top-level OR in
     parentheses.
- `joins.dfy` (`Joins`) holds the per-join decisions of `processJoins`:
  - the join-kind table (comma, RIGHT, INNER, everything else);
  - the main-table bookkeeping;
  - the deque that pairs a trailing list of ON predicates shared by
    several joins with those joins, most recent first.
- `processor.dfy` (`Processor`) holds the mutually recursive walk:
  - select bodies: plain, parenthesised, set operations;
  - select items and function arguments;
  - the WHERE sub-select scanner;
  - FROM items, parenthesised join groups, and the join chain as a left
    fold.
- `dispatch.dfy` (`Dispatch`) holds statement dispatch. SELECT, UPDATE and
  DELETE push the call's rules and pop them on every exit. INSERT is
  passed through.
- The `*_facts.dfy` files and `scenarios.dfy` hold the properties:
  - injection keeps precedence (except over a bare XOR condition) and
    never over-filters;
  - outer joins never move their NULL-padded side into WHERE;
  - shared ON lists pair latest-join-first;
  - with no covering rule, nothing changes;
  - only the top frame of the stack is ever read;
  - the textual sub-select guard is only a shortcut;
  - whole-statement outcomes for single tables, OR conditions,
    LEFT/RIGHT/INNER/comma joins, UPDATE, IN sub-selects, UNION, and a
    repeated rewrite.

Some behaviours of the code worth knowing:

- The WHERE scanner does not look inside function calls. Only the select
  list's functions are walked (lines 204-227).
- A comma join does not make its table the left table of the next join.
  It only adds it to the main tables (lines 333-336).
- After a single ON predicate is filtered at once, the next join's left
  table is the main table if one is known, else the joined table
  (line 372).
- The WHERE of an UPDATE or DELETE is filtered but not scanned for
  sub-selects (lines 112 and 130).
- A parenthesised table without joins, `(t)`, yields no table (lines
  280-291). So `FROM (t)` is not filtered, and `JOIN (t)` fails when the
  first table of the empty list is taken (line 339). Both are stated as
  lemmas in `Scenarios`.
- A non-comma join is classified by the first table of its right-hand
  side only (line 339). In `FROM a LEFT JOIN (b, d) ON x`, `b` is
  filtered in ON, WHERE filters `a`, and `d` is filtered nowhere
  (`Scenarios.JoinedGroupFiltersOnlyItsFirstTable`).
- An INNER join clears the main tables, including any a comma join added
  before it (lines 349-356). In `FROM a, b INNER JOIN c ON y`, ON is
  filtered for `a` and `c`, WHERE is left alone, and `b` is filtered
  nowhere (`Scenarios.CommaThenInnerJoinDropsCommaTable`).

Nothing here was executed. The lemmas are checked by the Dafny verifier
only.

## Model

| member | source | states |
|---|---|---|
| Scope.Push | src/main/java/fun/yannji/data/scope/processor/DataScopeSqlProcessor.java:500-506 | pushing a frame makes it the top frame, and popping afterwards gives back exactly the stack it was pushed on |
| Scope.Poll | src/main/java/fun/yannji/data/scope/processor/DataScopeSqlProcessor.java:511-518 | popping drops only the top frame, leaving every lower frame in place and in order; popping an empty stack is harmless |
| Scope.Peek | src/main/java/fun/yannji/data/scope/processor/DataScopeSqlProcessor.java:492-495 | the rules the current call reads are its top frame: that frame on top of the stack with it popped is the stack again |
| Injector.Conjoin | src/main/java/fun/yannji/data/scope/processor/DataScopeSqlProcessor.java:450-457 | the per-table filters are folded with AND, left to right: no filter gives nothing, one filter gives that filter, and several always give an AND |
| Injector.RuleFilters | src/main/java/fun/yannji/data/scope/processor/DataScopeSqlProcessor.java:429-443 | a table gets at most one filter per active rule, and none when no rule covers its bare name |
| InjectorFacts.RuleFiltersEmptyIff | src/main/java/fun/yannji/data/scope/processor/DataScopeSqlProcessor.java:429-443 | a table collects no filter exactly when every rule covering its bare name declines (returns null) |
| Injector.TableFilter | src/main/java/fun/yannji/data/scope/processor/DataScopeSqlProcessor.java:425-443 | a table has a combined filter exactly when its rules collected some filter, and a single collected filter is used as it is, not wrapped |
| InjectorFacts.TableFilterIffCovered | src/main/java/fun/yannji/data/scope/processor/DataScopeSqlProcessor.java:425-443 | a table gets a combined filter exactly when some active rule both covers its bare name and builds a filter for it |
| InjectorFacts.RuleFiltersMembers | src/main/java/fun/yannji/data/scope/processor/DataScopeSqlProcessor.java:429-443 | a filter is collected for a table exactly when some active rule covers the table's bare name and builds that filter; rules that decline contribute nothing |
| Injector.Filters | src/main/java/fun/yannji/data/scope/processor/DataScopeSqlProcessor.java:423-444 | there is at most one filter per target table, and none when no target table has a filter |
| InjectorFacts.FiltersMembers | src/main/java/fun/yannji/data/scope/processor/DataScopeSqlProcessor.java:423-444 | a filter is in the per-table list exactly when it is the combined filter of one of the target tables |
| Injector.Merge | src/main/java/fun/yannji/data/scope/processor/DataScopeSqlProcessor.java:459-470 | no existing condition: the result is the filter alone; otherwise an AND whose right side is the filter and whose left side is the existing condition, put in parentheses exactly when it is a top-level OR, so the left side is never a bare OR |
| Injector.Inject | src/main/java/fun/yannji/data/scope/processor/DataScopeSqlProcessor.java:417-471 | an existing condition never disappears: it is either returned unchanged or kept as the left operand of an AND, parenthesised if it is an OR; a condition appears from nothing only when there are target tables with a filter |
| Injector.InjectOne | src/main/java/fun/yannji/data/scope/processor/DataScopeSqlProcessor.java:407-409 | injecting for one table merges that table's own filter into the condition (parenthesising an OR), and returns the condition unchanged when the table has no filter |
| InjectorFacts.ConjoinOperands | src/main/java/fun/yannji/data/scope/processor/DataScopeSqlProcessor.java:450-457 | the AND chain built from the filters reads back as exactly those filters, in table order, so nothing is lost, reordered or duplicated |
| InjectorFacts.ConjoinPrintsFaithfully | src/main/java/fun/yannji/data/scope/processor/DataScopeSqlProcessor.java:450-457 | chaining filters that print back faithfully and bind at least as tightly as AND gives such a filter |
| InjectorFacts.MergePrintsFaithfully | src/main/java/fun/yannji/data/scope/processor/DataScopeSqlProcessor.java:459-470 | for a faithfully printing condition and a filter binding at least as tightly as AND, the merged condition prints faithfully, OR conditions included, if and only if the condition is not a bare XOR (only OR is parenthesised) |
| InjectorFacts.UnparenthesisedOrMisprints | src/main/java/fun/yannji/data/scope/processor/DataScopeSqlProcessor.java:465-467 | without the parentheses an OR condition under the new AND would re-associate once printed, and with them it does not |
| InjectorFacts.BareOrFilterMisprints | src/main/java/fun/yannji/data/scope/processor/DataScopeSqlProcessor.java:459-470 | a filter that is itself a bare OR is not protected: the merged condition then re-associates once printed |
| InjectorFacts.XorConditionMisprints | src/main/java/fun/yannji/data/scope/processor/DataScopeSqlProcessor.java:464-469 | an XOR condition is conjoined unparenthesised, `a XOR b AND p`, which regroups as `a XOR (b AND p)` once printed |
| InjectorFacts.TableFilterPrintsFaithfully | src/main/java/fun/yannji/data/scope/processor/DataScopeSqlProcessor.java:439-443 | rules that build well-formed filters give a well-formed combined table filter |
| InjectorFacts.InjectPrintsFaithfully | src/main/java/fun/yannji/data/scope/processor/DataScopeSqlProcessor.java:417-471 | for a faithfully printing condition and rules building well-formed filters, the injected condition prints faithfully if and only if the condition was left as it was or is not a bare XOR |
| InjectorFacts.InjectUnchangedIff | src/main/java/fun/yannji/data/scope/processor/DataScopeSqlProcessor.java:417-421 | the condition comes back unchanged if and only if there is no target table or no target table has a filter |
| InjectorFacts.InjectConjoinsFilters | src/main/java/fun/yannji/data/scope/processor/DataScopeSqlProcessor.java:446-457 | the injected part is the AND chain of the per-table filters in table order, standing alone or right of the existing condition; OR is never introduced |
| InjectorFacts.TableFilterConjoinsRules | src/main/java/fun/yannji/data/scope/processor/DataScopeSqlProcessor.java:439-443 | several rules covering one table combine as the AND chain of their filters, in rule order |
| InjectorFacts.TwoRulesConjoined | src/main/java/fun/yannji/data/scope/processor/DataScopeSqlProcessor.java:439-443 | two rules covering the same table give `p1 AND p2`, never OR |
| InjectorFacts.UncoveredTableHasNoFilter | src/main/java/fun/yannji/data/scope/processor/DataScopeSqlProcessor.java:429-436 | a table no active rule covers has no filter |
| InjectorFacts.FiltersCons | src/main/java/fun/yannji/data/scope/processor/DataScopeSqlProcessor.java:423-444 | the filters of a list are the first table's filter, if it has one, followed by the filters of the rest |
| InjectorFacts.FiltersAppend | src/main/java/fun/yannji/data/scope/processor/DataScopeSqlProcessor.java:423-444 | the filters of two concatenated table lists are the filters of each list, in order |
| InjectorFacts.UncoveredTableContributesNothing | src/main/java/fun/yannji/data/scope/processor/DataScopeSqlProcessor.java:424-436 | dropping a target table no rule covers does not change the injected condition (no over-filtering) |
| InjectorFacts.UncoveredTablesLeaveConditionAlone | src/main/java/fun/yannji/data/scope/processor/DataScopeSqlProcessor.java:417-448 | when no target table is covered by an active rule, the condition is returned as it is |
| InjectorFacts.InjectReadsTopFrame | src/main/java/fun/yannji/data/scope/processor/DataScopeSqlProcessor.java:429-432 | injection depends only on the top frame of the scope stack |
| Joins.Start | src/main/java/fun/yannji/data/scope/processor/DataScopeSqlProcessor.java:307-313 | a single FROM table is both the main table and the first left table; otherwise both are unknown; the known main table is always among the main tables |
| Joins.Classify | src/main/java/fun/yannji/data/scope/processor/DataScopeSqlProcessor.java:341-363 | the join-kind table: RIGHT makes the joined table the only main table and targets the known left table in ON (none if unknown); INNER targets the main table and the joined table (or the joined table alone) and clears the main tables; any other kind targets the joined table only and keeps the main tables, re-adding the main table if it is missing; the known main table always stays listed |
| Joins.PairedOn | src/main/java/fun/yannji/data/scope/processor/DataScopeSqlProcessor.java:381-387 | a predicate paired with null or empty targets is left alone |
| JoinFacts.PairedOnKeepsPredicate | src/main/java/fun/yannji/data/scope/processor/DataScopeSqlProcessor.java:381-387 | an ON predicate is either left alone or kept as the left operand of an AND with the filters, parenthesised if it is an OR, so the join condition is never weakened |
| JoinFacts.PairedOnInjectsFilters | src/main/java/fun/yannji/data/scope/processor/DataScopeSqlProcessor.java:381-387 | an ON predicate paired with target tables is left alone when none of them has a filter, and otherwise becomes the predicate (parenthesised if an OR) AND the chain of the targets' filters in target order |
| Joins.Pops | src/main/java/fun/yannji/data/scope/processor/DataScopeSqlProcessor.java:378-390 | n pops from the pushed target lists take them most recent first, yield null once the lists run out, and consume exactly the lists taken |
| Joins.PairTail | src/main/java/fun/yannji/data/scope/processor/DataScopeSqlProcessor.java:378-390 | a shared ON list keeps its length; the k-th predicate is paired with the k-th most recently pushed targets (null once they run out), and exactly the used targets are consumed |
| Joins.AttachOn | src/main/java/fun/yannji/data/scope/processor/DataScopeSqlProcessor.java:366-391 | a single ON predicate with known targets is filtered at once and nothing is pushed; otherwise the targets are pushed and, for several predicates, the first goes to this join and the later ones to the earlier pushed targets, latest first; the ON count never changes |
| Joins.Resolve | src/main/java/fun/yannji/data/scope/processor/DataScopeSqlProcessor.java:330-391 | a comma join adds its tables to the main tables and leaves ON alone; any other join fails exactly when its right side yields no table; the right item, kind and ON count are kept, and the main-table invariant is preserved |
| JoinFacts.ResolveUsesFirstTable | src/main/java/fun/yannji/data/scope/processor/DataScopeSqlProcessor.java:338-358 | a non-comma join is resolved exactly as if its right-hand side were only its first table: the others are neither ON targets nor main tables |
| JoinFacts.NonInnerJoinStep | src/main/java/fun/yannji/data/scope/processor/DataScopeSqlProcessor.java:357-372 | a LEFT, FULL, CROSS or bare `JOIN` of a table keeps the main tables and filters its single ON predicate for the joined table |
| JoinFacts.NonInnerChainKeepsMainTables | src/main/java/fun/yannji/data/scope/processor/DataScopeSqlProcessor.java:317-398 | a chain of LEFT/FULL/CROSS/bare joins of tables never adds a joined (NULL-padded) table to the WHERE-level main tables, and filters each single ON predicate for its own right table |
| JoinFacts.RightJoinHandsWhereToRightTable | src/main/java/fun/yannji/data/scope/processor/DataScopeSqlProcessor.java:343-348 | after a RIGHT join of a table, that table is the only main table, and its single ON predicate is filtered for the known left table only (left alone when unknown) |
| JoinFacts.InnerJoinWithoutOnPushesPair | src/main/java/fun/yannji/data/scope/processor/DataScopeSqlProcessor.java:349-356 | `a INNER JOIN b` with no ON of its own pushes the targets `a, b` and leaves nothing for WHERE |
| JoinFacts.InnerJoinStep | src/main/java/fun/yannji/data/scope/processor/DataScopeSqlProcessor.java:349-389 | an INNER join of a table, from any state, leaves no table for WHERE and targets the known main table (if any) and the joined table; a single ON is filtered for them at once, and without an ON they are pushed for a later predicate |
| JoinFacts.InnerJoinPairsTrailingOn | src/main/java/fun/yannji/data/scope/processor/DataScopeSqlProcessor.java:376-390 | a join carrying two trailing predicates gives the first to itself and the second to the targets pushed before it |
| JoinFacts.ProcessJoinsCons | src/main/java/fun/yannji/data/scope/processor/DataScopeSqlProcessor.java:317-396 | the join fold is the step for the first join followed by the fold over the rest |
| JoinFacts.TrailingJoinFold | src/main/java/fun/yannji/data/scope/processor/DataScopeSqlProcessor.java:366-391 | the fold over the last join of `a INNER JOIN b INNER JOIN c ON x ON y` pairs `x` with `c` and `y` with `a, b` |
| JoinFacts.SharedTailPairsLatestFirst | src/main/java/fun/yannji/data/scope/processor/DataScopeSqlProcessor.java:366-391 | `a INNER JOIN b INNER JOIN c ON x ON y`: `x` is filtered for `c`, `y` for `a` and `b`, no target is left over and no table is left for WHERE |
| JoinFacts.RightJoinWithoutLeftTableLeavesOn | src/main/java/fun/yannji/data/scope/processor/DataScopeSqlProcessor.java:343-348 | a RIGHT join with no known left table pushes a null target and leaves its ON predicate alone |
| Processor.ProcessBody | src/main/java/fun/yannji/data/scope/processor/DataScopeSqlProcessor.java:73-91 | other select kinds are left alone; a parenthesised select is its inner select, rewritten; a set operation succeeds exactly when every member does, each member rewritten on its own; a plain select keeps its select list, FROM, WHERE presence and joins (kind and ON count of each) |
| Processor.ProcessMembers | src/main/java/fun/yannji/data/scope/processor/DataScopeSqlProcessor.java:84-89 | the members of a set operation succeed exactly when each does, and each result is that member's own rewrite |
| Processor.ProcessSelectItem | src/main/java/fun/yannji/data/scope/processor/DataScopeSqlProcessor.java:231-238 | a sub-select item is replaced by its own rewrite and a function call by the call with its arguments rewritten, failing when they fail; anything else, and any item with no nested select, is unchanged; only nested statements change |
| Processor.ProcessSelectItems | src/main/java/fun/yannji/data/scope/processor/DataScopeSqlProcessor.java:250-261 | a list of items or function arguments succeeds exactly when every item does, and each result is that item's own rewrite; the number and shape outside nested statements are kept |
| Processor.ScanWhere | src/main/java/fun/yannji/data/scope/processor/DataScopeSqlProcessor.java:194-229 | a sub-select is replaced by its rewrite; a binary operator, EXISTS, NOT or parenthesis mentioning a sub-select has its operands scanned; an IN has only its right-hand sub-select rewritten; function calls and other nodes are not looked into; a condition with no sub-select, and the condition's own shape, are unchanged |
| Processor.ScanWhereOpt | src/main/java/fun/yannji/data/scope/processor/DataScopeSqlProcessor.java:194-197 | a missing WHERE stays missing; a present one is scanned |
| Processor.ProcessFrom | src/main/java/fun/yannji/data/scope/processor/DataScopeSqlProcessor.java:169-184 | a table contributes itself; a parenthesised group contributes what the group resolution yields; a derived table or other item contributes no table and is processed as an item of its own; the kind of FROM item is kept |
| Processor.ProcessFromOpt | src/main/java/fun/yannji/data/scope/processor/DataScopeSqlProcessor.java:153-155 | a missing FROM contributes no table and stays missing |
| Processor.OtherFromItem | src/main/java/fun/yannji/data/scope/processor/DataScopeSqlProcessor.java:266-273 | only a derived table is looked into, as a statement of its own; any other item is unchanged |
| Processor.SubJoin | src/main/java/fun/yannji/data/scope/processor/DataScopeSqlProcessor.java:280-291 | groups without joins are unwrapped; a group without joins around a non-group item yields no table and is unchanged; a group with joins succeeds exactly when its FROM item and join chain do, and contributes the main tables surviving that chain |
| Processor.ProcessJoins | src/main/java/fun/yannji/data/scope/processor/DataScopeSqlProcessor.java:301-399 | the join fold keeps the number of joins, each join's kind and its ON count, and keeps the known main table among the main tables |
| Processor.JoinStep | src/main/java/fun/yannji/data/scope/processor/DataScopeSqlProcessor.java:319-395 | a table on the right is resolved as itself, a group as the tables its resolution yields; an item that is neither (a derived table, say) is processed by `OtherFromItem`, whose failure is the step's failure, and otherwise gets no ON filter, keeps its ON list and leaves the next join without a left table; the main-table invariant is kept |
| ProcessorFacts.InjectInert | src/main/java/fun/yannji/data/scope/processor/DataScopeSqlProcessor.java:434-436 | with no covering rule, injection returns the condition as it is |
| ProcessorFacts.PairedOnInert | src/main/java/fun/yannji/data/scope/processor/DataScopeSqlProcessor.java:381-387 | with no covering rule, a trailing ON predicate is left alone |
| ProcessorFacts.AttachOnInert | src/main/java/fun/yannji/data/scope/processor/DataScopeSqlProcessor.java:366-391 | with no covering rule, a join's ON list is unchanged |
| ProcessorFacts.ResolveInert | src/main/java/fun/yannji/data/scope/processor/DataScopeSqlProcessor.java:330-391 | with no covering rule, resolving a join leaves the join unchanged |
| ProcessorFacts.BodyInert | src/main/java/fun/yannji/data/scope/processor/DataScopeSqlProcessor.java:73-91 | with no rule covering any table, a select body is rewritten to itself |
| ProcessorFacts.ItemInert | src/main/java/fun/yannji/data/scope/processor/DataScopeSqlProcessor.java:231-238 | with no covering rule, a select item is unchanged |
| ProcessorFacts.ItemsInert | src/main/java/fun/yannji/data/scope/processor/DataScopeSqlProcessor.java:250-261 | with no covering rule, a list of items or arguments is unchanged |
| ProcessorFacts.ScanInert | src/main/java/fun/yannji/data/scope/processor/DataScopeSqlProcessor.java:194-229 | with no covering rule, a WHERE condition is unchanged |
| ProcessorFacts.ScanOptInert | src/main/java/fun/yannji/data/scope/processor/DataScopeSqlProcessor.java:194-197 | with no covering rule, an optional WHERE is unchanged |
| ProcessorFacts.FromInert | src/main/java/fun/yannji/data/scope/processor/DataScopeSqlProcessor.java:169-184 | with no covering rule, a FROM item is unchanged |
| ProcessorFacts.FromOptInert | src/main/java/fun/yannji/data/scope/processor/DataScopeSqlProcessor.java:153-155 | with no covering rule, an optional FROM is unchanged |
| ProcessorFacts.OtherFromInert | src/main/java/fun/yannji/data/scope/processor/DataScopeSqlProcessor.java:266-273 | with no covering rule, a derived or other FROM item is unchanged |
| ProcessorFacts.SubJoinInert | src/main/java/fun/yannji/data/scope/processor/DataScopeSqlProcessor.java:280-291 | with no covering rule, a join group is unchanged |
| ProcessorFacts.JoinsInert | src/main/java/fun/yannji/data/scope/processor/DataScopeSqlProcessor.java:301-399 | with no covering rule, a join chain is unchanged |
| ProcessorFacts.JoinStepInert | src/main/java/fun/yannji/data/scope/processor/DataScopeSqlProcessor.java:317-395 | with no covering rule, a single join is unchanged |
| ProcessorFacts.PlainWhereFiltersSurvivingTables | src/main/java/fun/yannji/data/scope/processor/DataScopeSqlProcessor.java:141-167 | a plain select's WHERE receives the filters of exactly the main tables surviving its FROM item and join chain, after its own sub-selects are rewritten, and is left as scanned when no main table survives; select list, FROM and joins are each their own rewrite |
| ProcessorFacts.GroupedFromResolvesChain | src/main/java/fun/yannji/data/scope/processor/DataScopeSqlProcessor.java:279-289 | a joined group in FROM contributes the main tables its join chain leaves, the chain starting from the tables of the group's own FROM item; it fails when that item or the chain fails (the step `GroupedJoinsRewriteLikeFlat` rests on) |
| ProcessorFacts.GroupedJoinsRewriteLikeFlat | src/main/java/fun/yannji/data/scope/processor/DataScopeSqlProcessor.java:276-291 | a parenthesised FROM item with its join chain, `FROM (x JOIN ...)`, is rewritten exactly as the unparenthesised chain is, WHERE filters included, and fails exactly when it fails |
| ProcessorFacts.ScanUnguarded | src/main/java/fun/yannji/data/scope/processor/DataScopeSqlProcessor.java:204-227 | the full walk replaces every reachable sub-select by its rewrite, through binary operators, EXISTS, NOT, parentheses and the right side of IN, and leaves every other node alone |
| ProcessorFacts.UnguardedWithoutSelect | src/main/java/fun/yannji/data/scope/processor/DataScopeSqlProcessor.java:204-227 | walking a condition that has no sub-select changes nothing |
| ProcessorFacts.GuardIsShortcut | src/main/java/fun/yannji/data/scope/processor/DataScopeSqlProcessor.java:202 | skipping conditions that mention no sub-select gives the same outcome as walking them in full: the textual guard is only a shortcut |
| Dispatch.CallEnv | src/main/java/fun/yannji/data/scope/processor/DataScopeSqlProcessor.java:60 | a call runs with its own rules on top of the caller's stack, and popping them restores the caller's stack |
| Dispatch.RewriteSelect | src/main/java/fun/yannji/data/scope/processor/DataScopeSqlProcessor.java:61-65 | a SELECT succeeds exactly when its body and every WITH item do, and each is rewritten on its own under the same rules |
| Dispatch.Rewrite | src/main/java/fun/yannji/data/scope/processor/DataScopeSqlProcessor.java:56-136 | every statement hands the caller's stack back unchanged, failure included; INSERT is returned as it is; SELECT is rewritten with the call's rules on top; UPDATE and DELETE keep table and assignments and get the table's filter on their WHERE |
| FrameFacts.PairTailSameView | src/main/java/fun/yannji/data/scope/processor/DataScopeSqlProcessor.java:378-390 | pairing a shared ON list reads only the top frame |
| FrameFacts.ResolveSameView | src/main/java/fun/yannji/data/scope/processor/DataScopeSqlProcessor.java:330-391 | resolving a join reads only the top frame |
| FrameFacts.BodySameView | src/main/java/fun/yannji/data/scope/processor/DataScopeSqlProcessor.java:73-91 | rewriting a select body reads only the top frame: nested statements use the enclosing call's rules |
| FrameFacts.MembersSameView | src/main/java/fun/yannji/data/scope/processor/DataScopeSqlProcessor.java:84-89 | rewriting set-operation members reads only the top frame |
| FrameFacts.ItemSameView | src/main/java/fun/yannji/data/scope/processor/DataScopeSqlProcessor.java:231-238 | rewriting a select item reads only the top frame |
| FrameFacts.ItemsSameView | src/main/java/fun/yannji/data/scope/processor/DataScopeSqlProcessor.java:250-261 | rewriting function arguments reads only the top frame |
| FrameFacts.ScanSameView | src/main/java/fun/yannji/data/scope/processor/DataScopeSqlProcessor.java:194-229 | the WHERE scan reads only the top frame |
| FrameFacts.ScanOptSameView | src/main/java/fun/yannji/data/scope/processor/DataScopeSqlProcessor.java:194-197 | scanning an optional WHERE reads only the top frame |
| FrameFacts.FromSameView | src/main/java/fun/yannji/data/scope/processor/DataScopeSqlProcessor.java:169-184 | resolving a FROM item reads only the top frame |
| FrameFacts.FromOptSameView | src/main/java/fun/yannji/data/scope/processor/DataScopeSqlProcessor.java:153-155 | resolving an optional FROM reads only the top frame |
| FrameFacts.OtherFromSameView | src/main/java/fun/yannji/data/scope/processor/DataScopeSqlProcessor.java:266-273 | processing a derived table reads only the top frame |
| FrameFacts.SubJoinSameView | src/main/java/fun/yannji/data/scope/processor/DataScopeSqlProcessor.java:280-291 | resolving a join group reads only the top frame |
| FrameFacts.JoinsSameView | src/main/java/fun/yannji/data/scope/processor/DataScopeSqlProcessor.java:301-399 | the join fold reads only the top frame |
| FrameFacts.JoinStepSameView | src/main/java/fun/yannji/data/scope/processor/DataScopeSqlProcessor.java:317-395 | a single join step reads only the top frame |
| FrameFacts.RewriteIgnoresEnclosingFrames | src/main/java/fun/yannji/data/scope/processor/DataScopeSqlProcessor.java:56-71 | the rewritten statement does not depend on frames enclosing calls left on the stack, and the stack comes back as it was |
| Scenarios.PlainOverTable | src/main/java/fun/yannji/data/scope/processor/DataScopeSqlProcessor.java:141-167 | a plain select over one table, with no nested statement in its select list or WHERE, resolves its joins from that table and injects into WHERE exactly when main tables survive the joins |
| Scenarios.SingleTableFilteredInWhere | src/main/java/fun/yannji/data/scope/processor/DataScopeSqlProcessor.java:141-167 | `SELECT .. FROM t`: `t`'s filter goes into WHERE, nothing else changes |
| Scenarios.SingleTableGetsExactlyItsFilter | src/main/java/fun/yannji/data/scope/processor/DataScopeSqlProcessor.java:459-461 | `SELECT * FROM t` with filter `p` for `t` gets WHERE exactly `p` |
| Scenarios.OrConditionIsParenthesised | src/main/java/fun/yannji/data/scope/processor/DataScopeSqlProcessor.java:465-466 | `SELECT * FROM t WHERE a OR b` gets WHERE `(a OR b) AND p` |
| Scenarios.LeftJoinFiltersRightSideInOn | src/main/java/fun/yannji/data/scope/processor/DataScopeSqlProcessor.java:357-372 | `FROM a LEFT JOIN b ON c`, and likewise FULL, CROSS or a bare `JOIN`: `b` is filtered in ON only, WHERE filters `a` only, so unmatched rows of `a` survive |
| Scenarios.RightJoinFiltersLeftSideInOn | src/main/java/fun/yannji/data/scope/processor/DataScopeSqlProcessor.java:343-348 | `FROM a RIGHT JOIN b ON c`: `a` is filtered in ON, WHERE filters the preserved side `b` |
| Scenarios.InnerJoinFiltersBothInOn | src/main/java/fun/yannji/data/scope/processor/DataScopeSqlProcessor.java:349-356 | `FROM a INNER JOIN b ON c`: both tables are filtered in ON and WHERE is left alone |
| Scenarios.JoinedGroupFiltersOnlyItsFirstTable | src/main/java/fun/yannji/data/scope/processor/DataScopeSqlProcessor.java:326-358 | `FROM a LEFT JOIN (b, d) ON x` (or FULL, CROSS, bare `JOIN`): ON is filtered for `b` only and WHERE for `a` only, so `d` is filtered nowhere |
| Scenarios.CommaThenInnerJoinDropsCommaTable | src/main/java/fun/yannji/data/scope/processor/DataScopeSqlProcessor.java:330-372 | `FROM a, b INNER JOIN c ON y`: ON is filtered for `a` and `c`, WHERE is left alone, so `b` is filtered nowhere |
| Scenarios.CommaJoinFiltersBothInWhere | src/main/java/fun/yannji/data/scope/processor/DataScopeSqlProcessor.java:333-336 | `FROM a, b`: one WHERE injection carries the filters of both tables and the join is untouched |
| Scenarios.CommaJoinConjoinsBothFilters | src/main/java/fun/yannji/data/scope/processor/DataScopeSqlProcessor.java:450-469 | with filters `p` and `q` for the two tables of a comma join, WHERE `w` becomes `w AND (p AND q)` |
| Scenarios.UpdateAppendsFilter | src/main/java/fun/yannji/data/scope/processor/DataScopeSqlProcessor.java:107-118 | `UPDATE t SET .. WHERE w` with filter `p` for `t` becomes `.. WHERE w AND p`, and the stack is restored |
| Scenarios.InSubSelectRewrittenWithSameRules | src/main/java/fun/yannji/data/scope/processor/DataScopeSqlProcessor.java:209-215 | `WHERE l IN (sub-select)`: the sub-select is rewritten under the same rules, and the outer WHERE gets only the outer table's filter |
| Scenarios.UnionBranchesFilteredIndependently | src/main/java/fun/yannji/data/scope/processor/DataScopeSqlProcessor.java:84-89 | each branch of a UNION over `t` gets `t`'s filter in its own WHERE |
| Scenarios.RewriteIsNotIdempotent | src/main/java/fun/yannji/data/scope/processor/DataScopeSqlProcessor.java:164-165 | rewriting an already rewritten `SELECT * FROM t` adds the filter again (`p AND p`): the rewrite must run once per statement |
| Scenarios.ParenthesisedTableIsNotFiltered | src/main/java/fun/yannji/data/scope/processor/DataScopeSqlProcessor.java:280-291 | `FROM (t)`, a parenthesised table without joins, yields no main table, so the statement is not filtered at all |
| Scenarios.JoiningParenthesisedTableFails | src/main/java/fun/yannji/data/scope/processor/DataScopeSqlProcessor.java:326-339 | joining `(t)` with any kind but comma finds no table to classify, and the whole rewrite fails |

## Left out

- The MyBatis interceptor, request-scoped activation, the rule registry and the Spring wiring are left out. They are container and I/O plumbing around the engine, which receives the active rules as a parameter here.
- Parsing and printing SQL are left out, because they belong to the SQL parser library. The model starts from a parsed tree. Printing appears only as the `PrintsFaithfully` predicate: the printer adds no parentheses of its own.
- Table-name normalisation (`SqlParseUtils.getTableName`) is not part of this model. It is the uninterpreted function `Env.bare`.
- The sub-select guard is abstracted. The source checks that the printed WHERE expression contains `SELECT` past its first character (line 202). The model replaces this with the structural predicate `MentionsSelect`. `ProcessorFacts.GuardIsShortcut` shows the guard cannot change the outcome, so only its cost is abstracted.
- Rules that throw are left out: a rule is a total function. In the source, an exception from a rule aborts the whole call. The frame is still popped, which `Dispatch.Rewrite`'s stack equation covers for the modelled failure.
- Logging is left out, because it has no effect on the result (line 271).
- Java object identity is replaced by value equality for tables. The only identity test, `contains` at line 361, can only matter right after a RIGHT join. At that point the list holds nothing else, so both readings agree (`Joins.Coherent`).
- `with` items of a SELECT are modelled as select bodies processed like the main body (lines 62-65). The source hands each `WithItem` to the select-body dispatch, which acts only on plain, parenthesised and set-operation selects (lines 77-90); whether a `WithItem` is one of those depends on the parser's class hierarchy, which is not part of this model. The model assumes a `WithItem` is handled as a parenthesised select; if it is not, the source leaves WITH bodies unfiltered where `Dispatch.RewriteSelect` filters them.
- Binary operators other than AND, OR and XOR (comparisons, arithmetic, ...) are not told apart (`OtherOp`); their operands are still scanned for sub-selects like those of any binary operator. Only CASE, CAST and other expression kinds (`OtherExpr`) are not looked into, in the source or here. Their precedence among themselves is not modelled: `PrintsFaithfully` only checks that none of them is split by an AND, OR or XOR around it.
- Scope.Peek: requires a non-empty stack. On an empty stack the source's `peek` returns null and the injector would fail on it. The engine only reads the stack under a pushed frame, so the model requires a non-empty stack instead.
- InjectorFacts.MergePrintsFaithfully: precedence is kept for every condition but a bare XOR. The source parenthesises only an OR (lines 466-469), so `WHERE a XOR b` becomes `a XOR b AND p`. That reads as `a XOR (b AND p)` and lets rows outside the filter through. The lemma states the exception as an if-and-only-if, and `InjectorFacts.XorConditionMisprints` shows the regrouping.
- InjectorFacts.InjectPrintsFaithfully: the same XOR exception, for the whole injection.
- Joins.PairedOn: its own contract states only that null or empty targets leave the predicate alone. What non-empty targets add is stated by `JoinFacts.PairedOnInjectsFilters`. It is kept out of the function because a richer contract there makes the proofs that pair shared ON lists expensive.
- Scenarios.PlainOverTable: stated for one FROM table and a select list and WHERE without nested statements. The general plain select is `ProcessorFacts.PlainWhereFiltersSurvivingTables`.
- Join kinds follow the parser's flags, not the SQL meaning. `JoinKind.Inner` is a join written with INNER. A bare `JOIN` carries no flag and is `JoinKind.Unmarked`. Like LEFT, FULL and CROSS, it takes the source's last branch (lines 357-358): only the joined table is filtered in ON, and the main table stays in WHERE. The parser's mapping of keywords to flags is not part of this model.
- InjectorFacts.BareOrFilterMisprints: injection is proved to preserve precedence only for rules whose filters are not bare OR or XOR expressions. A rule that returns `a OR b` unparenthesised is conjoined as is (lines 439-443 and 469), and the printed condition then re-associates. The lemma states this limitation; it is a rule-author obligation, not something the engine promises.
