/**
  Abstract syntax of the statements the data-scope rewrite engine walks: an
  already-parsed SELECT, INSERT, UPDATE or DELETE, reduced to the node kinds
  the engine distinguishes. Everything else is an opaque leaf.
*/
module Ast {

  /** A nullable reference of the source (`null` is `None`). */
  datatype Option<+T> = None | Some(value: T)

  /**
    The one failure the engine raises itself: a non-comma join whose right
    side is a parenthesised group that yields no table, so that taking its
    first table fails (an index-out-of-bounds in the source).
  */
  datatype Fault = EmptyJoinGroup

  /** Outcome of a rewrite step; failure aborts the whole statement. */
  datatype Result<+T> = Success(value: T) | Failure(fault: Fault) {
    predicate IsFailure() {
      Failure?
    }

    function PropagateFailure<U>(): Result<U>
      requires Failure?
    {
      Failure(fault)
    }

    function Extract(): T
      requires Success?
    {
      value
    }
  }

  /** A physical table reference: its (possibly quoted) name and optional alias. */
  datatype Table = Table(name: string, alias: Option<string>)

  /**
    Binary operators: the three logical connectives, whose relative
    precedence decides how a printed condition regroups, and the rest
    (comparisons, arithmetic, ...), which all bind tighter than them.
  */
  datatype BinOp = AndOp | OrOp | XorOp | OtherOp(symbol: string)

  datatype Expr =
    | Leaf(text: string)                         // column, literal, parameter, ...
    | Binary(op: BinOp, left: Expr, right: Expr) // AND, OR, =, <, +, ...
    | In(left: Expr, right: Expr)                // left IN right
    | Exists(inner: Expr)                        // EXISTS inner
    | Not(inner: Expr)                           // NOT inner
    | Paren(inner: Expr)                         // ( inner )
    | Func(name: string, args: seq<Expr>)        // name(args...)
    | SubSelect(body: SelectBody)                // ( SELECT ... ) in expression position
    | OtherExpr(kind: string, parts: seq<Expr>)  // CASE, CAST, ...: never scanned

  /**
    How a join is written. `Comma` is the implicit inner join `FROM a, b`;
    the source tests comma first, then RIGHT, then INNER, and treats every
    other kind alike.
  */
  datatype JoinKind =
    | Comma
      /** Written with the INNER keyword. */
    | Inner
    | Right
    | Left
    | Full
    | Cross
      /** A bare `JOIN`: the parser sets none of the kind flags, so it is not `Inner`. */
    | Unmarked

  /** One join: its right-hand item, its kind and its trailing ON predicates (0, 1 or many). */
  datatype Join = Join(right: FromItem, kind: JoinKind, on: seq<Expr>)

  /** The join list of a parenthesised group: null for `( item )`, else the list. */
  datatype GroupJoins = Unjoined | Joined(list: seq<Join>)

  datatype FromItem =
    | TableItem(table: Table)
      /** A parenthesised join group `( item JOIN ... )`. */
    | Group(inner: FromItem, joins: GroupJoins)
      /** A derived table `( SELECT ... )`. */
    | Derived(body: SelectBody)
      /** Anything that is not a table, a join group or a parenthesised select (table functions, VALUES lists, ...): never filtered. */
    | OtherItem(kind: string)

  datatype SelectBody =
    | Plain(items: seq<Expr>, from: Option<FromItem>, joins: seq<Join>, where: Option<Expr>)
    | ParenSelect(inner: SelectBody)
    | SetOp(members: seq<SelectBody>)
    | OtherSelect(kind: string)

  datatype Statement =
      /** A query and the bodies of its WITH items. */
    | Select(body: SelectBody, with: seq<SelectBody>)
    | Insert(table: Table, values: seq<Expr>)
    | Update(table: Table, assignments: seq<Expr>, where: Option<Expr>)
    | Delete(table: Table, where: Option<Expr>)

  function And(left: Expr, right: Expr): Expr {
    Binary(AndOp, left, right)
  }

  predicate IsOr(e: Expr) {
    e.Binary? && e.op == OrOp
  }

  predicate IsXor(e: Expr) {
    e.Binary? && e.op == XorOp
  }

  /**
    How tightly an operator binds when printed without parentheses, loosest
    first: OR, then XOR, then AND, then every other operator.
  */
  function Binding(op: BinOp): nat {
    match op
    case OrOp => 0
    case XorOp => 1
    case AndOp => 2
    case OtherOp(_) => 3
  }

  /** A binary node that an AND around it would split (`a OR b`, `a XOR b`). */
  predicate LooserThanAnd(e: Expr) {
    e.Binary? && Binding(e.op) < Binding(AndOp)
  }

  /**
    Whether a sub-select occurs anywhere inside `e`. Stands for the source's
    textual test that the printed expression contains `SELECT` past its
    first character.
  */
  predicate MentionsSelect(e: Expr) {
    match e
    case Leaf(_) => false
    case Binary(_, l, r) => MentionsSelect(l) || MentionsSelect(r)
    case In(l, r) => MentionsSelect(l) || MentionsSelect(r)
    case Exists(i) => MentionsSelect(i)
    case Not(i) => MentionsSelect(i)
    case Paren(i) => MentionsSelect(i)
    case Func(_, args) => exists k | 0 <= k < |args| :: MentionsSelect(args[k])
    case SubSelect(_) => true
    case OtherExpr(_, parts) => exists k | 0 <= k < |parts| :: MentionsSelect(parts[k])
  }

  /**
    Whether `e` prints back to a condition of the same meaning. The printer
    adds no parentheses, so an operand that binds looser than its operator
    regroups: `x AND a OR b` reads as `(x AND a) OR b`, and `a XOR b AND x`
    as `a XOR (b AND x)`. An operand of equal binding only regroups within
    one associative connective. The operators other than AND, OR and XOR
    are not told apart.
  */
  predicate PrintsFaithfully(e: Expr) {
    match e
    case Binary(op, l, r) =>
      && (l.Binary? ==> Binding(l.op) >= Binding(op))
      && (r.Binary? ==> Binding(r.op) >= Binding(op))
      && PrintsFaithfully(l)
      && PrintsFaithfully(r)
    case Paren(i) => PrintsFaithfully(i)
    case _ => true
  }

  /**
    `e` with the bodies of its sub-selects erased: what the enclosing
    statement's own condition says, whatever the nested statements say.
  */
  function Skeleton(e: Expr): Expr {
    match e
    case Leaf(_) => e
    case Binary(op, l, r) => Binary(op, Skeleton(l), Skeleton(r))
    case In(l, r) => In(Skeleton(l), Skeleton(r))
    case Exists(i) => Exists(Skeleton(i))
    case Not(i) => Not(Skeleton(i))
    case Paren(i) => Paren(Skeleton(i))
    case Func(name, args) => Func(name, SkeletonAll(args))
    case SubSelect(_) => SubSelect(OtherSelect(""))
    case OtherExpr(kind, parts) => OtherExpr(kind, SkeletonAll(parts))
  }

  function SkeletonAll(es: seq<Expr>): (r: seq<Expr>)
    ensures |r| == |es|
    decreases es
  {
    if es == [] then [] else [Skeleton(es[0])] + SkeletonAll(es[1..])
  }
}
