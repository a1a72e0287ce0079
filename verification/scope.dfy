/**
  Data-scope rules and the per-call stack of active rule lists.

  A rule is consumed only through its two questions: does it cover a table
  name, and which filter does it build for a table (or does it decline).
  The stack replaces the source's thread-bound deque: it is an explicit
  value whose index 0 is the top frame.
*/
module Scope {
  import opened Ast

  datatype Rule = Rule(
    key: string,
    includes: string -> bool,
    filter: (string, Option<string>) -> Option<Expr>)

  /** Stack of active rule lists; index 0 is the most recently pushed frame. */
  type Stack = seq<seq<Rule>>

  /**
    What the processor reads besides the statement: the scope stack, and the
    normalisation that turns a written table name into the bare name rules
    are asked about (quoting and schema prefixes removed).
  */
  datatype Env = Env(stack: Stack, bare: string -> string)

  /** The top frame: the rules every nested statement of the current call uses. */
  function Peek(s: Stack): (top: seq<Rule>)
    requires s != []
    ensures [top] + Poll(s) == s
  {
    s[0]
  }

  function Push(s: Stack, frame: seq<Rule>): (r: Stack)
    ensures r != [] && Peek(r) == frame
    ensures Poll(r) == s
  {
    [frame] + s
  }

  /**
    Drops the top frame. Popping an empty stack is harmless; once the stack
    is empty the per-thread storage is released, which reads the same as an
    empty stack.
  */
  function Poll(s: Stack): (r: Stack)
    ensures s == [] ==> r == []
    ensures s != [] ==> |r| == |s| - 1
    ensures forall k | 0 <= k < |r| :: r[k] == s[k + 1]
  {
    if s == [] then [] else s[1..]
  }
}
