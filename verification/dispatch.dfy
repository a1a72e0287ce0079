/**
  Statement dispatch and the scope-frame lifecycle. The caller's stack goes
  in and comes back out: a SELECT, UPDATE or DELETE pushes the active rules
  as the top frame for the duration of its rewrite and pops it on every
  exit, failure included; an INSERT is passed through untouched.
*/
module Dispatch {
  import opened Ast
  import opened Scope
  import opened Injector
  import opened Processor

  /** The environment a rewrite under `active` runs in: `active` pushed on `stack`. */
  function CallEnv(active: seq<Rule>, stack: Stack, bare: string -> string): (env: Env)
    ensures env.stack != [] && Peek(env.stack) == active
    ensures Poll(env.stack) == stack
  {
    Env(Push(stack, active), bare)
  }

  /** The bodies of a SELECT: its main body, then each WITH item. */
  function RewriteSelect(body: SelectBody, with: seq<SelectBody>, env: Env): (r: Result<Statement>)
    requires env.stack != []
    ensures r.Success? <==>
      ProcessBody(body, env).Success? && forall k | 0 <= k < |with| :: ProcessBody(with[k], env).Success?
    ensures r.Success? ==>
      && r.value.Select?
      && ProcessBody(body, env) == Success(r.value.body)
      && |r.value.with| == |with|
      && forall k | 0 <= k < |with| :: ProcessBody(with[k], env) == Success(r.value.with[k])
  {
    var body' :- ProcessBody(body, env);
    var with' :- ProcessMembers(with, env);
    Success(Select(body', with'))
  }

  function Rewrite(s: Statement, active: seq<Rule>, stack: Stack, bare: string -> string)
    : (out: (Result<Statement>, Stack))
    ensures out.1 == stack
    ensures s.Insert? ==> out.0 == Success(s)
    ensures s.Select? ==> out.0 == RewriteSelect(s.body, s.with, CallEnv(active, stack, bare))
    ensures s.Update? ==>
      out.0 == Success(Update(s.table, s.assignments, InjectOne(s.where, s.table, CallEnv(active, stack, bare))))
    ensures s.Delete? ==>
      out.0 == Success(Delete(s.table, InjectOne(s.where, s.table, CallEnv(active, stack, bare))))
  {
    match s
    case Insert(_, _) =>
      (Success(s), stack)
    case Select(body, with) =>
      var frames := Push(stack, active);
      var r := RewriteSelect(body, with, Env(frames, bare));
      (r, Poll(frames))
    case Update(table, assignments, where) =>
      var frames := Push(stack, active);
      var where' := InjectOne(where, table, Env(frames, bare));
      (Success(Update(table, assignments, where')), Poll(frames))
    case Delete(table, where) =>
      var frames := Push(stack, active);
      var where' := InjectOne(where, table, Env(frames, bare));
      (Success(Delete(table, where')), Poll(frames))
  }
}
