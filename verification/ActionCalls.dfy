/** Actions invoking one another inside one operation.

    Each `Action.invoke` checks the active call stack, and a frame pushes the action's name for as
    long as its closure runs. A script is arbitrary and finite in itself, but scripts may name one
    another freely; the no-recursion guard is what makes an operation end. */
module ActionCalls {
  import opened Common

  type Name = string

  /** A closure as the engine walks it: it performs steps, and what it does after an invocation may
      depend on whether that threw (`onErr` covers both a catch block and propagation). `accepted`
      says whether the supplied params validate. */
  datatype Script =
    | Return
    | Throw
    | Perform(what: string, andThen: Script)
    | Invoke(name: Name, accepted: bool, onOk: Script, onErr: Script)

  datatype Event = Performed(what: string) | Invoked(name: Name)

  /** Whether the closure returned normally, what it did in order, and the call stack at each
      invocation it made. */
  datatype Outcome = Outcome(ok: bool, events: seq<Event>, stacks: seq<seq<Name>>)

  /** The actions that could still be entered from a stack. */
  function Fresh<T>(actions: map<Name, T>, stack: seq<Name>): set<Name> {
    set n | n in actions && n !in stack
  }

  lemma FreshShrinks<T>(actions: map<Name, T>, stack: seq<Name>, n: Name)
    requires n in actions && n !in stack
    ensures Fresh(actions, stack + [n]) == Fresh(actions, stack) - {n}
    ensures |Fresh(actions, stack + [n])| == |Fresh(actions, stack)| - 1
  {
    assert n in Fresh(actions, stack);
    assert Fresh(actions, stack + [n]) == Fresh(actions, stack) - {n};
  }

  /** Running a script under a call stack. It needs no bound beyond the guard itself: entering an
      action uses up one name that is not on the stack. */
  function Exec(actions: map<Name, Script>, stack: seq<Name>, script: Script): Outcome
    decreases |Fresh(actions, stack)|, script
  {
    match script
    case Return => Outcome(true, [], [])
    case Throw => Outcome(false, [], [])
    case Perform(what, andThen) =>
      var r := Exec(actions, stack, andThen);
      r.(events := [Performed(what)] + r.events)
    case Invoke(name, accepted, onOk, onErr) =>
      if name in stack || name !in actions || !accepted then Exec(actions, stack, onErr)
      else
        FreshShrinks(actions, stack, name);
        var inner := Exec(actions, stack + [name], actions[name]);
        var rest := Exec(actions, stack, if inner.ok then onOk else onErr);
        Outcome(rest.ok, [Invoked(name)] + inner.events + rest.events, [stack + [name]] + inner.stacks + rest.stacks)
  }

  /** The thread's call table while an operation runs. */
  class ActionCallTable {
    const actions: map<Name, Script>
    var stack: seq<Name>
    var events: seq<Event>

    /** The outer action's name seeds the stack. */
    constructor (actions: map<Name, Script>, outer: Name)
      ensures this.actions == actions && stack == [outer] && events == []
    {
      this.actions := actions;
      stack := [outer];
      events := [];
    }

    /** The stack is as it was, whether the closure returned or threw. */
    method RunClosure(script: Script) returns (ok: bool)
      modifies this
      ensures stack == old(stack)
      ensures var r := Exec(actions, stack, script); ok == r.ok && events == old(events) + r.events
      decreases |Fresh(actions, stack)|, script, 1
    {
      match script {
        case Return =>
          ok := true;
        case Throw =>
          ok := false;
        case Perform(what, andThen) =>
          events := events + [Performed(what)];
          ok := RunClosure(andThen);
        case Invoke(name, accepted, onOk, onErr) =>
          var inner := CallAction(name, accepted, script);
          if inner {
            ok := RunClosure(onOk);
          } else {
            ok := RunClosure(onErr);
          }
      }
    }

    method CallAction(name: Name, accepted: bool, ghost call: Script) returns (ok: bool)
      requires call.Invoke? && call.name == name && call.accepted == accepted
      modifies this
      ensures stack == old(stack)
      ensures if name in stack || name !in actions || !accepted then !ok && events == old(events)
              else var r := Exec(actions, stack + [name], actions[name]);
                   ok == r.ok && events == old(events) + [Invoked(name)] + r.events
      decreases |Fresh(actions, stack)|, call, 0
    {
      if name in stack {
        return false;
      }
      if name !in actions {
        return false;
      }
      if !accepted {
        return false;
      }
      events := events + [Invoked(name)];
      FreshShrinks(actions, stack, name);
      stack := stack + [name];
      ok := RunClosure(actions[name]);
      stack := stack[..|stack| - 1];
    }
  }

  // ---------------------------------------------------------------------
  // The stack
  // ---------------------------------------------------------------------

  /** A call stack that grew from `base`: no name twice, and everything above it a known action. */
  predicate GrewFrom(st: seq<Name>, base: seq<Name>, actions: map<Name, Script>) {
    && base < st && Distinct(st)
    && forall i :: |base| <= i < |st| ==> st[i] in actions
  }

  lemma {:induction false} DistinctFits(s: seq<Name>, pool: set<Name>)
    requires Distinct(s) && forall i :: 0 <= i < |s| ==> s[i] in pool
    ensures |s| <= |pool|
  {
    if s != [] {
      var n := |s| - 1;
      DistinctFits(s[..n], pool - {s[n]});
    }
  }

  /** In every operation, at every invocation, the stack has no duplicates and is at most one deeper
      than there are actions. */
  lemma {:induction false} StacksDistinct(actions: map<Name, Script>, stack: seq<Name>, script: Script)
    requires Distinct(stack)
    ensures forall st :: st in Exec(actions, stack, script).stacks ==> GrewFrom(st, stack, actions)
    decreases |Fresh(actions, stack)|, script
  {
    match script
    case Return =>
    case Throw =>
    case Perform(what, andThen) =>
      StacksDistinct(actions, stack, andThen);
    case Invoke(name, accepted, onOk, onErr) =>
      if name in stack || name !in actions || !accepted {
        StacksDistinct(actions, stack, onErr);
      } else {
        FreshShrinks(actions, stack, name);
        var deeper := stack + [name];
        StacksDistinct(actions, deeper, actions[name]);
        var inner := Exec(actions, deeper, actions[name]);
        forall st | st in inner.stacks ensures GrewFrom(st, stack, actions) {
          assert GrewFrom(st, deeper, actions);
          assert st[|stack|] == deeper[|stack|];
        }
        StacksDistinct(actions, stack, if inner.ok then onOk else onErr);
      }
  }

  lemma DepthBounded(actions: map<Name, Script>, outer: Name, script: Script, st: seq<Name>)
    requires st in Exec(actions, [outer], script).stacks
    ensures Distinct(st) && |st| <= |actions| + 1
  {
    StacksDistinct(actions, [outer], script);
    DistinctFits(st[1..], actions.Keys);
  }

  // ---------------------------------------------------------------------
  // The guard changes nothing but recursion
  // ---------------------------------------------------------------------

  /** The action names a script may invoke. */
  function Mentions(script: Script): set<Name> {
    match script
    case Return => {}
    case Throw => {}
    case Perform(_, andThen) => Mentions(andThen)
    case Invoke(name, _, onOk, onErr) => {name} + Mentions(onOk) + Mentions(onErr)
  }

  /** The scripts do not call one another in a circle: each calls only actions of lower rank. */
  predicate Ranked(actions: map<Name, Script>, rank: map<Name, nat>) {
    && actions.Keys <= rank.Keys
    && forall n, m :: n in actions && m in Mentions(actions[n]) && m in actions ==> rank[m] < rank[n]
  }

  /** Every known action the script may invoke ranks below `bound`. */
  predicate Below(actions: map<Name, Script>, rank: map<Name, nat>, script: Script, bound: nat)
    requires actions.Keys <= rank.Keys
  {
    forall m :: m in Mentions(script) && m in actions ==> rank[m] < bound
  }

  /** What the script does with no guard and no stack at all. */
  function Plain(actions: map<Name, Script>, rank: map<Name, nat>, script: Script, bound: nat): (bool, seq<Event>)
    requires Ranked(actions, rank) && Below(actions, rank, script, bound)
    decreases bound, script
  {
    match script
    case Return => (true, [])
    case Throw => (false, [])
    case Perform(what, andThen) =>
      var r := Plain(actions, rank, andThen, bound);
      (r.0, [Performed(what)] + r.1)
    case Invoke(name, accepted, onOk, onErr) =>
      if name !in actions || !accepted then Plain(actions, rank, onErr, bound)
      else
        var inner := Plain(actions, rank, actions[name], rank[name]);
        var rest := Plain(actions, rank, if inner.0 then onOk else onErr, bound);
        (rest.0, [Invoked(name)] + inner.1 + rest.1)
  }

  /** For scripts that do not recurse, the guarded run is the plain run: the guard never fires. */
  lemma {:induction false} GuardInvisible(
    actions: map<Name, Script>, rank: map<Name, nat>, stack: seq<Name>, script: Script, bound: nat)
    requires Ranked(actions, rank) && Below(actions, rank, script, bound)
    requires forall n :: n in stack && n in actions ==> bound <= rank[n]
    ensures var r := Exec(actions, stack, script); (r.ok, r.events) == Plain(actions, rank, script, bound)
    decreases bound, script
  {
    match script
    case Return =>
    case Throw =>
    case Perform(what, andThen) =>
      GuardInvisible(actions, rank, stack, andThen, bound);
    case Invoke(name, accepted, onOk, onErr) =>
      GuardInvisible(actions, rank, stack, onOk, bound);
      GuardInvisible(actions, rank, stack, onErr, bound);
      if name in actions && accepted {
        assert name in Mentions(script);
        GuardInvisible(actions, rank, stack + [name], actions[name], rank[name]);
      }
  }

  /** An operation whose actions do not recurse runs as written. */
  lemma OperationRunsAsWritten(actions: map<Name, Script>, rank: map<Name, nat>, outer: Name)
    requires Ranked(actions, rank) && outer in actions
    ensures var r := Exec(actions, [outer], actions[outer]);
            (r.ok, r.events) == Plain(actions, rank, actions[outer], rank[outer])
  {
    GuardInvisible(actions, rank, [outer], actions[outer], rank[outer]);
  }
}
