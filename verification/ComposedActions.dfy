/**
 * Replay of actions that invoke actions.  One pass walks the closures with a
 * stack of frames; to the action log it is the pass of a single script, in
 * which the closures invoked are written out where they are invoked.
 */
module ComposedActions {
  import opened Common
  import opened BarrierReplay
  import opened ReplayResumption
  import opened StopDeadlines
  import ActionCalls

  // A closure: it makes calls, waits for the groups its own calls returned, in
  // their order, and invokes actions.  A wait that expires goes on with `late`,
  // which is `Throw` if the closure does not catch that.
  datatype Closure =
    | Return
    | Throw
    | Make(kind: Kind, resources: seq<string>, rest: Closure)
    | Send(resources: seq<string>, name: string, rest: Closure)
    | Run(target: string, on: map<int, Closure>, otherwise: Closure)
    | WaitFor(group: nat, required: nat, deadline: Option<nat>, late: Closure, rest: Closure)
    | StopAll(resources: seq<string>, deadline: Option<nat>, rest: Closure)
    | CallAction(action: string, rest: Closure)

  // What an action does, by the params it is given.
  datatype Action = Action(given: map<string, Closure>, otherwise: Closure)

  // ------------------------------------------------------ written out in one

  // The script of a closure entered with this call stack, whose groups are
  // these calls and whose next call is the `k`th; `cont` is what the caller
  // does from the call index it returns at.
  function Flatten(
    actions: map<string, Action>, stack: seq<string>, closure: Closure, groups: seq<nat>, k: nat, cont: nat -> Script)
    : Script
    decreases |ActionCalls.Fresh(actions, stack)|, closure
  {
    match closure
    case Return => cont(k)
    case Throw => Raise
    case Make(kind, resources, rest) =>
      Claim(kind, resources, Flatten(actions, stack, rest, groups + [k], k + 1, cont))
    case Send(resources, name, rest) =>
      SendSignal(resources, name, Flatten(actions, stack, rest, groups, k + 1, cont))
    case Run(target, on, otherwise) =>
      RunExec(target, map x | x in on :: Flatten(actions, stack, on[x], groups, k + 1, cont),
              Flatten(actions, stack, otherwise, groups, k + 1, cont))
    case WaitFor(group, required, deadline, late, rest) =>
      if group >= |groups| then Raise
      else Await(groups[group], required, deadline, None, Flatten(actions, stack, late, groups, k, cont),
                 Flatten(actions, stack, rest, groups, k, cont))
    case StopAll(resources, deadline, rest) =>
      StopCall(k, resources, deadline, Flatten(actions, stack, rest, groups, k + 1, cont))
    case CallAction(action, rest) =>
      if action in stack || action !in actions then Raise
      else
        ActionCalls.FreshShrinks(actions, stack, action);
        var after := (j: nat) => Flatten(actions, stack, rest, groups, j, cont);
        var given := actions[action].given;
        Invoke(action, map x | x in given :: Flatten(actions, stack + [action], given[x], [], k + 1, after),
               Flatten(actions, stack + [action], actions[action].otherwise, [], k + 1, after))
  }

  // A script that may follow from a call index on.
  ghost predicate Fits(s: Script, k: nat) {
    Anchored(s, k) && Shaped(s, k)
  }

  ghost predicate FitsFrom(cont: nat -> Script, k: nat) {
    forall j :: j >= k ==> Fits(cont(j), j)
  }

  lemma AskFits(s: Script, k: nat)
    requires Asks(s) && forall x: Extra :: Following(s, x).Some? ==> Fits(Following(s, x).value, k + 1)
    ensures Fits(s, k)
  {
    assert forall x: Extra :: Following(s, x).Some? ==> Anchored(Following(s, x).value, k + 1);
    assert forall x: Extra :: Following(s, x).Some? ==> Shaped(Following(s, x).value, k + 1);
  }

  lemma StopFits(k: nat, resources: seq<string>, deadline: Option<nat>, rest: Script)
    requires Fits(rest, k + 1)
    ensures Fits(StopCall(k, resources, deadline, rest), k)
  {
    assert Anchored(Raise, k + 1);
    assert Anchored(Await(k, TERMINATED, deadline, Some(resources), Raise, rest), k + 1);
  }

  // Wherever it is invoked from, what is written out hangs together.
  lemma {:induction false} FlattenFits(
    actions: map<string, Action>, stack: seq<string>, closure: Closure, groups: seq<nat>, k: nat, cont: nat -> Script)
    requires (forall g :: g in groups ==> g < k) && FitsFrom(cont, k)
    ensures Fits(Flatten(actions, stack, closure, groups, k, cont), k)
    decreases |ActionCalls.Fresh(actions, stack)|, closure
  {
    var s := Flatten(actions, stack, closure, groups, k, cont);
    match closure
    case Return =>
    case Throw =>
    case Make(_, _, rest) =>
      FlattenFits(actions, stack, rest, groups + [k], k + 1, cont);
      ShapedBegins(s.rest, k + 1);
    case Send(_, _, rest) => FlattenFits(actions, stack, rest, groups, k + 1, cont);
    case Run(_, on, otherwise) =>
      forall x: Extra | Following(s, x).Some? ensures Fits(Following(s, x).value, k + 1) {
        FlattenFits(actions, stack, if x.code in on then on[x.code] else otherwise, groups, k + 1, cont);
      }
      AskFits(s, k);
    case WaitFor(group, _, _, late, rest) =>
      FlattenFits(actions, stack, late, groups, k, cont);
      FlattenFits(actions, stack, rest, groups, k, cont);
      if group < |groups| { assert groups[group] in groups; }
    case StopAll(resources, deadline, rest) =>
      FlattenFits(actions, stack, rest, groups, k + 1, cont);
      StopFits(k, resources, deadline, s.rest.rest);
    case CallAction(action, _) =>
      if action !in stack && action in actions { CallFits(actions, stack, closure, groups, k, cont); }
  }

  lemma {:induction false} CallFits(
    actions: map<string, Action>, stack: seq<string>, closure: Closure, groups: seq<nat>, k: nat, cont: nat -> Script)
    requires (forall g :: g in groups ==> g < k) && FitsFrom(cont, k)
    requires closure.CallAction? && closure.action !in stack && closure.action in actions
    ensures Fits(Flatten(actions, stack, closure, groups, k, cont), k)
    decreases |ActionCalls.Fresh(actions, stack)|, closure, 0
  {
    var s, action := Flatten(actions, stack, closure, groups, k, cont), closure.action;
    ActionCalls.FreshShrinks(actions, stack, action);
    var after := (j: nat) => Flatten(actions, stack, closure.rest, groups, j, cont);
    forall j: nat | j >= k + 1 ensures Fits(after(j), j) {
      FlattenFits(actions, stack, closure.rest, groups, j, cont);
    }
    var given := actions[action].given;
    forall x: Extra | Following(s, x).Some? ensures Fits(Following(s, x).value, k + 1) {
      var body := if x.params in given then given[x.params] else actions[action].otherwise;
      FlattenFits(actions, stack + [action], body, [], k + 1, after);
    }
    AskFits(s, k);
  }

  // ------------------------------------------------------------ frame by frame

  // A closure that has been entered: what is left of it, and its groups.
  datatype Frame = Frame(action: string, rest: Closure, groups: seq<nat>)

  // The call stack, outermost first; the last frame runs.
  function Stack(frames: seq<Frame>): seq<string> {
    seq(|frames|, i requires 0 <= i < |frames| => frames[i].action)
  }

  // The last frame's next call to the runtime by itself, if it makes one.
  function Head(actions: map<string, Action>, frames: seq<Frame>, k: nat): Option<Script>
    requires frames != []
  {
    var top := frames[|frames| - 1];
    match top.rest
    case Return => Some(Done)
    case Throw => None
    case Make(kind, resources, _) => Some(Claim(kind, resources, Done))
    case Send(resources, name, _) => Some(SendSignal(resources, name, Done))
    case Run(target, _, _) => Some(RunExec(target, map[], Done))
    case WaitFor(group, required, deadline, _, _) =>
      if group >= |top.groups| then None else Some(Await(top.groups[group], required, deadline, None, Raise, Done))
    case StopAll(resources, deadline, _) => Some(StopCall(k, resources, deadline, Done))
    case CallAction(action, _) =>
      if action in Stack(frames) || action !in actions then None else Some(Script.Invoke(action, map[], Done))
  }

  // The frames after that call, which has left this on record at index `k`.
  // An invoked closure gets the params on record and has no groups yet; the
  // frame below it goes on when it returns.
  function Moved(actions: map<string, Action>, frames: seq<Frame>, k: nat, extra: Extra): seq<Frame>
    requires frames != []
  {
    var n := |frames| - 1;
    var top, below := frames[n], frames[..n];
    match top.rest
    case Return => below
    case Throw => below
    case Make(_, _, rest) => below + [Frame(top.action, rest, top.groups + [k])]
    case Send(_, _, rest) => below + [Frame(top.action, rest, top.groups)]
    case Run(_, on, otherwise) =>
      var rest := if extra.Exit? && extra.code in on then on[extra.code] else otherwise;
      below + [Frame(top.action, rest, top.groups)]
    case WaitFor(_, _, _, _, rest) => below + [Frame(top.action, rest, top.groups)]
    case StopAll(_, _, rest) => below + [Frame(top.action, rest, top.groups)]
    case CallAction(action, rest) =>
      if action !in actions then below
      else
        var a := actions[action];
        var body := if extra.Payload? && extra.params in a.given then a.given[extra.params] else a.otherwise;
        below + [Frame(top.action, rest, top.groups), Frame(action, body, [])]
  }

  function Recalled(c: Context, k: nat): Extra {
    if Known(c, k) then Held(c, k).call.extra else NoExtra
  }

  // The frames after the call has ended like this, if the pass goes on: a wait
  // that fails has expired.
  function After(actions: map<string, Action>, frames: seq<Frame>, k: nat, r: Result): Option<seq<Frame>>
    requires frames != []
  {
    var n := |frames| - 1;
    if r.outcome == Completed then Some(Moved(actions, frames, k, Recalled(r.ctx, k)))
    else if r.outcome == Failed && frames[n].rest.WaitFor?
    then Some(frames[..n] + [Frame(frames[n].action, frames[n].rest.late, frames[n].groups)])
    else None
  }

  // The script the frames stand for.
  function Whole(actions: map<string, Action>, frames: seq<Frame>, k: nat): Script
    decreases |frames|, 1
  {
    if frames == [] then Done else
    var top := frames[|frames| - 1];
    Flatten(actions, Stack(frames), top.rest, top.groups, k, Caller(actions, frames))
  }

  function Caller(actions: map<string, Action>, frames: seq<Frame>): nat -> Script
    requires frames != []
    decreases |frames|, 0
  {
    (j: nat) => Whole(actions, frames[..|frames| - 1], j)
  }

  // ------------------------------------------------------- the two are the same

  // What a caller does counts only by what it is at each call index.
  lemma {:induction false} SameCont(
    actions: map<string, Action>, stack: seq<string>, closure: Closure, groups: seq<nat>, k: nat,
    cont: nat -> Script, other: nat -> Script)
    requires forall j :: cont(j) == other(j)
    ensures Flatten(actions, stack, closure, groups, k, cont) == Flatten(actions, stack, closure, groups, k, other)
    decreases |ActionCalls.Fresh(actions, stack)|, closure
  {
    match closure
    case Return =>
    case Throw =>
    case Make(_, _, rest) => SameCont(actions, stack, rest, groups + [k], k + 1, cont, other);
    case Send(_, _, rest) => SameCont(actions, stack, rest, groups, k + 1, cont, other);
    case Run(_, on, otherwise) =>
      SameCont(actions, stack, otherwise, groups, k + 1, cont, other);
      forall x | x in on
        ensures Flatten(actions, stack, on[x], groups, k + 1, cont) ==
                Flatten(actions, stack, on[x], groups, k + 1, other)
      {
        SameCont(actions, stack, on[x], groups, k + 1, cont, other);
      }
    case WaitFor(_, _, _, late, rest) =>
      SameCont(actions, stack, late, groups, k, cont, other);
      SameCont(actions, stack, rest, groups, k, cont, other);
    case StopAll(_, _, rest) => SameCont(actions, stack, rest, groups, k + 1, cont, other);
    case CallAction(action, _) =>
      if action !in stack && action in actions { CallSameCont(actions, stack, closure, groups, k, cont, other); }
  }

  lemma {:induction false} CallSameCont(
    actions: map<string, Action>, stack: seq<string>, closure: Closure, groups: seq<nat>, k: nat,
    cont: nat -> Script, other: nat -> Script)
    requires forall j :: cont(j) == other(j)
    requires closure.CallAction? && closure.action !in stack && closure.action in actions
    ensures Flatten(actions, stack, closure, groups, k, cont) == Flatten(actions, stack, closure, groups, k, other)
    decreases |ActionCalls.Fresh(actions, stack)|, closure, 0
  {
    var action, rest := closure.action, closure.rest;
    ActionCalls.FreshShrinks(actions, stack, action);
    var after := (j: nat) => Flatten(actions, stack, rest, groups, j, cont);
    var after' := (j: nat) => Flatten(actions, stack, rest, groups, j, other);
    forall j: nat ensures after(j) == after'(j) { SameCont(actions, stack, rest, groups, j, cont, other); }
    var deeper, a := stack + [action], actions[action];
    SameCont(actions, deeper, a.otherwise, [], k + 1, after, after');
    forall x | x in a.given
      ensures Flatten(actions, deeper, a.given[x], [], k + 1, after) ==
              Flatten(actions, deeper, a.given[x], [], k + 1, after')
    {
      SameCont(actions, deeper, a.given[x], [], k + 1, after, after');
    }
  }

  // Two passes that end alike.
  predicate Alike(r: Result, q: Result) {
    r.outcome == q.outcome && r.ctx == q.ctx
  }

  // Running a script is running its first call by itself and going on with
  // what follows it.
  ghost predicate BeginsWith(s: Script, h: Script, c: Context, w: World, rest: Script) {
    var r := RunPass(h, c, w);
    Alike(RunPass(s, c, w), if r.outcome == Completed then RunPass(rest, r.ctx, w) else r)
  }

  // One step of each, with the same effect.
  ghost predicate StepsAlike(s: Script, h: Script, c: Context, w: World, rest: Script) {
    var n := Step(h, c, w);
    if n.Halt? then Step(s, c, w) == n && n.outcome != Completed
    else n.rest == Done && Step(s, c, w) == Go(rest, n.ctx)
  }

  lemma OneStep(s: Script, h: Script, c: Context, w: World, rest: Script)
    requires StepsAlike(s, h, c, w, rest)
    ensures BeginsWith(s, h, c, w, rest)
    ensures RunPass(h, c, w).outcome == Completed ==> Step(h, c, w).Go? && RunPass(h, c, w).ctx == Step(h, c, w).ctx
  {
    LeadsOneStep(s, c, w);
    LeadsOneStep(h, c, w);
    Combined(s, h, c, w, Step(s, c, w), Step(h, c, w), RunPass(s, c, w), RunPass(h, c, w), rest);
  }

  ghost predicate LeadsTo(s: Script, c: Context, w: World, n: Next, r: Result) {
    r == if n.Go? then RunPass(n.rest, n.ctx, w) else Result(n.outcome, n.ctx, s, c.seqs)
  }

  lemma LeadsOneStep(s: Script, c: Context, w: World)
    ensures LeadsTo(s, c, w, Step(s, c, w), RunPass(s, c, w))
  {
  }

  lemma Combined(s: Script, h: Script, c: Context, w: World, m: Next, n: Next, q: Result, r: Result, rest: Script)
    requires LeadsTo(s, c, w, m, q) && LeadsTo(h, c, w, n, r)
    requires if n.Halt? then m == n && n.outcome != Completed else n.rest == Done && m == Go(rest, n.ctx)
    ensures Alike(q, if r.outcome == Completed then RunPass(rest, r.ctx, w) else r)
    ensures r.outcome == Completed ==> n.Go? && r.ctx == n.ctx
  {
    if n.Go? { DoneEnds(n.ctx, w); }
  }

  lemma DoneEnds(c: Context, w: World)
    ensures RunPass(Done, c, w) == Result(Completed, c, Done, c.seqs)
  {
  }

  // When a call by itself goes through, this is the next call index.
  ghost predicate LeavesAt(h: Script, c: Context, w: World, k: nat) {
    RunPass(h, c, w).outcome == Completed ==> RunPass(h, c, w).ctx.callIndex == k
  }

  lemma CalledAlike(c: Context, expected: Option<Extra>, call: Call, rest: Script)
    ensures var n := Called(c, expected, call, Done);
      if n.Halt? then Called(c, expected, call, rest) == n && n.outcome == Diverged
      else n.rest == Done && Called(c, expected, call, rest) == Go(rest, n.ctx) && n.ctx.callIndex == c.callIndex + 1
  {
  }

  lemma ClaimBegins(kind: Kind, resources: seq<string>, c: Context, w: World, rest: Script)
    requires !Stopping(rest)
    ensures BeginsWith(Claim(kind, resources, rest), Claim(kind, resources, Done), c, w, rest)
    ensures LeavesAt(Claim(kind, resources, Done), c, w, c.callIndex + 1)
  {
    var s, h := Claim(kind, resources, rest), Claim(kind, resources, Done);
    assert !Lapsed(s, c, w) && !Lapsed(h, c, w);
    CalledAlike(c, None, Call(kind, resources, NoExtra), rest);
    OneStep(s, h, c, w, rest);
  }

  lemma SignalBegins(resources: seq<string>, name: string, c: Context, w: World, rest: Script)
    ensures BeginsWith(SendSignal(resources, name, rest), SendSignal(resources, name, Done), c, w, rest)
    ensures LeavesAt(SendSignal(resources, name, Done), c, w, c.callIndex + 1)
  {
    CalledAlike(c, Some(Name(name)), Call(Signal, resources, Name(name)), rest);
    OneStep(SendSignal(resources, name, rest), SendSignal(resources, name, Done), c, w, rest);
  }

  function Alone(s: Script): Script
    requires s.Await?
  {
    Await(s.anchor, s.required, s.deadline, s.stopping, Raise, Done)
  }

  lemma AwaitBegins(s: Script, h: Script, c: Context, w: World)
    requires s.Await? && !Catches(s) && h == Alone(s)
    ensures BeginsWith(s, h, c, w, s.rest) && LeavesAt(h, c, w, c.callIndex)
  {
    AwaitedLeaves(h, c, w.at(s.anchor, Count(c.seqs, s.anchor)));
    assert StepsAlike(s, h, c, w, s.rest);
    OneStep(s, h, c, w, s.rest);
  }

  // Running a barrier is running it by itself and going on with what follows
  // it, or with what follows its expiry.
  ghost predicate WaitsLike(s: Script, h: Script, c: Context, w: World)
    requires s.Await?
  {
    var q, r := RunPass(s, c, w), RunPass(h, c, w);
    && (r.outcome == Completed || r.outcome == Failed ==> r.ctx.callIndex == c.callIndex)
    && Alike(q, if r.outcome == Completed then RunPass(s.rest, r.ctx, w)
                else if r.outcome == Failed then RunPass(s.late, r.ctx, w) else r)
  }

  lemma RaiseEnds(c: Context, w: World)
    ensures RunPass(Raise, c, w) == Result(Failed, c, Raise, c.seqs)
  {
  }

  lemma ExpiryBegins(s: Script, h: Script, c: Context, w: World)
    requires s.Await? && h == Alone(s) && s.stopping.None? && !w.cancelled
    requires Expires(s, c, w.at(s.anchor, Count(c.seqs, s.anchor)))
    ensures WaitsLike(s, h, c, w)
  {
    var d := Drawn(c, s.anchor);
    assert Step(s, c, w) == Go(s.late, d) && Step(h, c, w) == Halt(Failed, d);
  }

  lemma WaitBegins(s: Script, h: Script, c: Context, w: World)
    requires s.Await? && h == Alone(s) && s.stopping.None?
    ensures WaitsLike(s, h, c, w)
  {
    var seen := w.at(s.anchor, Count(c.seqs, s.anchor));
    if Expires(s, c, seen) && !w.cancelled {
      ExpiryBegins(s, h, c, w);
    } else {
      assert StepsAlike(s, h, c, w, s.rest);
      OneStep(s, h, c, w, s.rest);
      AwaitedLeaves(h, c, seen);
      if RunPass(h, c, w).outcome == Failed {
        RaiseEnds(RunPass(h, c, w).ctx, w);
        LateRaises(s, h, c, w);
      }
    }
  }

  lemma LateRaises(s: Script, h: Script, c: Context, w: World)
    requires s.Await? && h == Alone(s) && s.stopping.None?
    requires w.cancelled || !Expires(s, c, w.at(s.anchor, Count(c.seqs, s.anchor)))
    requires RunPass(h, c, w).outcome == Failed
    ensures s.late == Raise && RunPass(h, c, w).ctx.callIndex == c.callIndex
  {
    var n := Step(h, c, w);
    if n.Go? { DoneEnds(n.ctx, w); }
  }

  lemma StopBegins(k: nat, resources: seq<string>, deadline: Option<nat>, c: Context, w: World, rest: Script)
    ensures BeginsWith(StopCall(k, resources, deadline, rest), StopCall(k, resources, deadline, Done), c, w, rest)
    ensures LeavesAt(StopCall(k, resources, deadline, Done), c, w, c.callIndex + 1)
  {
    var s, h := StopCall(k, resources, deadline, rest), StopCall(k, resources, deadline, Done);
    assert Lapsed(s, c, w) <==> Lapsed(h, c, w);
    CalledAlike(c, None, Call(Kind.Stop, resources, NoExtra), s.rest);
    CalledAlike(c, None, Call(Kind.Stop, resources, NoExtra), h.rest);
    var n := Step(h, c, w);
    if n.Go? {
      assert Step(s, c, w) == Go(s.rest, n.ctx);
      AwaitBegins(s.rest, h.rest, n.ctx, w);
    }
  }

  // A call that asks, and the same call with nothing after it.
  ghost predicate SameAsk(s: Script, h: Script) {
    && Asks(s) && Asks(h) && KindOf(s) == KindOf(h) && Guarded(s) == Guarded(h)
    && (forall x: Extra :: AskedCall(s, x) == AskedCall(h, x))
    && (forall x: Extra :: Following(h, x) == if Following(s, x).Some? then Some(Done) else None)
    && (forall w: World, k: nat :: Answer(s, w, k) == Answer(h, w, k))
  }

  // Where both answers come from is the call's own row.
  ghost predicate AskedAlike(s: Script, m: Next, n: Next, k: nat) {
    if n.Halt? then m == n
    else
      && m.Go? && n.rest == Done && m.ctx == n.ctx && n.ctx.callIndex == k + 1
      && Following(s, Recalled(n.ctx, k)) == Some(m.rest)
  }

  lemma AskReplayed(s: Script, h: Script, c: Context, answer: Option<Extra>)
    requires Good(c) && SameAsk(s, h) && c.callIndex < |c.committed|
    ensures AskedAlike(s, Answered(s, c, answer), Answered(h, c, answer), c.callIndex)
  {
    var x := c.committed[c.callIndex].call.extra;
    assert Recalled(Advanced(c), c.callIndex) == x;
    assert Following(h, x).Some? <==> Following(s, x).Some?;
  }

  lemma AskFresh(s: Script, h: Script, c: Context, answer: Option<Extra>)
    requires SameAsk(s, h) && c.callIndex >= |c.committed|
    ensures AskedAlike(s, Answered(s, c, answer), Answered(h, c, answer), c.callIndex)
  {
    if answer.Some? {
      var x := answer.value;
      assert Following(h, x).Some? <==> Following(s, x).Some?;
      assert AskedCall(s, x) == AskedCall(h, x);
      assert Recalled(Performed(c, AskedCall(s, x)), c.callIndex) == x;
    }
  }

  lemma AskBegins(s: Script, h: Script, c: Context, w: World) returns (r: Result, rest: Script)
    requires Good(c) && SameAsk(s, h)
    ensures r == RunPass(h, c, w) && BeginsWith(s, h, c, w, rest)
    ensures r.outcome == Completed ==>
      r.ctx.callIndex == c.callIndex + 1 && Following(s, Recalled(r.ctx, c.callIndex)) == Some(rest)
  {
    var answer := Answer(h, w, c.callIndex);
    assert Answer(s, w, c.callIndex) == answer;
    if c.callIndex < |c.committed| { AskReplayed(s, h, c, answer); } else { AskFresh(s, h, c, answer); }
    if Guarded(h) && w.cancelled {
      assert Step(s, c, w) == Step(h, c, w) == Halt(Cancelled, c);
    } else {
      assert Step(s, c, w) == Answered(s, c, answer) && Step(h, c, w) == Answered(h, c, answer);
    }
    var m := Step(s, c, w);
    r, rest := RunPass(h, c, w), if m.Go? then m.rest else Done;
    OneStep(s, h, c, w, rest);
  }

  lemma TopStays(
    actions: map<string, Action>, frames: seq<Frame>, moved: seq<Frame>, rest: Closure, groups: seq<nat>, k: nat)
    requires frames != []
    requires var n := |frames| - 1; moved == frames[..n] + [Frame(frames[n].action, rest, groups)]
    ensures Whole(actions, moved, k) == Flatten(actions, Stack(frames), rest, groups, k, Caller(actions, frames))
  {
    var n := |frames| - 1;
    assert moved[..n] == frames[..n] && Stack(moved) == Stack(frames);
    SameCont(actions, Stack(frames), rest, groups, k, Caller(actions, moved), Caller(actions, frames));
  }

  lemma TopEnters(
    actions: map<string, Action>, frames: seq<Frame>, moved: seq<Frame>, action: string, rest: Closure, body: Closure,
    k: nat, after: nat -> Script)
    requires frames != []
    requires var n := |frames| - 1;
      moved == frames[..n] + [Frame(frames[n].action, rest, frames[n].groups), Frame(action, body, [])]
    requires forall j ::
      after(j) == Flatten(actions, Stack(frames), rest, frames[|frames| - 1].groups, j, Caller(actions, frames))
    ensures Whole(actions, moved, k) == Flatten(actions, Stack(frames) + [action], body, [], k, after)
  {
    var n := |frames| - 1;
    var below := frames[..n] + [Frame(frames[n].action, rest, frames[n].groups)];
    assert moved[..|moved| - 1] == below && Stack(moved) == Stack(frames) + [action];
    forall j: nat ensures Caller(actions, moved)(j) == after(j) {
      TopStays(actions, frames, below, rest, frames[n].groups, j);
    }
    SameCont(actions, Stack(moved), body, [], k, Caller(actions, moved), after);
  }

  lemma {:induction false} WholeBegins(actions: map<string, Action>, frames: seq<Frame>, k: nat)
    ensures !Stopping(Whole(actions, frames, k))
  {
    if frames != [] {
      var below := frames[..|frames| - 1];
      forall j: nat ensures !Stopping(Whole(actions, below, j)) { WholeBegins(actions, below, j); }
      assert forall j :: Caller(actions, frames)(j) == Whole(actions, below, j);
    }
  }

  // The call the last frame makes, and where it leaves the frames, are the
  // first call of the script they stand for and what follows it.
  ghost predicate Agrees(actions: map<string, Action>, frames: seq<Frame>, c: Context, w: World)
    requires frames != []
  {
    var k, s := c.callIndex, Whole(actions, frames, c.callIndex);
    match Head(actions, frames, k)
    case None => s == Raise
    case Some(h) =>
      var r := RunPass(h, c, w);
      match After(actions, frames, k, r)
      case None => Alike(RunPass(s, c, w), r)
      case Some(moved) =>
        var rest := Whole(actions, moved, r.ctx.callIndex);
        && Alike(RunPass(s, c, w), RunPass(rest, r.ctx, w))
        && if frames[|frames| - 1].rest.Return? then rest == s else rest < s
  }

  // It is enough to know what follows the call in the script.
  lemma AgreesBy(actions: map<string, Action>, frames: seq<Frame>, c: Context, w: World, h: Script, rest: Script)
    requires frames != [] && Head(actions, frames, c.callIndex) == Some(h)
    requires !frames[|frames| - 1].rest.Return? && !frames[|frames| - 1].rest.WaitFor?
    requires var s := Whole(actions, frames, c.callIndex); BeginsWith(s, h, c, w, rest) && rest < s
    requires var r := RunPass(h, c, w);
      r.outcome == Completed ==>
        rest == Whole(actions, Moved(actions, frames, c.callIndex, Recalled(r.ctx, c.callIndex)), r.ctx.callIndex)
    ensures Agrees(actions, frames, c, w)
  {
  }

  lemma MakeAgrees(actions: map<string, Action>, frames: seq<Frame>, c: Context, w: World)
    requires frames != [] && frames[|frames| - 1].rest.Make?
    ensures Agrees(actions, frames, c, w)
  {
    var k, top := c.callIndex, frames[|frames| - 1];
    var moved, s := Moved(actions, frames, k, NoExtra), Whole(actions, frames, k);
    TopStays(actions, frames, moved, top.rest.rest, top.groups + [k], k + 1);
    WholeBegins(actions, moved, k + 1);
    ClaimBegins(s.kind, s.resources, c, w, s.rest);
    AgreesBy(actions, frames, c, w, Claim(s.kind, s.resources, Done), s.rest);
  }

  lemma SendAgrees(actions: map<string, Action>, frames: seq<Frame>, c: Context, w: World)
    requires frames != [] && frames[|frames| - 1].rest.Send?
    ensures Agrees(actions, frames, c, w)
  {
    var k, top := c.callIndex, frames[|frames| - 1];
    var moved, s := Moved(actions, frames, k, NoExtra), Whole(actions, frames, k);
    TopStays(actions, frames, moved, top.rest.rest, top.groups, k + 1);
    SignalBegins(s.resources, s.name, c, w, s.rest);
    AgreesBy(actions, frames, c, w, SendSignal(s.resources, s.name, Done), s.rest);
  }

  lemma WaitAgrees(actions: map<string, Action>, frames: seq<Frame>, c: Context, w: World)
    requires frames != [] && frames[|frames| - 1].rest.WaitFor?
    ensures Agrees(actions, frames, c, w)
  {
    var k, n, top := c.callIndex, |frames| - 1, frames[|frames| - 1];
    if top.rest.group < |top.groups| {
      var s := Whole(actions, frames, k);
      TopStays(actions, frames, Moved(actions, frames, k, NoExtra), top.rest.rest, top.groups, k);
      TopStays(actions, frames, frames[..n] + [Frame(top.action, top.rest.late, top.groups)],
               top.rest.late, top.groups, k);
      WaitBegins(s, Alone(s), c, w);
    }
  }

  lemma StopAgrees(actions: map<string, Action>, frames: seq<Frame>, c: Context, w: World)
    requires frames != [] && frames[|frames| - 1].rest.StopAll?
    ensures Agrees(actions, frames, c, w)
  {
    var k, top := c.callIndex, frames[|frames| - 1];
    var moved, s := Moved(actions, frames, k, NoExtra), Whole(actions, frames, k);
    TopStays(actions, frames, moved, top.rest.rest, top.groups, k + 1);
    StopBegins(k, top.rest.resources, top.rest.deadline, c, w, s.rest.rest);
    AgreesBy(actions, frames, c, w, StopCall(k, top.rest.resources, top.rest.deadline, Done), s.rest.rest);
  }

  // What a call that asks leads to, by the answer on record for it.
  lemma AskAgrees(actions: map<string, Action>, frames: seq<Frame>, c: Context, w: World, s: Script, h: Script)
    requires Good(c) && frames != [] && s == Whole(actions, frames, c.callIndex) && SameAsk(s, h)
    requires Head(actions, frames, c.callIndex) == Some(h)
    requires !frames[|frames| - 1].rest.Return? && !frames[|frames| - 1].rest.WaitFor?
    requires forall x: Extra :: Following(s, x).Some? ==>
      Following(s, x).value == Whole(actions, Moved(actions, frames, c.callIndex, x), c.callIndex + 1)
    ensures Agrees(actions, frames, c, w)
  {
    var r, rest := AskBegins(s, h, c, w);
    if r.outcome == Completed {
      var x := Recalled(r.ctx, c.callIndex);
      assert Following(s, x) == Some(rest);
      AgreesBy(actions, frames, c, w, h, rest);
    }
  }

  lemma RunFollows(actions: map<string, Action>, frames: seq<Frame>, k: nat, x: Extra)
    requires frames != [] && frames[|frames| - 1].rest.Run? && Following(Whole(actions, frames, k), x).Some?
    ensures Following(Whole(actions, frames, k), x).value == Whole(actions, Moved(actions, frames, k, x), k + 1)
  {
    var top := frames[|frames| - 1];
    var rest := if x.code in top.rest.on then top.rest.on[x.code] else top.rest.otherwise;
    TopStays(actions, frames, Moved(actions, frames, k, x), rest, top.groups, k + 1);
  }

  lemma SameRun(target: string, on: map<int, Script>, otherwise: Script)
    ensures SameAsk(RunExec(target, on, otherwise), RunExec(target, map[], Done))
  {
  }

  lemma SameCall(action: string, given: map<string, Script>, otherwise: Script)
    ensures SameAsk(Script.Invoke(action, given, otherwise), Script.Invoke(action, map[], Done))
  {
  }

  lemma RunAgrees(actions: map<string, Action>, frames: seq<Frame>, c: Context, w: World)
    requires Good(c) && frames != [] && frames[|frames| - 1].rest.Run?
    ensures Agrees(actions, frames, c, w)
  {
    var k, target := c.callIndex, frames[|frames| - 1].rest.target;
    var s := Whole(actions, frames, k);
    forall x: Extra | Following(s, x).Some?
      ensures Following(s, x).value == Whole(actions, Moved(actions, frames, k, x), k + 1)
    {
      RunFollows(actions, frames, k, x);
    }
    SameRun(target, s.on, s.otherwise);
    AskAgrees(actions, frames, c, w, s, RunExec(target, map[], Done));
  }

  lemma CallFollows(actions: map<string, Action>, frames: seq<Frame>, k: nat, x: Extra)
    requires frames != [] && frames[|frames| - 1].rest.CallAction?
    requires frames[|frames| - 1].rest.action !in Stack(frames) && frames[|frames| - 1].rest.action in actions
    requires Following(Whole(actions, frames, k), x).Some?
    ensures Following(Whole(actions, frames, k), x).value == Whole(actions, Moved(actions, frames, k, x), k + 1)
  {
    var top, stack := frames[|frames| - 1], Stack(frames);
    var action, rest := top.rest.action, top.rest.rest;
    var a := actions[action];
    var body := if x.params in a.given then a.given[x.params] else a.otherwise;
    var after := (j: nat) => Flatten(actions, stack, rest, top.groups, j, Caller(actions, frames));
    TopEnters(actions, frames, Moved(actions, frames, k, x), action, rest, body, k + 1, after);
    assert Following(Whole(actions, frames, k), x) ==
           Some(Flatten(actions, stack + [action], body, [], k + 1, after));
  }

  lemma CallAgrees(actions: map<string, Action>, frames: seq<Frame>, c: Context, w: World)
    requires Good(c) && frames != [] && frames[|frames| - 1].rest.CallAction?
    ensures Agrees(actions, frames, c, w)
  {
    var k, action := c.callIndex, frames[|frames| - 1].rest.action;
    if action !in Stack(frames) && action in actions {
      var s := Whole(actions, frames, k);
      forall x: Extra | Following(s, x).Some?
        ensures Following(s, x).value == Whole(actions, Moved(actions, frames, k, x), k + 1)
      {
        CallFollows(actions, frames, k, x);
      }
      SameCall(action, s.given, s.otherwise);
      AskAgrees(actions, frames, c, w, s, Script.Invoke(action, map[], Done));
    }
  }

  lemma ReturnAgrees(actions: map<string, Action>, frames: seq<Frame>, c: Context, w: World)
    requires frames != [] && frames[|frames| - 1].rest.Return?
    ensures Agrees(actions, frames, c, w)
  {
    DoneEnds(c, w);
  }

  lemma FramesAgree(actions: map<string, Action>, frames: seq<Frame>, c: Context, w: World)
    requires Good(c) && frames != []
    ensures Agrees(actions, frames, c, w)
  {
    match frames[|frames| - 1].rest
    case Return => ReturnAgrees(actions, frames, c, w);
    case Throw =>
    case Make(_, _, _) => MakeAgrees(actions, frames, c, w);
    case Send(_, _, _) => SendAgrees(actions, frames, c, w);
    case Run(_, _, _) => RunAgrees(actions, frames, c, w);
    case WaitFor(_, _, _, _, _) => WaitAgrees(actions, frames, c, w);
    case StopAll(_, _, _) => StopAgrees(actions, frames, c, w);
    case CallAction(_, _) => CallAgrees(actions, frames, c, w);
  }

  // One pass over the frames, innermost first.
  function RunFrames(actions: map<string, Action>, frames: seq<Frame>, c: Context, w: World): (Outcome, Context)
    requires Good(c)
    decreases Whole(actions, frames, c.callIndex), |frames|
  {
    if frames == [] then (Completed, c) else
    match Head(actions, frames, c.callIndex)
    case None => (Failed, c)
    case Some(h) =>
      var r := RunPass(h, c, w);
      match After(actions, frames, c.callIndex, r)
      case None => (r.outcome, r.ctx)
      case Some(moved) =>
        PassGood(h, c, w);
        FramesAgree(actions, frames, c, w);
        RunFrames(actions, moved, r.ctx, w)
  }

  // A pass over the closures, frame by frame, is the pass of the one script
  // they are written out to.
  lemma {:induction false} FramesRunAsScript(
    actions: map<string, Action>, frames: seq<Frame>, c: Context, w: World)
    requires Good(c)
    ensures var r := RunPass(Whole(actions, frames, c.callIndex), c, w);
      RunFrames(actions, frames, c, w) == (r.outcome, r.ctx)
    decreases Whole(actions, frames, c.callIndex), |frames|
  {
    if frames != [] {
      FramesAgree(actions, frames, c, w);
      var head := Head(actions, frames, c.callIndex);
      if head.Some? {
        var r := RunPass(head.value, c, w);
        var moved := After(actions, frames, c.callIndex, r);
        if moved.Some? {
          PassGood(head.value, c, w);
          FramesRunAsScript(actions, moved.value, r.ctx, w);
        }
      }
    }
  }

  // ------------------------------------------------------------- operations

  // An operation is one action's closure, entered with nothing on the stack.
  function Entered(outer: string, closure: Closure): seq<Frame> {
    [Frame(outer, closure, [])]
  }

  function Composed(actions: map<string, Action>, outer: string, closure: Closure): Script {
    Whole(actions, Entered(outer, closure), 0)
  }

  lemma ComposedFits(actions: map<string, Action>, outer: string, closure: Closure)
    ensures Fits(Composed(actions, outer, closure), 0)
  {
    var frames := Entered(outer, closure);
    forall j: nat ensures Fits(Caller(actions, frames)(j), j) {
      assert frames[..0] == [];
    }
    FlattenFits(actions, Stack(frames), closure, [], 0, Caller(actions, frames));
  }

  // The operation as the daemon runs it: every pass enters the action again
  // and walks the frames over the log.
  function FramesNext(actions: map<string, Action>, outer: string, closure: Closure, m: Operation, t: Turn): Operation {
    if m.ended.Some? then m else
    var c, s := Opened(m.log), Composed(actions, outer, closure);
    FramesRunAsScript(actions, Entered(outer, closure), c, t.world);
    PassGood(s, c, t.world);
    PassOrdered(s, c, t.world);
    var (outcome, d) := RunFrames(actions, Entered(outer, closure), c, t.world);
    Passed(m, Result(outcome, d, Done, map[]), t)
  }

  function ReplayFrames(actions: map<string, Action>, outer: string, closure: Closure, turns: seq<Turn>): Operation {
    if turns == [] then NotBegun
    else
      var n := |turns| - 1;
      FramesNext(actions, outer, closure, ReplayFrames(actions, outer, closure, turns[..n]), turns[n])
  }

  lemma SameFrames(actions: map<string, Action>, outer: string, closure: Closure, m: Operation, t: Turn)
    requires t.script == Composed(actions, outer, closure)
    ensures FramesNext(actions, outer, closure, m, t) == ReplayNext(m, t)
  {
    if m.ended.None? {
      FramesRunAsScript(actions, Entered(outer, closure), Opened(m.log), t.world);
    }
  }

  lemma {:induction false} FramesReplayed(
    actions: map<string, Action>, outer: string, closure: Closure, turns: seq<Turn>)
    requires forall t :: t in turns ==> t.script == Composed(actions, outer, closure)
    ensures ReplayFrames(actions, outer, closure, turns) == Replay(turns)
  {
    if turns != [] {
      var n := |turns| - 1;
      assert turns[n] in turns;
      FramesReplayed(actions, outer, closure, turns[..n]);
      SameFrames(actions, outer, closure, Replay(turns[..n]), turns[n]);
    }
  }

  // However actions invoke one another, and whatever the guard refuses: an
  // operation replayed from its first statement on every pass does what one
  // kept with all its frames would do, and its log does not contradict it, if
  // no pass meets a barrier that an earlier one gave up on.
  lemma ComposedIsResumption(actions: map<string, Action>, outer: string, closure: Closure, turns: seq<Turn>)
    requires forall t :: t in turns ==> t.script == Composed(actions, outer, closure)
    requires Steady(Composed(actions, outer, closure), turns)
    ensures var m := ReplayFrames(actions, outer, closure, turns);
      m == Resume(Composed(actions, outer, closure), turns).op && m.ended != Some(Diverged)
  {
    ComposedFits(actions, outer, closure);
    FramesReplayed(actions, outer, closure, turns);
    ReplayIsResumption(Composed(actions, outer, closure), turns);
    NeverDiverges(Composed(actions, outer, closure), turns);
  }
}
