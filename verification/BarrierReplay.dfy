/**
 * Replay of a suspended lifecycle operation.  An action closure is never kept
 * across a wait: it is run again from its first statement on every pass, and
 * the action log makes the calls of earlier passes answer from their recorded
 * entries.  One pass, and what it leaves in the log.
 */
module BarrierReplay {
  import opened Common

  datatype Kind = Start | Query | WarmCerts | WarmImages | Stop | Signal | Exec | SubAction

  // The `extra` column: a signal's name, a command's exit code, or the action
  // a call invoked and the params it was validated to.
  datatype Extra = NoExtra | Name(name: string) | Exit(code: int) | Payload(action: string, params: string)

  datatype Call = Call(kind: Kind, resources: seq<string>, extra: Extra)

  datatype Record = Record(required: nat, deadline: Option<nat>, satisfied: bool, startedAt: nat)

  // A row of the action log.  Its call index is its position; each barrier
  // asserted on the call has its record under its own position on that call.
  datatype Entry = Entry(call: Call, barriers: map<nat, Record>)

  // What a closure still has to do.  A barrier names the call that returned
  // the group it is asserted on; a command's exit code, or the params another
  // action is invoked with, select what follows, and `late` is what the closure
  // does with the exception of a barrier that expires: `Raise` if it has no
  // catch for it.
  //
  // `rt.stop` is a claimed call followed by a barrier of its own, which waits
  // for termination and names the resources it is `stopping`.
  datatype Script =
    | Done
    | Raise
    | Claim(kind: Kind, resources: seq<string>, rest: Script)
    | SendSignal(resources: seq<string>, name: string, rest: Script)
    | RunExec(target: string, on: map<int, Script>, otherwise: Script)
    | Invoke(action: string, given: map<string, Script>, otherwise: Script)
    | Await(anchor: nat, required: nat, deadline: Option<nat>, stopping: Option<seq<string>>,
            late: Script, rest: Script)

  // Lifecycle states are numbered in their order.
  const TERMINATED: nat := 5

  function StopCall(k: nat, resources: seq<string>, deadline: Option<nat>, rest: Script): Script {
    Claim(Kind.Stop, resources, Await(k, TERMINATED, deadline, Some(resources), Raise, rest))
  }

  // The calls whose answer is recorded with them.
  predicate Asks(s: Script) {
    s.RunExec? || s.Invoke?
  }

  function KindOf(s: Script): Kind {
    if s.Invoke? then SubAction else Exec
  }

  // What follows such a call, if that can be the answer to it.
  function Following(s: Script, answer: Extra): (r: Option<Script>)
    ensures r.Some? ==> r.value < s
  {
    match s
    case RunExec(_, on, otherwise) =>
      if !answer.Exit? then None else Some(if answer.code in on then on[answer.code] else otherwise)
    case Invoke(action, given, otherwise) =>
      if !answer.Payload? || answer.action != action then None
      else Some(if answer.params in given then given[answer.params] else otherwise)
    case _ => None
  }

  // The steps at which a cancel request is looked for.
  predicate Guarded(s: Script) {
    s.RunExec? || s.Await? || (s.Claim? && s.kind == Kind.Stop)
  }

  datatype Observation = Observation(now: nat, reached: bool)

  // What one pass sees: whether the operation is cancelled, what the command
  // at a call index exits with (or that it could not be run), what the params
  // of the invocation there are validated to (or that they are refused), and
  // what the world answers to the barrier at a position of a call.
  datatype World = World(
    cancelled: bool,
    exit: nat -> Option<int>,
    params: nat -> Option<string>,
    at: (nat, nat) -> Observation)

  function Answer(s: Script, w: World, k: nat): Option<Extra> {
    match s
    case RunExec(_, _, _) => if w.exit(k).None? then None else Some(Exit(w.exit(k).value))
    case Invoke(action, _, _) => if w.params(k).None? then None else Some(Payload(action, w.params(k).value))
    case _ => None
  }

  datatype Outcome = Completed | Suspended | Failed | Cancelled | Diverged

  // The replay context, with the calls it has really performed in `done`.
  // Pending entries are found by their call index; `order` has the indices
  // in the order the entries were pushed, which is the order they are
  // written in.
  datatype Context = Context(
    committed: seq<Entry>,
    pending: map<nat, Entry>,
    order: seq<nat>,
    callIndex: nat,
    seqs: map<nat, nat>,
    done: seq<Call>)

  // How a pass ended, and for a suspended one where: the script from the
  // barrier on, and the barrier positions handed out before it.
  datatype Result = Result(outcome: Outcome, ctx: Context, rest: Script, seqs: map<nat, nat>)

  function Opened(log: seq<Entry>): Context {
    Context(log, map[], [], 0, map[], [])
  }

  function Count(seqs: map<nat, nat>, a: nat): nat {
    if a in seqs then seqs[a] else 0
  }

  function Bump(seqs: map<nat, nat>, a: nat): map<nat, nat> {
    seqs[a := Count(seqs, a) + 1]
  }

  predicate Known(c: Context, i: nat) {
    i in c.pending || i < |c.committed|
  }

  function Held(c: Context, i: nat): Entry
    requires Known(c, i)
  {
    if i in c.pending then c.pending[i] else c.committed[i]
  }

  // ---------------------------------------------------------------- calls

  datatype Replayed = Fresh | Recorded(entry: Entry) | Mismatch

  function ReplayStep(c: Context, kind: Kind, expected: Option<Extra>): Replayed {
    if c.callIndex >= |c.committed| then Fresh
    else
      var e := c.committed[c.callIndex];
      if e.call.kind != kind then Mismatch
      else if expected.Some? && e.call.extra != expected.value then Mismatch
      else Recorded(e)
  }

  function Advanced(c: Context): Context {
    c.(callIndex := c.callIndex + 1)
  }

  function Performed(c: Context, call: Call): Context {
    c.(pending := c.pending[c.callIndex := Entry(call, map[])],
       order := c.order + [c.callIndex],
       callIndex := c.callIndex + 1,
       done := c.done + [call])
  }

  // ------------------------------------------------------------- barriers

  predicate HasPassed(log: seq<Entry>, a: nat, q: nat, required: nat) {
    && a < |log| && q in log[a].barriers
    && log[a].barriers[q].required == required && log[a].barriers[q].satisfied
  }

  // A start already recorded for this barrier and state stands.
  function Recording(e: Entry, q: nat, r: Record): Entry {
    var start :=
      if q in e.barriers && e.barriers[q].required == r.required
      then e.barriers[q].startedAt else r.startedAt;
    e.(barriers := e.barriers[q := r.(startedAt := start)])
  }

  function RecordAtAnchor(c: Context, a: nat, q: nat, r: Record): Context {
    if !Known(c, a) then c
    else c.(pending := c.pending[a := Recording(Held(c, a), q, r)],
            order := if a in c.pending then c.order else c.order + [a])
  }

  function Elapsed(now: nat, start: nat): nat {
    if now < start then 0 else now - start
  }

  predicate Lends(e: Entry, resources: seq<string>) {
    && e.call.resources == resources && 0 in e.barriers
    && e.barriers[0].required == TERMINATED && !e.barriers[0].satisfied
  }

  // The start of the first entry that waits, as its first barrier, for the
  // termination of these very resources.
  function FirstLent(entries: seq<Entry>, resources: seq<string>): Option<nat> {
    if entries == [] then None
    else if Lends(entries[0], resources) then Some(entries[0].barriers[0].startedAt)
    else FirstLent(entries[1..], resources)
  }

  function PendingEntries(c: Context, order: seq<nat>): seq<Entry> {
    if order == [] then []
    else (if order[0] in c.pending then [c.pending[order[0]]] else []) + PendingEntries(c, order[1..])
  }

  function Lent(c: Context, resources: seq<string>): Option<nat> {
    FirstLent(c.committed + PendingEntries(c, c.order), resources)
  }

  // Since when a barrier has waited: its own record says so, except that a
  // stop takes the first record for its resources, whichever call has it.
  function WaitedSince(c: Context, a: nat, q: nat, required: nat, stopping: Option<seq<string>>): Option<nat> {
    if stopping.Some? then Lent(c, stopping.value)
    else if Known(c, a) && q in Held(c, a).barriers &&
            Held(c, a).barriers[q].required == required && !Held(c, a).barriers[q].satisfied
    then Some(Held(c, a).barriers[q].startedAt)
    else None
  }

  predicate Overdue(deadline: Option<nat>, since: Option<nat>, now: nat) {
    deadline.Some? && since.Some? && Elapsed(now, since.value) >= deadline.value
  }

  datatype Verdict = Pass | Wait | TimedOut

  function Drawn(c: Context, a: nat): Context {
    c.(seqs := Bump(c.seqs, a))
  }

  function Check(
    c: Context, a: nat, required: nat, deadline: Option<nat>, stopping: Option<seq<string>>, seen: Observation)
    : (Verdict, Context)
  {
    var q, drawn := Count(c.seqs, a), Drawn(c, a);
    if HasPassed(c.committed, a, q, required) then (Pass, drawn)
    else if seen.reached then
      (Pass, RecordAtAnchor(drawn, a, q, Record(required, deadline, true, seen.now)))
    else if Overdue(deadline, WaitedSince(drawn, a, q, required, stopping), seen.now) then (TimedOut, drawn)
    else (Wait, RecordAtAnchor(drawn, a, q, Record(required, deadline, false, seen.now)))
  }

  // ----------------------------------------------------------------- pass

  datatype Next = Go(rest: Script, ctx: Context) | Halt(outcome: Outcome, ctx: Context)

  // A call that is replayed only if the log has it at this position.
  function Called(c: Context, expected: Option<Extra>, call: Call, rest: Script): Next {
    match ReplayStep(c, call.kind, expected)
    case Mismatch => Halt(Diverged, c)
    case Recorded(_) => Go(rest, Advanced(c))
    case Fresh => Go(rest, Performed(c, call))
  }

  // A call whose answer is taken from the log if it is there.
  function Answered(s: Script, c: Context, answer: Option<Extra>): Next
    requires Asks(s)
  {
    match ReplayStep(c, KindOf(s), None)
    case Mismatch => Halt(Diverged, c)
    case Recorded(e) =>
      var next := Following(s, e.call.extra);
      if next.None? then Halt(Diverged, c) else Go(next.value, Advanced(c))
    case Fresh =>
      if answer.None? || Following(s, answer.value).None? then Halt(Failed, c)
      else Go(Following(s, answer.value).value, Performed(c, AskedCall(s, answer.value)))
  }

  function AskedCall(s: Script, answer: Extra): Call {
    Call(KindOf(s), if s.RunExec? then [s.target] else [], answer)
  }

  // A stop that is not in the log yet and is past its deadline already, by a
  // start that is not its own, is not pushed.
  predicate Lapsed(s: Script, c: Context, w: World) {
    && s.Claim? && s.kind == Kind.Stop && s.rest.Await? && s.rest.stopping.Some? && c.callIndex >= |c.committed|
    && !w.at(c.callIndex, 0).reached
    && Overdue(s.rest.deadline, Lent(c, s.resources), w.at(c.callIndex, 0).now)
  }

  // The exception of a stop is not caught.
  predicate Catches(s: Script) {
    s.Await? && s.stopping.None? && !s.late.Raise?
  }

  function Awaited(s: Script, c: Context, seen: Observation): Next
    requires s.Await?
  {
    var (verdict, d) := Check(c, s.anchor, s.required, s.deadline, s.stopping, seen);
    match verdict
    case Pass => Go(s.rest, d)
    case Wait => Halt(Suspended, d)
    case TimedOut => if Catches(s) then Go(s.late, d) else Halt(Failed, d)
  }

  function Step(s: Script, c: Context, w: World): (n: Next)
    ensures n.Go? ==> n.rest < s
  {
    if Guarded(s) && w.cancelled then Halt(Cancelled, c) else
    match s
    case Done => Halt(Completed, c)
    case Raise => Halt(Failed, c)
    case Claim(kind, resources, rest) =>
      if Lapsed(s, c, w) then Halt(Failed, c) else Called(c, None, Call(kind, resources, NoExtra), rest)
    case SendSignal(resources, name, rest) =>
      Called(c, Some(Name(name)), Call(Signal, resources, Name(name)), rest)
    case RunExec(_, _, _) => Answered(s, c, Answer(s, w, c.callIndex))
    case Invoke(_, _, _) => Answered(s, c, Answer(s, w, c.callIndex))
    case Await(a, _, _, _, _, _) => Awaited(s, c, w.at(a, Count(c.seqs, a)))
  }

  function RunPass(s: Script, c: Context, w: World): Result
    decreases s
  {
    match Step(s, c, w)
    case Go(rest, d) => RunPass(rest, d, w)
    case Halt(outcome, d) => Result(outcome, d, s, c.seqs)
  }

  lemma {:induction false} FirstLentSnoc(entries: seq<Entry>, e: Entry, resources: seq<string>)
    requires !Lends(e, resources)
    ensures FirstLent(entries + [e], resources) == FirstLent(entries, resources)
  {
    if entries != [] {
      assert (entries + [e])[1..] == entries[1..] + [e];
      FirstLentSnoc(entries[1..], e, resources);
    }
  }

  lemma {:induction false} PendingEntriesSnoc(c: Context, d: Context, order: seq<nat>, k: nat)
    requires k in d.pending
    requires forall i :: i in order ==> i in c.pending && i in d.pending && c.pending[i] == d.pending[i]
    ensures PendingEntries(d, order + [k]) == PendingEntries(c, order) + [d.pending[k]]
  {
    if order == [] {
      assert order + [k] == [k] && [k][1..] == [];
    } else {
      assert (order + [k])[1..] == order[1..] + [k];
      PendingEntriesSnoc(c, d, order[1..], k);
    }
  }

  // A call lends nothing before it has waited.
  lemma ClaimLendsNothing(c: Context, call: Call, resources: seq<string>)
    requires c.callIndex !in c.pending && forall i :: i in c.order ==> i in c.pending
    ensures Lent(Performed(c, call), resources) == Lent(c, resources)
  {
    var d, e := Performed(c, call), Entry(call, map[]);
    PendingEntriesSnoc(c, d, c.order, c.callIndex);
    assert d.committed + PendingEntries(d, d.order) == c.committed + PendingEntries(c, c.order) + [e];
    FirstLentSnoc(c.committed + PendingEntries(c, c.order), e, resources);
  }

  lemma {:induction false} SameLent(c: Context, d: Context, order: seq<nat>)
    requires c.pending == d.pending
    ensures PendingEntries(c, order) == PendingEntries(d, order)
  {
    if order != [] { SameLent(c, d, order[1..]); }
  }

  // A stop as the two steps of its script.
  function Stopped(c: Context, resources: seq<string>, deadline: Option<nat>, seen: Observation): Next {
    var w := World(false, (k: nat) => None, (k: nat) => None, (a: nat, q: nat) => seen);
    match Step(StopCall(c.callIndex, resources, deadline, Done), c, w)
    case Halt(outcome, d) => Halt(outcome, d)
    case Go(rest, d) => Step(rest, d, w)
  }

  // The entry at a position is the one this stop left there, if any.
  predicate OwnEntry(e: Entry, resources: seq<string>) {
    && e.call == Call(Kind.Stop, resources, NoExtra)
    && (forall q :: q in e.barriers ==> q == 0 && e.barriers[q].required == TERMINATED)
  }

  // If the log has a stop here, it is the one being made.
  predicate Recurs(c: Context, resources: seq<string>) {
    c.callIndex < |c.committed| && c.committed[c.callIndex].call.kind == Kind.Stop ==>
      OwnEntry(c.committed[c.callIndex], resources)
  }

  // A stop as one push of a whole entry.
  function StoppedAtOnce(c: Context, resources: seq<string>, deadline: Option<nat>, seen: Observation)
    : (Outcome, Context)
  {
    var k, call := c.callIndex, Call(Kind.Stop, resources, NoExtra);
    if k < |c.committed| && c.committed[k].call.kind != Kind.Stop then (Diverged, c)
    else if HasPassed(c.committed, k, 0, TERMINATED) then (Completed, Advanced(c))
    else if !seen.reached && Overdue(deadline, Lent(c, resources), seen.now) then (Failed, c)
    else
      var start := if k < |c.committed| && 0 in c.committed[k].barriers then c.committed[k].barriers[0].startedAt
                   else seen.now;
      var e := Entry(call, map[0 := Record(TERMINATED, deadline, seen.reached, start)]);
      (if seen.reached then Completed else Suspended,
       c.(pending := c.pending[k := e], order := c.order + [k], callIndex := k + 1,
          done := if k < |c.committed| then c.done else c.done + [call]))
  }

  // The two agree: same outcome, and the same context where the pass goes on
  // or suspends, but for the position drawn for the barrier, which no other
  // barrier can ask for.
  ghost predicate AgreeOnStop(c: Context, n: Next, r: (Outcome, Context)) {
    && r.0 == (if n.Go? then Completed else n.outcome)
    && (r.0 == Completed || r.0 == Suspended ==> r.1 == n.ctx.(seqs := c.seqs))
    && (r.0 == Diverged || r.0 == Failed ==> r.1 == c)
  }

  lemma FreshStop(c: Context, resources: seq<string>, deadline: Option<nat>, seen: Observation)
    requires c.callIndex >= |c.committed| && c.callIndex !in c.pending && c.callIndex !in c.seqs
    requires forall i :: i in c.order ==> i in c.pending
    ensures AgreeOnStop(c, Stopped(c, resources, deadline, seen), StoppedAtOnce(c, resources, deadline, seen))
  {
    var k, call := c.callIndex, Call(Kind.Stop, resources, NoExtra);
    var d := Performed(c, call);
    assert Lent(Drawn(d, k), resources) == Lent(c, resources) by {
      ClaimLendsNothing(c, call, resources);
      SameLent(d, Drawn(d, k), d.order);
    }
    assert d.pending[k] == Entry(call, map[]);
    assert Count(d.seqs, k) == 0;
    var e := Recording(d.pending[k], 0, Record(TERMINATED, deadline, seen.reached, seen.now));
    assert e == Entry(call, map[0 := Record(TERMINATED, deadline, seen.reached, seen.now)]);
    assert d.pending[k := e] == c.pending[k := e];
  }

  lemma ReplayedStop(c: Context, resources: seq<string>, deadline: Option<nat>, seen: Observation)
    requires c.callIndex < |c.committed| && c.callIndex !in c.pending && c.callIndex !in c.seqs
    requires Recurs(c, resources)
    ensures AgreeOnStop(c, Stopped(c, resources, deadline, seen), StoppedAtOnce(c, resources, deadline, seen))
  {
    var k, d := c.callIndex, Advanced(c);
    SameLent(c, Drawn(d, k), c.order);
    if c.committed[k].call.kind == Kind.Stop && !HasPassed(c.committed, k, 0, TERMINATED) {
      var r := Record(TERMINATED, deadline, seen.reached, seen.now);
      var e := Recording(c.committed[k], 0, r);
      assert e.barriers == map[0 := e.barriers[0]];
      assert e == Entry(Call(Kind.Stop, resources, NoExtra), map[0 := e.barriers[0]]);
    }
  }

  // The context a pass mutates, call by call.
  class ReplayContext {
    const committed: seq<Entry>
    var pending: map<nat, Entry>
    var order: seq<nat>
    var callIndex: nat
    var seqs: map<nat, nat>
    var done: seq<Call>

    function View(): Context
      reads this
    {
      Context(committed, pending, order, callIndex, seqs, done)
    }

    constructor (log: seq<Entry>)
      ensures View() == Opened(log)
    {
      committed, pending, order, callIndex, seqs, done := log, map[], [], 0, map[], [];
    }

    method NextBarrierSeq(a: nat) returns (q: nat)
      modifies this`seqs
      ensures q == Count(old(seqs), a)
      ensures View() == old(View()).(seqs := Bump(old(seqs), a))
    {
      q := if a in seqs then seqs[a] else 0;
      seqs := seqs[a := q + 1];
    }

    // Consumes the committed entry of the call being made, if there is one.
    method ConsumeEntry(kind: Kind, expected: Option<Extra>) returns (r: Replayed)
      modifies this`callIndex
      ensures r == ReplayStep(old(View()), kind, expected)
      ensures View() == if r.Recorded? then Advanced(old(View())) else old(View())
    {
      if callIndex >= |committed| { return Fresh; }
      var entry := committed[callIndex];
      if entry.call.kind != kind { return Mismatch; }
      if expected.Some? && entry.call.extra != expected.value { return Mismatch; }
      callIndex := callIndex + 1;
      return Recorded(entry);
    }

    method PushEntry(call: Call)
      modifies this`pending, this`order, this`callIndex, this`done
      ensures View() == Performed(old(View()), call)
    {
      pending := pending[callIndex := Entry(call, map[])];
      order := order + [callIndex];
      done := done + [call];
      callIndex := callIndex + 1;
    }

    // The index of the claimed entry, or nothing on a mismatch.
    method ClaimLogPosition(kind: Kind, resources: seq<string>) returns (index: Option<nat>)
      modifies this`pending, this`order, this`callIndex, this`done
      ensures var n := Called(old(View()), None, Call(kind, resources, NoExtra), Done);
        View() == n.ctx && index == if n.Go? then Some(old(callIndex)) else None
    {
      var position := callIndex;
      var r := ConsumeEntry(kind, None);
      if r.Mismatch? { return None; }
      if r.Fresh? { PushEntry(Call(kind, resources, NoExtra)); }
      return Some(position);
    }

    method SignalOnce(resources: seq<string>, name: string) returns (ok: bool)
      modifies this`pending, this`order, this`callIndex, this`done
      ensures var n := Called(old(View()), Some(Name(name)), Call(Signal, resources, Name(name)), Done);
        View() == n.ctx && ok == n.Go?
    {
      var r := ConsumeEntry(Signal, Some(Name(name)));
      if r.Fresh? { PushEntry(Call(Signal, resources, Name(name))); }
      return !r.Mismatch?;
    }

    // Makes the call unless its answer is on record; `answer` is what the
    // executor or the validation would say.  Nothing on a mismatch, a failed
    // executor or refused params.
    method AskOnce(s: Script, answer: Option<Extra>) returns (taken: Option<Extra>)
      requires Asks(s)
      modifies this`pending, this`order, this`callIndex, this`done
      ensures var n := Answered(s, old(View()), answer);
        && taken.Some? == n.Go? && (n.Go? ==> View() == n.ctx && Following(s, taken.value) == Some(n.rest))
        && View().(callIndex := 0) == n.ctx.(callIndex := 0)
      ensures taken.Some? ==>
        if old(callIndex) < |committed| then committed[old(callIndex)].call.extra == taken.value else taken == answer
    {
      var r := ConsumeEntry(KindOf(s), None);
      match r
      case Mismatch => return None;
      case Recorded(entry) =>
        return if Following(s, entry.call.extra).Some? then Some(entry.call.extra) else None;
      case Fresh =>
        if answer.None? || Following(s, answer.value).None? { return None; }
        PushEntry(AskedCall(s, answer.value));
        return answer;
    }

    // Records against this pass's own entry, or a copy of the committed one.
    method RecordAt(a: nat, q: nat, r: Record) returns (found: bool)
      modifies this`pending, this`order
      ensures View() == RecordAtAnchor(old(View()), a, q, r) && found == Known(old(View()), a)
    {
      if a in pending {
        pending := pending[a := Recording(pending[a], q, r)];
        return true;
      }
      if a >= |committed| { return false; }
      pending := pending[a := Recording(committed[a], q, r)];
      order := order + [a];
      return true;
    }

    // One push of a whole entry, where the script has a claim and a barrier.
    // Only the kind of a recorded entry is looked at: one for other resources
    // is overwritten, and keeps its start.
    method StopOnce(resources: seq<string>, deadline: Option<nat>, seen: Observation) returns (outcome: Outcome)
      requires callIndex !in pending && callIndex !in seqs && (forall i :: i in order ==> i in pending)
      modifies this`pending, this`order, this`callIndex, this`done
      ensures (outcome, View()) == StoppedAtOnce(old(View()), resources, deadline, seen)
      ensures Recurs(old(View()), resources) ==>
        AgreeOnStop(old(View()), Stopped(old(View()), resources, deadline, seen), (outcome, View()))
    {
      if callIndex >= |committed| {
        FreshStop(View(), resources, deadline, seen);
      } else if Recurs(View(), resources) {
        ReplayedStop(View(), resources, deadline, seen);
      }
      outcome := PushStop(resources, deadline, seen);
    }

    method PushStop(resources: seq<string>, deadline: Option<nat>, seen: Observation) returns (outcome: Outcome)
      modifies this`pending, this`order, this`callIndex, this`done
      ensures (outcome, View()) == StoppedAtOnce(old(View()), resources, deadline, seen)
    {
      var start := seen.now;
      if callIndex < |committed| {
        var entry := committed[callIndex];
        if entry.call.kind != Kind.Stop { return Diverged; }
        if 0 in entry.barriers {
          if entry.barriers[0].required == TERMINATED && entry.barriers[0].satisfied {
            callIndex := callIndex + 1;
            return Completed;
          }
          start := entry.barriers[0].startedAt;
        }
      }
      if !seen.reached && Overdue(deadline, Lent(View(), resources), seen.now) { return Failed; }
      var record := Record(TERMINATED, deadline, seen.reached, start);
      pending := pending[callIndex := Entry(Call(Kind.Stop, resources, NoExtra), map[0 := record])];
      order := order + [callIndex];
      if callIndex >= |committed| { done := done + [Call(Kind.Stop, resources, NoExtra)]; }
      callIndex := callIndex + 1;
      return if seen.reached then Completed else Suspended;
    }

    method CheckBarrier(a: nat, required: nat, deadline: Option<nat>, seen: Observation) returns (verdict: Verdict)
      modifies this`pending, this`order, this`seqs
      ensures (verdict, View()) == Check(old(View()), a, required, deadline, None, seen)
    {
      var q := NextBarrierSeq(a);
      if a < |committed| && q in committed[a].barriers {
        var r := committed[a].barriers[q];
        if r.required == required && r.satisfied { return Pass; }
      }
      if seen.reached {
        var _ := RecordAt(a, q, Record(required, deadline, true, seen.now));
        return Pass;
      }
      if deadline.Some? && (a in pending || a < |committed|) {
        var entry := if a in pending then pending[a] else committed[a];
        if q in entry.barriers && entry.barriers[q].required == required && !entry.barriers[q].satisfied {
          if Elapsed(seen.now, entry.barriers[q].startedAt) >= deadline.value { return TimedOut; }
        }
      }
      var _ := RecordAt(a, q, Record(required, deadline, false, seen.now));
      return Wait;
    }
  }

  // The barriers of a script hang on calls the closure has made before them.
  ghost predicate Anchored(s: Script, k: nat)
    decreases s
  {
    match s
    case Done => true
    case Raise => true
    case Claim(_, _, rest) => Anchored(rest, k + 1)
    case SendSignal(_, _, rest) => Anchored(rest, k + 1)
    case RunExec(_, _, _) => forall x: Extra :: Following(s, x).Some? ==> Anchored(Following(s, x).value, k + 1)
    case Invoke(_, _, _) => forall x: Extra :: Following(s, x).Some? ==> Anchored(Following(s, x).value, k + 1)
    case Await(a, _, _, _, late, rest) => a < k && Anchored(late, k) && Anchored(rest, k)
  }

  // The committed entries are consumed before anything is performed, and the
  // pending entries are exactly the performed calls and corrected copies of
  // committed ones.
  ghost predicate Good(c: Context) {
    && |c.done| == (if c.callIndex < |c.committed| then 0 else c.callIndex - |c.committed|)
    && (forall i :: i in c.pending ==> i < |c.committed| + |c.done|)
    && (forall i :: i in c.pending && i < |c.committed| ==> c.pending[i].call == c.committed[i].call)
    && (forall i :: |c.committed| <= i < |c.committed| + |c.done| ==>
          i in c.pending && c.pending[i].call == c.done[i - |c.committed|])
  }

  // One pass has only added to what another had done.
  ghost predicate Further(c: Context, d: Context) {
    d.committed == c.committed && c.callIndex <= d.callIndex && c.done <= d.done && c.order <= d.order
  }

  // The log once the pending entries are committed.
  function Flushed(c: Context): seq<Entry>
    requires forall i :: |c.committed| <= i < |c.committed| + |c.done| ==> i in c.pending
  {
    seq(|c.committed| + |c.done|, i requires 0 <= i < |c.committed| + |c.done| => Held(c, i))
  }

  function Calls(log: seq<Entry>): seq<Call> {
    seq(|log|, i requires 0 <= i < |log| => log[i].call)
  }

  lemma PerformedGood(c: Context, call: Call)
    requires Good(c) && c.callIndex >= |c.committed|
    ensures Good(Performed(c, call))
  {
  }

  lemma RecordGood(c: Context, a: nat, q: nat, r: Record)
    requires Good(c)
    ensures Good(RecordAtAnchor(c, a, q, r))
  {
  }

  // What a step leads to keeps the context good and gets further.
  ghost predicate Onward(c: Context, n: Next) {
    Good(n.ctx) && Further(c, n.ctx)
  }

  lemma CalledGood(c: Context, expected: Option<Extra>, call: Call, rest: Script)
    requires Good(c)
    ensures Onward(c, Called(c, expected, call, rest))
  {
    if c.callIndex >= |c.committed| { PerformedGood(c, call); }
  }

  lemma AnsweredGood(s: Script, c: Context, answer: Option<Extra>)
    requires Good(c) && Asks(s)
    ensures Onward(c, Answered(s, c, answer))
  {
    if c.callIndex >= |c.committed| && answer.Some? { PerformedGood(c, AskedCall(s, answer.value)); }
  }

  // A barrier leaves the context with its position drawn, and a record of its
  // own or none.
  lemma AwaitedLeaves(s: Script, c: Context, seen: Observation)
    requires s.Await?
    ensures var d, a, q := Awaited(s, c, seen).ctx, s.anchor, Count(c.seqs, s.anchor);
      || d == Drawn(c, a)
      || d == RecordAtAnchor(Drawn(c, a), a, q, Record(s.required, s.deadline, true, seen.now))
      || d == RecordAtAnchor(Drawn(c, a), a, q, Record(s.required, s.deadline, false, seen.now))
  {
  }

  lemma DrawnGood(c: Context, a: nat, r: Record)
    requires Good(c)
    ensures Good(Drawn(c, a)) && Good(RecordAtAnchor(Drawn(c, a), a, Count(c.seqs, a), r))
    ensures Further(c, Drawn(c, a)) && Further(c, RecordAtAnchor(Drawn(c, a), a, Count(c.seqs, a), r))
  {
    RecordGood(Drawn(c, a), a, Count(c.seqs, a), r);
  }

  lemma AwaitedGood(s: Script, c: Context, seen: Observation)
    requires Good(c) && s.Await?
    ensures Onward(c, Awaited(s, c, seen))
  {
    AwaitedLeaves(s, c, seen);
    DrawnGood(c, s.anchor, Record(s.required, s.deadline, true, seen.now));
    DrawnGood(c, s.anchor, Record(s.required, s.deadline, false, seen.now));
  }

  lemma StepGood(s: Script, c: Context, w: World)
    requires Good(c)
    ensures Onward(c, Step(s, c, w))
  {
    match s
    case Done =>
    case Raise =>
    case Claim(kind, resources, rest) => CalledGood(c, None, Call(kind, resources, NoExtra), rest);
    case SendSignal(resources, name, rest) =>
      CalledGood(c, Some(Name(name)), Call(Signal, resources, Name(name)), rest);
    case RunExec(_, _, _) => AnsweredGood(s, c, Answer(s, w, c.callIndex));
    case Invoke(_, _, _) => AnsweredGood(s, c, Answer(s, w, c.callIndex));
    case Await(a, _, _, _, _, _) => AwaitedGood(s, c, w.at(a, Count(c.seqs, a)));
  }

  lemma {:induction false} PassGood(s: Script, c: Context, w: World)
    requires Good(c)
    ensures Good(RunPass(s, c, w).ctx) && Further(c, RunPass(s, c, w).ctx)
    decreases s
  {
    StepGood(s, c, w);
    var n := Step(s, c, w);
    if n.Go? { PassGood(n.rest, n.ctx, w); }
  }

  // Whatever the closure does, and even if it is another script than the one
  // that wrote the log: committing appends exactly the calls performed.
  lemma FlushedCalls(c: Context)
    requires Good(c)
    ensures Calls(Flushed(c)) == Calls(c.committed) + c.done
  {
  }

  // ------------------------------------------------- writing row by row

  // The rows of `order` that the log did not have, in order.
  function FreshRows(order: seq<nat>, n: nat): seq<nat> {
    if order == [] then []
    else
      var last := order[|order| - 1];
      FreshRows(order[..|order| - 1], n) + if last >= n then [last] else []
  }

  function Upwards(n: nat, count: nat): seq<nat> {
    seq(count, i requires 0 <= i < count => n + i)
  }

  // The rows to write are the pending entries, and the calls performed are
  // among them in the order they were performed.
  ghost predicate Ordered(c: Context) {
    && (forall i :: i in c.order <==> i in c.pending)
    && FreshRows(c.order, |c.committed|) == Upwards(|c.committed|, |c.done|)
  }

  lemma FreshRowsSnoc(order: seq<nat>, i: nat, n: nat)
    ensures FreshRows(order + [i], n) == FreshRows(order, n) + if i >= n then [i] else []
  {
    assert (order + [i])[..|order|] == order;
  }

  lemma PerformedOrdered(c: Context, call: Call)
    requires Good(c) && Ordered(c) && c.callIndex >= |c.committed|
    ensures Ordered(Performed(c, call))
  {
    FreshRowsSnoc(c.order, c.callIndex, |c.committed|);
  }

  lemma RecordOrdered(c: Context, a: nat, q: nat, r: Record)
    requires Ordered(c)
    ensures Ordered(RecordAtAnchor(c, a, q, r))
  {
    FreshRowsSnoc(c.order, a, |c.committed|);
  }

  lemma CalledOrdered(c: Context, expected: Option<Extra>, call: Call, rest: Script)
    requires Good(c) && Ordered(c)
    ensures Ordered(Called(c, expected, call, rest).ctx)
  {
    if c.callIndex >= |c.committed| { PerformedOrdered(c, call); }
  }

  lemma AnsweredOrdered(s: Script, c: Context, answer: Option<Extra>)
    requires Good(c) && Ordered(c) && Asks(s)
    ensures Ordered(Answered(s, c, answer).ctx)
  {
    if c.callIndex >= |c.committed| && answer.Some? { PerformedOrdered(c, AskedCall(s, answer.value)); }
  }

  lemma DrawnOrdered(c: Context, a: nat, r: Record)
    requires Ordered(c)
    ensures Ordered(Drawn(c, a)) && Ordered(RecordAtAnchor(Drawn(c, a), a, Count(c.seqs, a), r))
  {
    assert Ordered(Drawn(c, a));
    RecordOrdered(Drawn(c, a), a, Count(c.seqs, a), r);
  }

  lemma AwaitedOrdered(s: Script, c: Context, seen: Observation)
    requires Ordered(c) && s.Await?
    ensures Ordered(Awaited(s, c, seen).ctx)
  {
    AwaitedLeaves(s, c, seen);
    DrawnOrdered(c, s.anchor, Record(s.required, s.deadline, true, seen.now));
    DrawnOrdered(c, s.anchor, Record(s.required, s.deadline, false, seen.now));
  }

  lemma CallOrdered(s: Script, c: Context, w: World)
    requires Good(c) && Ordered(c) && (s.Claim? || s.SendSignal?)
    ensures Ordered(Step(s, c, w).ctx)
  {
    if s.Claim? {
      CalledOrdered(c, None, Call(s.kind, s.resources, NoExtra), s.rest);
    } else {
      CalledOrdered(c, Some(Name(s.name)), Call(Signal, s.resources, Name(s.name)), s.rest);
    }
  }

  lemma StepOrdered(s: Script, c: Context, w: World)
    requires Good(c) && Ordered(c)
    ensures Ordered(Step(s, c, w).ctx)
  {
    if s.Claim? || s.SendSignal? { CallOrdered(s, c, w); }
    else if Asks(s) { AnsweredOrdered(s, c, Answer(s, w, c.callIndex)); }
    else if s.Await? { AwaitedOrdered(s, c, w.at(s.anchor, Count(c.seqs, s.anchor))); }
  }

  lemma {:induction false} PassOrdered(s: Script, c: Context, w: World)
    requires Good(c) && Ordered(c)
    ensures Ordered(RunPass(s, c, w).ctx)
    decreases s
  {
    StepGood(s, c, w);
    StepOrdered(s, c, w);
    var n := Step(s, c, w);
    if n.Go? { PassOrdered(n.rest, n.ctx, w); }
  }

  // What the first rows of a commit leave of a pass, when the daemon dies
  // before the next one.
  function Written(c: Context, rows: nat): Context {
    var order := if rows < |c.order| then c.order[..rows] else c.order;
    var count := |FreshRows(order, |c.committed|)|;
    var done := if count <= |c.done| then c.done[..count] else c.done;
    c.(pending := map i | i in c.pending && i in order :: c.pending[i],
       order := order,
       callIndex := if c.callIndex < |c.committed| then c.callIndex else |c.committed| + |done|,
       done := done)
  }

  lemma {:induction false} FreshRowsPrefix(order: seq<nat>, more: seq<nat>, n: nat)
    ensures FreshRows(order, n) <= FreshRows(order + more, n)
  {
    if more == [] {
      assert order + more == order;
    } else {
      var k := |more| - 1;
      FreshRowsPrefix(order, more[..k], n);
      assert order + more == order + more[..k] + [more[k]];
      FreshRowsSnoc(order + more[..k], more[k], n);
    }
  }

  lemma {:induction false} InFreshRows(order: seq<nat>, n: nat, i: nat)
    ensures i in FreshRows(order, n) <==> i in order && i >= n
  {
    if order != [] { InFreshRows(order[..|order| - 1], n, i); }
  }

  // What some of the rows leave of a pass: the calls of a prefix of those it
  // performed, with no gap, and some of the corrected entries.
  ghost predicate PartOf(g: Context, f: Context) {
    && Good(g) && Ordered(g)
    && g.committed == f.committed && g.order <= f.order && g.done <= f.done
    && (forall i :: i in g.pending ==> i in f.pending && g.pending[i] == f.pending[i])
  }

  lemma WrittenRows(c: Context, rows: nat)
    requires Ordered(c)
    ensures var d := Written(c, rows);
      d.done <= c.done && d.order <= c.order && FreshRows(d.order, |c.committed|) == Upwards(|c.committed|, |d.done|)
  {
    var n := |c.committed|;
    var d := Written(c, rows);
    assert c.order == d.order + c.order[|d.order|..];
    FreshRowsPrefix(d.order, c.order[|d.order|..], n);
  }

  lemma WrittenFresh(c: Context, rows: nat, i: nat)
    requires Ordered(c) && i >= |c.committed|
    ensures i in Written(c, rows).order <==> i < |c.committed| + |Written(c, rows).done|
  {
    var n, d := |c.committed|, Written(c, rows);
    WrittenRows(c, rows);
    InFreshRows(d.order, n, i);
    if i < n + |d.done| { assert Upwards(n, |d.done|)[i - n] == i; }
  }

  // What is pending after the written rows: exactly their entries.
  ghost predicate HoldsRows(d: Context, c: Context) {
    && d.committed == c.committed && d.order <= c.order && d.done <= c.done
    && (forall i :: i in d.pending <==> i in d.order)
    && (forall i :: i in d.pending ==> i in c.pending && d.pending[i] == c.pending[i])
    && (forall i :: i >= |c.committed| ==> (i in d.order <==> i < |c.committed| + |d.done|))
    && |d.done| == (if d.callIndex < |d.committed| then 0 else d.callIndex - |d.committed|)
  }

  lemma WrittenHolds(c: Context, rows: nat)
    requires Good(c) && Ordered(c)
    ensures HoldsRows(Written(c, rows), c)
  {
    WrittenRows(c, rows);
    forall i | i >= |c.committed|
      ensures i in Written(c, rows).order <==> i < |c.committed| + |Written(c, rows).done|
    {
      WrittenFresh(c, rows, i);
    }
    forall i | i in Written(c, rows).order ensures i in c.pending {
      assert i in c.order;
    }
  }

  lemma HoldsGood(d: Context, c: Context)
    requires Good(c) && HoldsRows(d, c)
    ensures Good(d)
  {
    forall i | |d.committed| <= i < |d.committed| + |d.done|
      ensures i in d.pending && d.pending[i].call == d.done[i - |d.committed|]
    {
      assert i in d.order && d.done[i - |d.committed|] == c.done[i - |d.committed|];
    }
  }

  lemma WrittenGood(c: Context, rows: nat)
    requires Good(c) && Ordered(c)
    ensures PartOf(Written(c, rows), c)
  {
    WrittenRows(c, rows);
    WrittenHolds(c, rows);
    HoldsGood(Written(c, rows), c);
  }
}
