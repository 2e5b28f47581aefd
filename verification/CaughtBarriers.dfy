/**
 * Closures that catch the exception of an expired barrier and go on.  The log
 * does not say that a barrier expired, so replaying such a closure is resuming
 * it only as long as no later pass finds that barrier met.
 */
module CaughtBarriers {
  import opened Common
  import opened BarrierReplay
  import opened ReplayResumption
  import opened BarrierRecords

  // ----------------------------------------------- closures without a catch

  ghost predicate Uncaught(s: Script)
    decreases s
  {
    match s
    case Done => true
    case Raise => true
    case Claim(_, _, rest) => Uncaught(rest)
    case SendSignal(_, _, rest) => Uncaught(rest)
    case RunExec(_, _, _) => forall x: Extra :: Following(s, x).Some? ==> Uncaught(Following(s, x).value)
    case Invoke(_, _, _) => forall x: Extra :: Following(s, x).Some? ==> Uncaught(Following(s, x).value)
    case Await(_, _, _, _, _, rest) => !Catches(s) && Uncaught(rest)
  }

  lemma AnsweredUncaught(s: Script, c: Context, answer: Option<Extra>)
    requires Uncaught(s) && Asks(s)
    ensures Answered(s, c, answer).Go? ==> Uncaught(Answered(s, c, answer).rest)
  {
  }

  lemma StepUncaught(s: Script, c: Context, w: World, gone: Gone)
    requires Uncaught(s) && Step(s, c, w).Go?
    ensures Uncaught(Step(s, c, w).rest) && ForgoHere(s, c, w, gone) == gone
  {
    if Asks(s) { AnsweredUncaught(s, c, Answer(s, w, c.callIndex)); }
  }

  lemma {:induction false} PassUncaught(s: Script, c: Context, w: World, gone: Gone)
    requires Uncaught(s)
    ensures Uncaught(RunPass(s, c, w).rest) && Forgoing(s, c, w, gone) == gone
    decreases s
  {
    var n := Step(s, c, w);
    if n.Go? {
      StepUncaught(s, c, w, gone);
      PassUncaught(n.rest, n.ctx, w, gone);
    }
  }

  lemma {:induction false} ForwardUncaught(s: Script, log: seq<Entry>, k: nat, seqs: map<nat, nat>, gone: Gone)
    requires Uncaught(s)
    ensures Uncaught(FastForward(s, log, k, seqs, gone).rest)
    decreases s
  {
    var next := Skip(s, log, k, seqs, gone);
    if next.Some? { ForwardUncaught(next.value.rest, log, next.value.k, next.value.seqs, gone); }
  }

  lemma UncaughtNext(m: Coroutine, t: Turn)
    requires Uncaught(m.rest) && m.gone == map[]
    ensures Uncaught(ResumeNext(m, t).rest) && ResumeNext(m, t).gone == map[]
  {
    PassUncaught(m.rest, Suspension(m), t.world, m.gone);
    if m.op.ended.None? && t.Torn? {
      ResumeGood(m, t.world);
      ForwardUncaught(m.rest, ResumeNext(m, t).op.log, |m.op.log|, m.seqs, map[]);
    }
  }

  lemma {:induction false} UncaughtResumes(s: Script, turns: seq<Turn>)
    requires Uncaught(s)
    ensures Uncaught(Resume(s, turns).rest) && Resume(s, turns).gone == map[]
  {
    if turns != [] {
      var n := |turns| - 1;
      UncaughtResumes(s, turns[..n]);
      UncaughtNext(Resume(s, turns[..n]), turns[n]);
    }
  }

  // A closure that catches nothing gives up on nothing, so every run of it is
  // steady.
  lemma {:induction false} UncaughtSteady(s: Script, turns: seq<Turn>)
    requires Uncaught(s)
    ensures Steady(s, turns)
  {
    if turns != [] {
      var n := |turns| - 1;
      UncaughtSteady(s, turns[..n]);
      UncaughtResumes(s, turns[..n]);
    }
  }

  // --------------------------------------------------- a barrier met after all

  // The first barrier given up on, on the way the log leads.
  function FirstGone(s: Script, log: seq<Entry>, k: nat, seqs: map<nat, nat>, gone: Gone): Option<Point>
    decreases s
  {
    if s.Await? && !HasPassed(log, s.anchor, Count(seqs, s.anchor), s.required) && GivenUp(s, log, seqs, gone)
    then Some(Point(s, k, seqs))
    else
      match Skip(s, log, k, seqs, gone)
      case None => None
      case Some(p) => FirstGone(p.rest, log, p.k, p.seqs, gone)
  }

  // The log has another call here than this one.
  predicate Contradicts(s: Script, log: seq<Entry>, k: nat) {
    k < |log| &&
    var call := log[k].call;
    match s
    case Claim(kind, _, _) => call.kind != kind
    case SendSignal(_, name, _) => call.kind != Signal || call.extra != Name(name)
    case RunExec(_, _, _) => call.kind != Exec || Following(s, call.extra).None?
    case Invoke(_, _, _) => call.kind != SubAction || Following(s, call.extra).None?
    case _ => false
  }

  lemma ContradictedHere(s: Script, c: Context, w: World)
    requires Contradicts(s, c.committed, c.callIndex) && !w.cancelled
    ensures RunPass(s, c, w).outcome == Diverged
  {
    assert Step(s, c, w) == Halt(Diverged, c);
  }

  // Whatever the closure: if a pass finds the first of them met, and what the
  // closure does then is not the call it made when it had given up, the log
  // contradicts it.
  lemma {:induction false} MetDiverges(s: Script, log: seq<Entry>, k: nat, seqs: map<nat, nat>, gone: Gone, w: World)
    requires !w.cancelled && FirstGone(s, log, k, seqs, gone).Some?
    requires var p := FirstGone(s, log, k, seqs, gone).value;
      p.rest.Await? && w.at(p.rest.anchor, Count(p.seqs, p.rest.anchor)).reached && Contradicts(p.rest.rest, log, p.k)
    ensures RunPass(s, At(log, k, seqs), w).outcome == Diverged
    decreases s
  {
    var c := At(log, k, seqs);
    if FirstGone(s, log, k, seqs, gone) == Some(Point(s, k, seqs)) {
      MetStep(s, c, w.at(s.anchor, Count(seqs, s.anchor)));
      ContradictedHere(s.rest, Step(s, c, w).ctx, w);
    } else {
      var p := Skip(s, log, k, seqs, gone).value;
      assert Step(s, c, w) == Go(p.rest, At(log, p.k, p.seqs));
      MetDiverges(p.rest, log, p.k, p.seqs, gone, w);
    }
  }

  // So after every steady run that has given up on a barrier, while the closure
  // kept where it was would have gone on.
  lemma MetLaterDiverges(s: Script, turns: seq<Turn>, w: World)
    requires Anchored(s, 0) && Steady(s, turns) && !w.cancelled
    requires forall t :: t in turns ==> t.script == s
    requires var m := Resume(s, turns);
      m.op.ended.None? && FirstGone(s, m.op.log, 0, map[], m.gone).Some?
    requires var m := Resume(s, turns); var p := FirstGone(s, m.op.log, 0, map[], m.gone).value;
      && p.rest.Await? && w.at(p.rest.anchor, Count(p.seqs, p.rest.anchor)).reached
      && Contradicts(p.rest.rest, m.op.log, p.k)
    ensures ReplayNext(Replay(turns), Ran(s, w)).ended == Some(Diverged)
    ensures ResumeNext(Resume(s, turns), Ran(s, w)).op.ended != Some(Diverged)
  {
    ReplayIsResumption(s, turns);
    var m := Resume(s, turns);
    MetDiverges(s, m.op.log, 0, map[], m.gone, w);
    ResumedDoesNotDiverge(m, w);
  }

  lemma ResumedDoesNotDiverge(m: Coroutine, w: World)
    ensures ResumePass(m, w).outcome != Diverged
  {
    StartSound(m.op.log, m.seqs);
    FreshNeverDiverges(m.rest, Suspension(m), w);
  }

  // Start a group, wait ten seconds for it, and query it.  If the wait expires,
  // signal the group and wait for another state instead.
  const GivingUp := SendSignal([], "TERM", Await(0, 2, None, None, Raise, Done))
  const Patient := Claim(Start, [], Await(0, 1, Some(10), None, GivingUp, Claim(Query, [], Done)))

  const Term := Call(Signal, [], Name("TERM"))
  const Waited := Record(1, Some(10), false, 0)

  function Seen(now: nat, reached: bool): World {
    World(false, (k: nat) => None, (k: nat) => None, (a: nat, q: nat) => Observation(now, reached))
  }

  lemma WaitingSteps(c2: Context)
    requires c2 == RecordAtAnchor(Drawn(Performed(Opened([]), Begin), 0), 0, 0, Waited)
    ensures RunPass(Patient, Opened([]), Seen(0, false)) == Result(Suspended, c2, Patient.rest, map[])
  {
    var w, c1 := Seen(0, false), Performed(Opened([]), Begin);
    assert Step(Patient, Opened([]), w) == Go(Patient.rest, c1);
    assert Step(Patient.rest, c1, w) == Halt(Suspended, c2);
  }

  lemma WaitingRow(c2: Context)
    requires c2 == RecordAtAnchor(Drawn(Performed(Opened([]), Begin), 0), 0, 0, Waited)
    ensures Good(c2) && c2.done == [Begin] && Flushed(c2) == Group(map[0 := Waited])
  {
    var c1 := Performed(Opened([]), Begin);
    PerformedGood(Opened([]), Begin);
    DrawnGood(c1, 0, Waited);
    assert c1.done == [Begin] && c1.pending[0] == Entry(Begin, map[]);
    OneRow(c2, Entry(Begin, map[0 := Waited]));
  }

  lemma WaitingPass()
    ensures var r := RunPass(Patient, Opened([]), Seen(0, false));
      r.outcome == Suspended && r.ctx.done == [Begin] && Good(r.ctx) && Flushed(r.ctx) == Group(map[0 := Waited])
  {
    var c2 := RecordAtAnchor(Drawn(Performed(Opened([]), Begin), 0), 0, 0, Waited);
    WaitingSteps(c2);
    WaitingRow(c2);
  }

  lemma ExpiringSteps(c0: Context, c2: Context)
    requires c0 == Opened(Group(map[0 := Waited])) && c2 == Performed(Drawn(Advanced(c0), 0), Term)
    ensures RunPass(Patient, c0, Seen(20, false)) == RunPass(GivingUp.rest, c2, Seen(20, false))
  {
    var w, c1 := Seen(20, false), Advanced(c0);
    assert Step(Patient, c0, w) == Go(Patient.rest, c1);
    assert Step(Patient.rest, c1, w) == Go(GivingUp, Drawn(c1, 0));
    assert Step(GivingUp, Drawn(c1, 0), w) == Go(GivingUp.rest, c2);
  }

  lemma ExpiringPass()
    ensures var r := RunPass(Patient, Opened(Group(map[0 := Waited])), Seen(20, false));
      && r.outcome == Suspended && r.ctx.done == [Term] && Good(r.ctx)
      && Calls(Flushed(r.ctx)) == [Begin, Term] && |Flushed(r.ctx)| == 2
      && 0 in Flushed(r.ctx)[0].barriers && Flushed(r.ctx)[0].barriers[0] == Waited
  {
    var w, c0 := Seen(20, false), Opened(Group(map[0 := Waited]));
    var c2 := Performed(Drawn(Advanced(c0), 0), Term);
    ExpiringSteps(c0, c2);
    var c3 := RecordAtAnchor(Drawn(c2, 0), 0, 1, Record(2, None, false, 20));
    assert Step(GivingUp.rest, c2, w) == Halt(Suspended, c3);
    PassGood(Patient, c0, w);
    FlushedCalls(c3);
    assert Calls(c0.committed) == [Begin];
  }

  lemma MeetingPass(log: seq<Entry>)
    requires |log| == 2 && Calls(log) == [Begin, Term]
    requires 0 in log[0].barriers ==> log[0].barriers[0] == Waited
    ensures RunPass(Patient, Opened(log), Seen(30, true)).outcome == Diverged
  {
    var w, c0 := Seen(30, true), Opened(log);
    assert log[0].call == Calls(log)[0] && log[1].call == Calls(log)[1];
    var c1 := Advanced(c0);
    assert Step(Patient, c0, w) == Go(Patient.rest, c1);
    MetStep(Patient.rest, c1, w.at(0, 0));
    ContradictedHere(Patient.rest.rest, Step(Patient.rest, c1, w).ctx, w);
  }

  lemma WaitingTurn()
    ensures ReplayNext(NotBegun, Ran(Patient, Seen(0, false))) ==
      Operation(Group(map[0 := Waited]), None, [Begin], [])
  {
    WaitingPass();
  }

  lemma ExpiringTurn(m: Operation)
    requires m.log == Group(map[0 := Waited]) && m.ended.None?
    ensures var n := ReplayNext(m, Ran(Patient, Seen(20, false)));
      && n.ended.None? && n.kept == m.kept + [Term] && |n.log| == 2 && Calls(n.log) == [Begin, Term]
      && 0 in n.log[0].barriers && n.log[0].barriers[0] == Waited
  {
    ExpiringPass();
  }

  lemma MeetingTurn(m: Operation)
    requires |m.log| == 2 && Calls(m.log) == [Begin, Term] && m.ended.None?
    requires 0 in m.log[0].barriers && m.log[0].barriers[0] == Waited
    ensures var n := ReplayNext(m, Ran(Patient, Seen(30, true))); n.ended == Some(Diverged) && n.kept == m.kept
  {
    var c, w := Opened(m.log), Seen(30, true);
    MeetingPass(m.log);
    PassGood(Patient, c, w);
    DivergedDoesNothing(Patient, c, w);
  }

  // A run of an unchanged closure that ends in a divergence: the wait expires,
  // the closure catches that and goes on, and the next pass finds the group in
  // the state it had waited for.
  lemma CaughtBarrierDiverges() returns (turns: seq<Turn>)
    ensures turns == [Ran(Patient, Seen(0, false)), Ran(Patient, Seen(20, false)), Ran(Patient, Seen(30, true))]
    ensures Anchored(Patient, 0) && Replay(turns).ended == Some(Diverged)
    ensures Replay(turns).kept == [Begin, Term]
  {
    var a, b, c := Ran(Patient, Seen(0, false)), Ran(Patient, Seen(20, false)), Ran(Patient, Seen(30, true));
    turns := [a, b, c];
    ThreeTurns(a, b, c);
    WaitingTurn();
    ExpiringTurn(ReplayNext(NotBegun, a));
    MeetingTurn(ReplayNext(ReplayNext(NotBegun, a), b));
    PatientAnchored();
  }

  lemma PatientAnchored()
    ensures Anchored(Patient, 0)
  {
    assert Anchored(GivingUp, 1);
  }
}
