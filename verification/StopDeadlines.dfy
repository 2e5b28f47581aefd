/**
 * Since when a stop has waited.  `rt.stop` takes the first start recorded for
 * the very resources it stops, whichever call recorded it.  While every commit
 * is written whole and nothing is caught, a stop that waits has no other than
 * its own, and one that is only being made can be lent that of the barrier the
 * pass started at.
 */
module StopDeadlines {
  import opened Common
  import opened BarrierReplay
  import opened ReplayResumption
  import opened BarrierRecords
  import opened CaughtBarriers

  // ------------------------------------------------------ who lends a start

  lemma {:induction false} OnlyLender(entries: seq<Entry>, resources: seq<string>, j: nat)
    requires forall i :: 0 <= i < |entries| && i != j ==> !Lends(entries[i], resources)
    ensures FirstLent(entries, resources) ==
      if j < |entries| && Lends(entries[j], resources) then Some(entries[j].barriers[0].startedAt) else None
  {
    if entries == [] {
    } else if j == 0 {
      if !Lends(entries[0], resources) { OnlyLender(entries[1..], resources, |entries|); }
    } else {
      OnlyLender(entries[1..], resources, j - 1);
    }
  }

  // Whatever the log: the start is that of the first row that lends one.
  lemma {:induction false} FirstLender(entries: seq<Entry>, resources: seq<string>, j: nat)
    requires j < |entries| && Lends(entries[j], resources)
    requires forall i :: 0 <= i < j ==> !Lends(entries[i], resources)
    ensures FirstLent(entries, resources) == Some(entries[j].barriers[0].startedAt)
  {
    if j > 0 { FirstLender(entries[1..], resources, j - 1); }
  }

  // ------------------------------------------- which barriers are on record

  // Every barrier on record but the one now waited on is on record as met.
  ghost predicate Settled(c: Context, s: Script) {
    forall a, q :: Known(c, a) && q in Held(c, a).barriers ==>
      Held(c, a).barriers[q].satisfied || (s.Await? && a == s.anchor && q == Count(c.seqs, a))
  }

  lemma PerformedSettled(c: Context, s: Script, call: Call)
    requires Settled(c, s) && !s.Await?
    ensures Settled(Performed(c, call), Done)
  {
    var d := Performed(c, call);
    forall a, q | Known(d, a) && q in Held(d, a).barriers
      ensures Held(d, a).barriers[q].satisfied
    {
      assert a != c.callIndex && Known(c, a) && Held(d, a) == Held(c, a);
    }
  }

  lemma RecordedSettled(c: Context, s: Script, r: Record)
    requires Settled(c, s) && s.Await? && r.satisfied && Known(c, s.anchor)
    ensures Settled(RecordAtAnchor(Drawn(c, s.anchor), s.anchor, Count(c.seqs, s.anchor), r), Done)
  {
    var d := RecordAtAnchor(Drawn(c, s.anchor), s.anchor, Count(c.seqs, s.anchor), r);
    forall a, q | Known(d, a) && q in Held(d, a).barriers
      ensures Held(d, a).barriers[q].satisfied
    {
      assert Known(c, a);
      if a != s.anchor || q != Count(c.seqs, a) { assert q in Held(c, a).barriers; }
    }
  }

  lemma PassedSettled(c: Context, s: Script)
    requires Settled(c, s) && s.Await? && Copies(c)
    requires HasPassed(c.committed, s.anchor, Count(c.seqs, s.anchor), s.required)
    ensures Settled(Drawn(c, s.anchor), Done)
  {
    var d := Drawn(c, s.anchor);
    forall a, q | Known(d, a) && q in Held(d, a).barriers
      ensures Held(d, a).barriers[q].satisfied
    {
      assert Known(c, a) && Held(d, a) == Held(c, a);
    }
  }

  lemma StepSettled(s: Script, c: Context, w: World)
    requires Sound(c) && c.callIndex >= |c.committed| && Anchored(s, c.callIndex) && Settled(c, s)
    requires !Catches(s) && Step(s, c, w).Go?
    ensures Settled(Step(s, c, w).ctx, Done)
  {
    match s
    case Claim(kind, resources, _) => PerformedSettled(c, s, Call(kind, resources, NoExtra));
    case SendSignal(resources, name, _) => PerformedSettled(c, s, Call(Signal, resources, Name(name)));
    case RunExec(_, _, _) => PerformedSettled(c, s, AskedCall(s, Answer(s, w, c.callIndex).value));
    case Invoke(_, _, _) => PerformedSettled(c, s, AskedCall(s, Answer(s, w, c.callIndex).value));
    case Await(a, required, deadline, _, _, _) =>
      assert Known(c, a);
      if HasPassed(c.committed, a, Count(c.seqs, a), required) {
        PassedSettled(c, s);
      } else {
        RecordedSettled(c, s, Record(required, deadline, true, w.at(a, Count(c.seqs, a)).now));
      }
  }

  lemma WaitSettled(c: Context, s: Script, r: Record)
    requires Good(c) && Settled(c, s) && s.Await?
    ensures var d := RecordAtAnchor(Drawn(c, s.anchor), s.anchor, Count(c.seqs, s.anchor), r);
      Good(d) && Settled(At(Flushed(d), |Flushed(d)|, c.seqs), s)
  {
    DrawnGood(c, s.anchor, r);
    var d := RecordAtAnchor(Drawn(c, s.anchor), s.anchor, Count(c.seqs, s.anchor), r);
    var e := At(Flushed(d), |Flushed(d)|, c.seqs);
    forall a, q | Known(e, a) && q in Held(e, a).barriers
      ensures Held(e, a).barriers[q].satisfied || (a == s.anchor && q == Count(c.seqs, a))
    {
      assert Known(d, a) && Held(e, a) == Held(d, a) && Known(c, a);
      if a != s.anchor || q != Count(c.seqs, a) { assert q in Held(c, a).barriers; }
    }
  }

  // -------------------------------------------------- the shape of `rt.stop`

  predicate Stopping(s: Script) {
    s.Await? && s.stopping.Some?
  }

  // A barrier that stops comes from `rt.stop`: right after its own call.
  ghost predicate Shaped(s: Script, k: nat)
    decreases s
  {
    match s
    case Done => true
    case Raise => true
    case Claim(kind, resources, rest) =>
      if Stopping(rest)
      then s == StopCall(k, resources, rest.deadline, rest.rest) && Shaped(rest.rest, k + 1)
      else Shaped(rest, k + 1)
    case SendSignal(_, _, rest) => Shaped(rest, k + 1)
    case RunExec(_, _, _) => forall x: Extra :: Following(s, x).Some? ==> Shaped(Following(s, x).value, k + 1)
    case Invoke(_, _, _) => forall x: Extra :: Following(s, x).Some? ==> Shaped(Following(s, x).value, k + 1)
    case Await(_, _, _, stopping, late, rest) => stopping.None? && Shaped(late, k) && Shaped(rest, k)
  }

  lemma ShapedBegins(s: Script, k: nat)
    requires Shaped(s, k)
    ensures !Stopping(s)
  {
  }

  // A stop that is waited on: its call is in place and has had no barrier.
  ghost predicate OwnCall(s: Script, c: Context)
    requires Stopping(s)
  {
    && Known(c, s.anchor) && Held(c, s.anchor).call.resources == s.stopping.value
    && Count(c.seqs, s.anchor) == 0 && s.required == TERMINATED
  }

  // A pass may stand here: what follows is shaped, or is the second half of a
  // stop.
  ghost predicate Standing(s: Script, c: Context) {
    && (forall a :: a in c.seqs ==> a < c.callIndex)
    && if Stopping(s) then OwnCall(s, c) && Shaped(s.rest, c.callIndex) else Shaped(s, c.callIndex)
  }

  lemma CallStanding(s: Script, c: Context, w: World)
    requires Good(c) && c.callIndex >= |c.committed| && Standing(s, c) && Step(s, c, w).Go?
    requires !s.Await?
    ensures Standing(Step(s, c, w).rest, Step(s, c, w).ctx)
  {
    if s.Claim? && Stopping(s.rest) {
      assert c.callIndex !in c.seqs;
    } else {
      ShapedBegins(Step(s, c, w).rest, c.callIndex + 1);
    }
  }

  lemma AwaitStanding(s: Script, c: Context, seen: Observation)
    requires Anchored(s, c.callIndex) && Standing(s, c) && s.Await? && !Catches(s) && Awaited(s, c, seen).Go?
    ensures Standing(s.rest, Awaited(s, c, seen).ctx)
  {
    AwaitedLeaves(s, c, seen);
    ShapedBegins(s.rest, c.callIndex);
  }

  // ------------------------------------------------------------- whole runs

  // What every context of a pass is while no commit is torn and nothing is
  // caught.
  ghost predicate Untorn(s: Script, c: Context) {
    && Uncaught(s) && Sound(c) && c.callIndex >= |c.committed| && Anchored(s, c.callIndex)
    && Settled(c, s) && Standing(s, c)
  }

  lemma StepUntorn(s: Script, c: Context, w: World)
    requires Untorn(s, c) && Step(s, c, w).Go?
    ensures Untorn(Step(s, c, w).rest, Step(s, c, w).ctx) && Step(s, c, w).ctx.committed == c.committed
  {
    StepUncaught(s, c, w, map[]);
    StepSound(s, c, w);
    StepSettled(s, c, w);
    StepStanding(s, c, w);
    StepAnchored(s, c, w);
  }

  lemma StepStanding(s: Script, c: Context, w: World)
    requires Good(c) && c.callIndex >= |c.committed| && Anchored(s, c.callIndex) && Standing(s, c)
    requires !Catches(s) && Step(s, c, w).Go?
    ensures Standing(Step(s, c, w).rest, Step(s, c, w).ctx)
  {
    if s.Await? {
      AwaitStanding(s, c, w.at(s.anchor, Count(c.seqs, s.anchor)));
    } else {
      CallStanding(s, c, w);
    }
  }

  lemma StepAnchored(s: Script, c: Context, w: World)
    requires Anchored(s, c.callIndex) && c.callIndex >= |c.committed| && Step(s, c, w).Go?
    ensures Anchored(Step(s, c, w).rest, Step(s, c, w).ctx.callIndex)
    ensures Step(s, c, w).ctx.callIndex >= |Step(s, c, w).ctx.committed|
  {
    if s.Await? { AwaitedLeaves(s, c, w.at(s.anchor, Count(c.seqs, s.anchor))); }
  }

  lemma SuspendUntorn(s: Script, c: Context, w: World)
    requires Untorn(s, c) && Step(s, c, w).Halt? && Step(s, c, w).outcome == Suspended
    ensures s.Await? && Good(Step(s, c, w).ctx)
    ensures var log := Flushed(Step(s, c, w).ctx); |log| == c.callIndex && Untorn(s, At(log, |log|, c.seqs))
  {
    StopsAtBarrier(s, c, w, map[]);
    var d := Step(s, c, w).ctx;
    var r := Record(s.required, s.deadline, false, w.at(s.anchor, Count(c.seqs, s.anchor)).now);
    assert d == RecordAtAnchor(Drawn(c, s.anchor), s.anchor, Count(c.seqs, s.anchor), r);
    WaitSettled(c, s, r);
    StartSound(Flushed(d), c.seqs);
    if Stopping(s) { assert Flushed(d)[s.anchor] == Held(d, s.anchor); }
  }

  lemma {:induction false} PassUntorn(s: Script, c: Context, w: World)
    requires Untorn(s, c) && RunPass(s, c, w).outcome == Suspended
    ensures var r := RunPass(s, c, w);
      Good(r.ctx) && Untorn(r.rest, At(Flushed(r.ctx), |Flushed(r.ctx)|, r.seqs))
    decreases s
  {
    var n := Step(s, c, w);
    if n.Go? {
      StepUntorn(s, c, w);
      PassUntorn(n.rest, n.ctx, w);
    } else {
      SuspendUntorn(s, c, w);
    }
  }

  // Over every run in which no commit is torn, of a closure that catches
  // nothing: the barriers on record are met but for the one waited on, and a
  // stop waited on has its own call.
  lemma {:induction false} AlwaysUntorn(s: Script, turns: seq<Turn>)
    requires Anchored(s, 0) && Shaped(s, 0) && Uncaught(s)
    requires forall t :: t in turns ==> t.script == s && !t.Torn?
    ensures var m := Resume(s, turns);
      m.op.ended.None? ==> Untorn(m.rest, Suspension(m))
  {
    if turns == [] {
      ShapedBegins(s, 0);
      StartSound([], map[]);
    } else {
      var n := |turns| - 1;
      var m, t := Resume(s, turns[..n]), turns[n];
      AlwaysUntorn(s, turns[..n]);
      assert t in turns;
      if m.op.ended.None? && t.Ran? && ResumePass(m, t.world).outcome == Suspended {
        PassUntorn(m.rest, Suspension(m), t.world);
      }
    }
  }

  // ------------------------------------------------ a stop that is waited on

  // It is the only one that lends a start for its resources, once it has one.
  lemma LentByOwn(s: Script, log: seq<Entry>, seqs: map<nat, nat>)
    requires Untorn(s, At(log, |log|, seqs)) && Stopping(s)
    requires 0 in log[s.anchor].barriers && !log[s.anchor].barriers[0].satisfied
    requires log[s.anchor].barriers[0].required == TERMINATED
    ensures FirstLent(log, s.stopping.value) == Some(log[s.anchor].barriers[0].startedAt)
  {
    var c := At(log, |log|, seqs);
    forall i | 0 <= i < |log| && i != s.anchor ensures !Lends(log[i], s.stopping.value) {
      assert Known(c, i) && Held(c, i) == log[i];
    }
    assert Held(c, s.anchor) == log[s.anchor];
    OnlyLender(log, s.stopping.value, s.anchor);
  }

  // -------------------------------------------------- a stop just being made

  // Where a pass stands after some steps.
  function Walk(s: Script, c: Context, w: World, steps: nat): Next
    decreases s
  {
    if steps == 0 then Go(s, c) else
    match Step(s, c, w)
    case Halt(outcome, d) => Halt(outcome, d)
    case Go(rest, d) => Walk(rest, d, w, steps - 1)
  }

  // What a pass has pending is met, or as it was in the log.
  ghost predicate MetOrLogged(c: Context) {
    forall a, q :: a in c.pending && q in c.pending[a].barriers ==>
      || c.pending[a].barriers[q].satisfied
      || (a < |c.committed| && q in c.committed[a].barriers && c.pending[a].barriers[q] == c.committed[a].barriers[q])
  }

  lemma RecordedMetOrLogged(c: Context, a: nat, q: nat, r: Record)
    requires MetOrLogged(c) && r.satisfied
    ensures MetOrLogged(RecordAtAnchor(c, a, q, r))
  {
  }

  lemma AwaitMetOrLogged(s: Script, c: Context, seen: Observation)
    requires MetOrLogged(c) && s.Await? && Awaited(s, c, seen).Go?
    ensures MetOrLogged(Awaited(s, c, seen).ctx)
  {
    RecordedMetOrLogged(Drawn(c, s.anchor), s.anchor, Count(c.seqs, s.anchor),
                        Record(s.required, s.deadline, true, seen.now));
  }

  lemma CallMetOrLogged(c: Context, call: Call)
    requires MetOrLogged(c)
    ensures MetOrLogged(Performed(c, call))
  {
  }

  lemma StepMetOrLogged(s: Script, c: Context, w: World)
    requires MetOrLogged(c) && Step(s, c, w).Go?
    ensures MetOrLogged(Step(s, c, w).ctx)
  {
    match s
    case Claim(kind, resources, _) => CallMetOrLogged(c, Call(kind, resources, NoExtra));
    case SendSignal(resources, name, _) => CallMetOrLogged(c, Call(Signal, resources, Name(name)));
    case RunExec(_, _, _) => AnsweredMetOrLogged(s, c, Answer(s, w, c.callIndex));
    case Invoke(_, _, _) => AnsweredMetOrLogged(s, c, Answer(s, w, c.callIndex));
    case Await(a, _, _, _, _, _) => AwaitMetOrLogged(s, c, w.at(a, Count(c.seqs, a)));
  }

  lemma AnsweredMetOrLogged(s: Script, c: Context, answer: Option<Extra>)
    requires MetOrLogged(c) && Asks(s)
    ensures MetOrLogged(Answered(s, c, answer).ctx)
  {
    if answer.Some? { CallMetOrLogged(c, AskedCall(s, answer.value)); }
  }

  ghost predicate OnThere(c: Context, d: Context) {
    Good(d) && MetOrLogged(d) && d.committed == c.committed && d.callIndex >= c.callIndex
  }

  lemma OnFurther(c: Context, d: Context, e: Context)
    requires OnThere(c, d) && OnThere(d, e)
    ensures OnThere(c, e)
  {
  }

  lemma StepKeeps(s: Script, c: Context, w: World)
    requires Good(c) && MetOrLogged(c) && Step(s, c, w).Go?
    ensures OnThere(c, Step(s, c, w).ctx)
  {
    StepGood(s, c, w);
    StepMetOrLogged(s, c, w);
  }

  lemma {:induction false} WalkMetOrLogged(s: Script, c: Context, w: World, steps: nat)
    requires Good(c) && MetOrLogged(c) && Walk(s, c, w, steps).Go?
    ensures OnThere(c, Walk(s, c, w, steps).ctx)
    decreases s
  {
    if steps > 0 {
      var n := Step(s, c, w);
      StepKeeps(s, c, w);
      WalkMetOrLogged(n.rest, n.ctx, w, steps - 1);
      OnFurther(c, n.ctx, Walk(n.rest, n.ctx, w, steps - 1).ctx);
    }
  }

  // Such entries lend no start the log does not.
  lemma {:induction false} PendingLends(c: Context, order: seq<nat>, resources: seq<string>, e: Entry)
    requires Good(c) && MetOrLogged(c) && e in PendingEntries(c, order) && Lends(e, resources)
    ensures exists i :: 0 <= i < |c.committed| && Lends(c.committed[i], resources)
  {
    var i := order[0];
    if i in c.pending && c.pending[i] == e {
      assert Lends(c.committed[i], resources);
    } else {
      PendingLends(c, order[1..], resources, e);
    }
  }

  lemma {:induction false} FirstLentConcat(entries: seq<Entry>, more: seq<Entry>, resources: seq<string>)
    ensures FirstLent(entries + more, resources) ==
      if FirstLent(entries, resources).Some? then FirstLent(entries, resources) else FirstLent(more, resources)
  {
    if entries == [] {
      assert entries + more == more;
    } else {
      assert (entries + more)[1..] == entries[1..] + more;
      FirstLentConcat(entries[1..], more, resources);
    }
  }

  lemma {:induction false} SomeLends(entries: seq<Entry>, resources: seq<string>)
    ensures FirstLent(entries, resources).Some? <==>
      exists i :: 0 <= i < |entries| && Lends(entries[i], resources)
  {
    if entries != [] && !Lends(entries[0], resources) {
      SomeLends(entries[1..], resources);
      forall i | 0 <= i < |entries| && Lends(entries[i], resources)
        ensures FirstLent(entries, resources).Some?
      {
        assert entries[i] == entries[1..][i - 1];
      }
    }
  }

  lemma LentByLog(c: Context, resources: seq<string>)
    requires Good(c) && MetOrLogged(c)
    ensures Lent(c, resources) == FirstLent(c.committed, resources)
  {
    var more := PendingEntries(c, c.order);
    FirstLentConcat(c.committed, more, resources);
    SomeLends(more, resources);
    SomeLends(c.committed, resources);
    if i :| 0 <= i < |more| && Lends(more[i], resources) { PendingLends(c, c.order, resources, more[i]); }
  }

  lemma StopFails(s: Script, c: Context, w: World)
    requires s.Claim? && s.kind == Kind.Stop && Stopping(s.rest) && c.callIndex >= |c.committed|
    ensures Step(s, c, w) == Halt(Failed, c) <==>
      && !w.cancelled && !w.at(c.callIndex, 0).reached
      && Overdue(s.rest.deadline, Lent(c, s.resources), w.at(c.callIndex, 0).now)
  {
  }

  // A stop the pass comes to, any number of steps after it started, fails
  // without having waited exactly when its resources are still there and the
  // first wait the log has for their termination is as old as the stop may
  // wait; over every run of whatever closure, torn commits included.
  lemma FailsAtOnceExactly(s: Script, turns: seq<Turn>, w: World, steps: nat)
    requires Resume(s, turns).op.ended.None?
    requires var m := Resume(s, turns); var n := Walk(m.rest, Suspension(m), w, steps);
      n.Go? && n.rest.Claim? && n.rest.kind == Kind.Stop && Stopping(n.rest.rest)
    ensures var m := Resume(s, turns); var n := Walk(m.rest, Suspension(m), w, steps);
      var k := n.ctx.callIndex;
      Step(n.rest, n.ctx, w) == Halt(Failed, n.ctx) <==>
        && !w.cancelled && !w.at(k, 0).reached
        && Overdue(n.rest.rest.deadline, FirstLent(m.op.log, n.rest.resources), w.at(k, 0).now)
  {
    var m := Resume(s, turns);
    StartSound(m.op.log, m.seqs);
    WalkMetOrLogged(m.rest, Suspension(m), w, steps);
    var n := Walk(m.rest, Suspension(m), w, steps);
    LentByLog(n.ctx, n.rest.resources);
    StopFails(n.rest, n.ctx, w);
  }

  // While no commit is torn and nothing is caught, only the barrier the pass
  // started at can lend a start.
  lemma LentByStart(s: Script, log: seq<Entry>, seqs: map<nat, nat>, resources: seq<string>)
    requires Settled(At(log, |log|, seqs), s)
    ensures FirstLent(log, resources) ==
      if s.Await? && s.anchor < |log| && Lends(log[s.anchor], resources)
      then Some(log[s.anchor].barriers[0].startedAt) else None
  {
    var c, j := At(log, |log|, seqs), if s.Await? then s.anchor else |log|;
    forall i | 0 <= i < |log| && i != j ensures !Lends(log[i], resources) {
      assert Known(c, i) && Held(c, i) == log[i];
    }
    OnlyLender(log, resources, j);
  }

  // Then the stop fails exactly when that barrier, itself the first on a call
  // with these very resources, has waited for their termination that long.
  lemma FailsAtOnceUntorn(s: Script, turns: seq<Turn>, w: World, steps: nat)
    requires Anchored(s, 0) && Shaped(s, 0) && Uncaught(s)
    requires forall t :: t in turns ==> t.script == s && !t.Torn?
    requires Resume(s, turns).op.ended.None?
    requires var m := Resume(s, turns); var n := Walk(m.rest, Suspension(m), w, steps);
      n.Go? && n.rest.Claim? && n.rest.kind == Kind.Stop && Stopping(n.rest.rest)
    ensures var m := Resume(s, turns); var n := Walk(m.rest, Suspension(m), w, steps);
      var log, k := m.op.log, n.ctx.callIndex;
      Step(n.rest, n.ctx, w) == Halt(Failed, n.ctx) <==>
        && !w.cancelled && !w.at(k, 0).reached
        && m.rest.Await? && m.rest.anchor < |log| && Lends(log[m.rest.anchor], n.rest.resources)
        && Overdue(n.rest.rest.deadline, Some(log[m.rest.anchor].barriers[0].startedAt), w.at(k, 0).now)
  {
    var m := Resume(s, turns);
    AlwaysUntorn(s, turns);
    FailsAtOnceExactly(s, turns, w, steps);
    LentByStart(m.rest, m.op.log, m.seqs, Walk(m.rest, Suspension(m), w, steps).rest.resources);
  }

  // Stop, start again, and stop with a deadline.
  const Bounced := StopCall(0, ["r"], None, Claim(Start, ["r"], StopCall(2, ["r"], Some(10), Done)))

  // Nothing has stopped yet; later, only the first stop is through.
  const Early := World(false, (k: nat) => None, (k: nat) => None, (a: nat, q: nat) => Observation(0, false))
  const Later := World(false, (k: nat) => None, (k: nat) => None, (a: nat, q: nat) => Observation(20, a == 0))

  const Stop0 := Call(Kind.Stop, ["r"], NoExtra)
  const Again := Call(Start, ["r"], NoExtra)

  lemma EarlyPass()
    ensures var r := RunPass(Bounced, Opened([]), Early);
      && r.outcome == Suspended && r.ctx.done == [Stop0]
      && Good(r.ctx) && Flushed(r.ctx) == [Entry(Stop0, map[0 := Record(TERMINATED, None, false, 0)])]
  {
    var c0 := Opened([]);
    var c1 := Performed(c0, Stop0);
    assert Step(Bounced, c0, Early) == Go(Bounced.rest, c1);
    var r := Record(TERMINATED, None, false, 0);
    var c2 := RecordAtAnchor(Drawn(c1, 0), 0, 0, r);
    assert Step(Bounced.rest, c1, Early) == Halt(Suspended, c2);
    PerformedGood(c0, Stop0);
    DrawnGood(c1, 0, r);
    assert c1.done == [Stop0] && c1.pending[0] == Entry(Stop0, map[]);
    OneRow(c2, Entry(Stop0, map[0 := r]));
  }

  lemma LaterPass()
    ensures var r := RunPass(Bounced, Opened([Entry(Stop0, map[0 := Record(TERMINATED, None, false, 0)])]), Later);
      r.outcome == Failed && r.ctx.done == [Again]
  {
    var c0 := Opened([Entry(Stop0, map[0 := Record(TERMINATED, None, false, 0)])]);
    var c1 := Advanced(c0);
    assert Step(Bounced, c0, Later) == Go(Bounced.rest, c1);
    var c2 := RecordAtAnchor(Drawn(c1, 0), 0, 0, Record(TERMINATED, None, true, 20));
    assert Step(Bounced.rest, c1, Later) == Go(Bounced.rest.rest, c2);
    var c3 := Performed(c2, Again);
    assert Step(Bounced.rest.rest, c2, Later) == Go(Bounced.rest.rest.rest, c3);
    var entries := c3.committed + PendingEntries(c3, c3.order);
    assert entries[0] == c0.committed[0];
    FirstLender(entries, ["r"], 0);
    assert Lapsed(Bounced.rest.rest.rest, c3, Later);
    assert Step(Bounced.rest.rest.rest, c3, Later) == Halt(Failed, c3);
  }

  // The second stop may wait ten seconds and fails as it is made: it is lent
  // the start of the first, which has just been met.
  lemma LentStartFails() returns (turns: seq<Turn>)
    ensures turns == [Ran(Bounced, Early), Ran(Bounced, Later)]
    ensures Replay(turns[..1]).ended.None? && Replay(turns).ended == Some(Failed)
    ensures Replay(turns).kept == [Stop0, Again]
  {
    var a, b := Ran(Bounced, Early), Ran(Bounced, Later);
    turns := [a, b];
    ReplaySnoc([], [a], a);
    ReplaySnoc([a], turns, b);
    assert turns[..1] == [a];
    EarlyPass();
    LaterPass();
  }

  // Start a group, signal it, wait for it to terminate and stop what is left.
  const Drained :=
    Claim(Start, ["r"], SendSignal(["r"], "TERM", Await(0, TERMINATED, None, None, Raise,
      StopCall(2, ["r"], Some(10), Done))))

  const Quit := Call(Signal, ["r"], Name("TERM"))
  const Draining := Record(TERMINATED, None, false, 0)

  lemma DrainingSteps(c2: Context)
    requires c2 == Performed(Performed(Opened([]), Again), Quit)
    ensures RunPass(Drained, Opened([]), Early) == RunPass(Drained.rest.rest, c2, Early)
  {
    var c1 := Performed(Opened([]), Again);
    assert Step(Drained, Opened([]), Early) == Go(Drained.rest, c1);
    assert Step(Drained.rest, c1, Early) == Go(Drained.rest.rest, c2);
  }

  lemma DrainingEnd(c2: Context) returns (c3: Context)
    requires c2 == Performed(Performed(Opened([]), Again), Quit)
    ensures RunPass(Drained.rest.rest, c2, Early) == Result(Suspended, c3, Drained.rest.rest, map[])
    ensures c3.committed == [] && c3.order == [0, 1] && c3.done == [Again, Quit]
    ensures 0 in c3.pending && c3.pending[0] == Entry(Again, map[0 := Draining])
  {
    assert c2.pending[0] == Entry(Again, map[]);
    c3 := RecordAtAnchor(Drawn(c2, 0), 0, 0, Draining);
    assert Step(Drained.rest.rest, c2, Early) == Halt(Suspended, c3);
    assert c3.pending[0].barriers == map[0 := Draining];
  }

  // The first row has the wait, and is written without the second.
  lemma FirstOfTwo(c: Context)
    requires Good(c) && Ordered(c) && c.committed == [] && c.order == [0, 1] && c.done == [Again, Quit]
    requires c.pending[0] == Entry(Again, map[0 := Draining])
    ensures Good(Written(c, 1)) && Written(c, 1).done == [Again]
    ensures Flushed(Written(c, 1)) == [Entry(Again, map[0 := Draining])]
  {
    var g := Written(c, 1);
    WrittenGood(c, 1);
    WrittenFresh(c, 1, 0);
    WrittenFresh(c, 1, 1);
    assert g.order == [0];
    OneRow(g, Entry(Again, map[0 := Draining]));
  }

  lemma DrainingPass()
    ensures var r := RunPass(Drained, Opened([]), Early);
      && Good(r.ctx) && Ordered(r.ctx) && r.ctx.done == [Again, Quit]
      && Good(Written(r.ctx, 1)) && Written(r.ctx, 1).done == [Again]
      && Flushed(Written(r.ctx, 1)) == [Entry(Again, map[0 := Draining])]
  {
    PassGood(Drained, Opened([]), Early);
    PassOrdered(Drained, Opened([]), Early);
    var c2 := Performed(Performed(Opened([]), Again), Quit);
    DrainingSteps(c2);
    var c3 := DrainingEnd(c2);
    FirstOfTwo(c3);
  }

  lemma DrainedPass()
    ensures var r := RunPass(Drained, Opened([Entry(Again, map[0 := Draining])]), Later);
      r.outcome == Failed && r.ctx.done == [Quit]
  {
    var c0 := Opened([Entry(Again, map[0 := Draining])]);
    var c1 := Advanced(c0);
    assert Step(Drained, c0, Later) == Go(Drained.rest, c1);
    var c2 := Performed(c1, Quit);
    assert Step(Drained.rest, c1, Later) == Go(Drained.rest.rest, c2);
    var c3 := RecordAtAnchor(Drawn(c2, 0), 0, 0, Record(TERMINATED, None, true, 20));
    assert Step(Drained.rest.rest, c2, Later) == Go(Drained.rest.rest.rest, c3);
    var entries := c3.committed + PendingEntries(c3, c3.order);
    assert entries[0] == c0.committed[0];
    FirstLender(entries, ["r"], 0);
    assert Lapsed(Drained.rest.rest.rest, c3, Later);
    assert Step(Drained.rest.rest.rest, c3, Later) == Halt(Failed, c3);
  }

  // With a torn commit the pass need not start at the barrier that lends: the
  // wait was written without the signal before it, the next pass starts with
  // the signal, gets past the wait, and the stop fails as it is made.
  lemma TornStartFails() returns (turns: seq<Turn>)
    ensures turns == [Torn(Drained, Early, 1), Ran(Drained, Later)]
    ensures Replay(turns[..1]).ended.None? && Replay(turns).ended == Some(Failed)
    ensures Replay(turns).kept == [Again, Quit] && Replay(turns).lost == [Quit]
  {
    var a, b := Torn(Drained, Early, 1), Ran(Drained, Later);
    turns := [a, b];
    ReplaySnoc([], [a], a);
    ReplaySnoc([a], turns, b);
    assert turns[..1] == [a];
    DrainingTurn();
    DrainedPass();
  }

  lemma DrainingTurn()
    ensures ReplayNext(NotBegun, Torn(Drained, Early, 1)) ==
      Operation([Entry(Again, map[0 := Draining])], None, [Again], [Quit])
  {
    DrainingPass();
    assert [Again, Quit][1..] == [Quit];
  }
}
