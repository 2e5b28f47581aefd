/**
 * Barrier deadlines over whole runs: every pass re-evaluates the barrier, and
 * the deadline still counts from the start recorded for it, which is the
 * first pass that waited at it unless a torn commit left an earlier one.
 */
module BarrierDeadlines {
  import opened Common
  import opened BarrierReplay
  import opened ReplayResumption
  import opened BarrierRecords
  import opened CaughtBarriers
  import opened StopDeadlines

  ghost predicate WaitingSince(log: seq<Entry>, s: Script, seqs: map<nat, nat>, start: nat) {
    && s.Await? && s.anchor < |log|
    && var q := Count(seqs, s.anchor);
       && q in log[s.anchor].barriers
       && log[s.anchor].barriers[q] == Record(s.required, s.deadline, false, start)
  }

  // Since when the barrier has waited once a pass suspends at it: a start on
  // record for it stands.
  function WaitStart(log: seq<Entry>, s: Script, seqs: map<nat, nat>, now: nat): nat
    requires s.Await?
  {
    var q := Count(seqs, s.anchor);
    if s.anchor < |log| && q in log[s.anchor].barriers && log[s.anchor].barriers[q].required == s.required
    then log[s.anchor].barriers[q].startedAt else now
  }

  lemma WaitStartsHere(s: Script, c: Context, w: World)
    requires Sound(c) && c.callIndex >= |c.committed| && Anchored(s, c.callIndex)
    requires Step(s, c, w).Halt? && Step(s, c, w).outcome == Suspended
    ensures s.Await? && Good(Step(s, c, w).ctx)
    ensures var now := w.at(s.anchor, Count(c.seqs, s.anchor)).now;
      WaitingSince(Flushed(Step(s, c, w).ctx), s, c.seqs, WaitStart(c.committed, s, c.seqs, now))
  {
    StepGood(s, c, w);
    assert s.Await? && Known(c, s.anchor);
    var a, q := s.anchor, Count(c.seqs, s.anchor);
    var r := Record(s.required, s.deadline, false, w.at(a, q).now);
    assert Step(s, c, w).ctx == RecordAtAnchor(Drawn(c, a), a, q, r);
    RecordedWait(s, c, RecordAtAnchor(Drawn(c, a), a, q, r), r);
  }

  lemma RecordedWait(s: Script, c: Context, d: Context, r: Record)
    requires s.Await? && Copies(c) && Known(c, s.anchor) && r.required == s.required && r.deadline == s.deadline
    requires d == RecordAtAnchor(Drawn(c, s.anchor), s.anchor, Count(c.seqs, s.anchor), r) && Good(d) && !r.satisfied
    ensures WaitingSince(Flushed(d), s, c.seqs, WaitStart(c.committed, s, c.seqs, r.startedAt))
  {
    var a, q := s.anchor, Count(c.seqs, s.anchor);
    assert Held(d, a) == Recording(Held(c, a), q, r) && Flushed(d)[a] == Held(d, a);
  }

  // How a pass over this log records the wait it ends in.
  ghost predicate WaitRecorded(log: seq<Entry>, r: Result, w: World) {
    && r.rest.Await? && Good(r.ctx)
    && var now := w.at(r.rest.anchor, Count(r.seqs, r.rest.anchor)).now;
       WaitingSince(Flushed(r.ctx), r.rest, r.seqs, WaitStart(log, r.rest, r.seqs, now))
  }

  // A pass that suspends leaves its barrier's record behind: with the start
  // on record for it, or its own clock where there is none.
  lemma {:induction false} WaitStarts(s: Script, c: Context, w: World)
    requires Sound(c) && c.callIndex >= |c.committed| && Anchored(s, c.callIndex)
    requires RunPass(s, c, w).outcome == Suspended
    ensures WaitRecorded(c.committed, RunPass(s, c, w), w)
    decreases s
  {
    var n := Step(s, c, w);
    if n.Go? {
      StepSound(s, c, w);
      StepAnchored(s, c, w);
      WaitStarts(n.rest, n.ctx, w);
    } else {
      WaitStartsHere(s, c, w);
    }
  }

  // A turn whose world leaves the barrier unmet, and one past its deadline.
  predicate Unmet(t: Turn, a: nat, q: nat) {
    !t.world.cancelled && !t.world.at(a, q).reached
  }

  // A pass that fails leaves its mark only if it runs to its end; one that
  // goes on can do so by the rows of a torn commit.
  predicate Late(t: Turn, s: Script, q: nat, since: Option<nat>)
    requires s.Await?
  {
    (t.Ran? || (t.Torn? && Catches(s))) && Overdue(s.deadline, since, t.world.at(s.anchor, q).now)
  }

  // Since when the deadline of a barrier on record counts: the start recorded
  // for it, or for a stop the first one that is lent.
  function CountsFrom(log: seq<Entry>, s: Script, start: nat): Option<nat>
    requires s.Await?
  {
    if s.stopping.Some? then FirstLent(log, s.stopping.value) else Some(start)
  }

  ghost predicate Waiting(m: Coroutine, start: nat) {
    m.op.ended.None? && WaitingSince(m.op.log, m.rest, m.seqs, start) && Before(m.gone, m.seqs)
  }

  // A pass at an unmet barrier changes nothing in the log, unless the closure
  // catches its expiry.
  lemma UnmetPass(m: Coroutine, w: World, start: nat)
    requires Waiting(m, start) && !w.cancelled
    requires !w.at(m.rest.anchor, Count(m.seqs, m.rest.anchor)).reached
    ensures var r := ResumePass(m, w);
      var seen := w.at(m.rest.anchor, Count(m.seqs, m.rest.anchor));
      var late := Overdue(m.rest.deadline, CountsFrom(m.op.log, m.rest, start), seen.now);
      if late && Catches(m.rest) then r == RunPass(m.rest.late, Drawn(Suspension(m), m.rest.anchor), w)
      else
        && r.outcome == (if late then Failed else Suspended) && r.rest == m.rest && r.seqs == m.seqs
        && r.ctx.done == [] && r.ctx.committed == m.op.log
        && (forall i :: i in r.ctx.pending ==> i < |m.op.log| && r.ctx.pending[i] == m.op.log[i])
  {
    assert m.op.log + [] == m.op.log;
  }

  lemma SameLog(f: Context)
    requires Good(f) && f.done == []
    requires forall i :: i in f.pending ==> i < |f.committed| && f.pending[i] == f.committed[i]
    ensures Flushed(f) == f.committed
  {
  }

  // From `m`, waiting since `start`, to `n`: still waiting, or failed, unless
  // the closure catches that.
  ghost predicate Waited(m: Coroutine, n: Coroutine, start: nat, late: bool)
    requires m.rest.Await?
  {
    if late then Catches(m.rest) || n.op.ended == Some(Failed)
    else Waiting(n, start) && n.rest == m.rest && n.seqs == m.seqs && n.op.log == m.op.log
  }

  lemma WaitStep(m: Coroutine, t: Turn, start: nat)
    requires Waiting(m, start)
    requires var q := Count(m.seqs, m.rest.anchor); Unmet(t, m.rest.anchor, q)
    ensures var q := Count(m.seqs, m.rest.anchor);
      Waited(m, ResumeNext(m, t), start, Late(t, m.rest, q, CountsFrom(m.op.log, m.rest, start)))
  {
    var late := Overdue(m.rest.deadline, CountsFrom(m.op.log, m.rest, start),
                        t.world.at(m.rest.anchor, Count(m.seqs, m.rest.anchor)).now);
    if t.Died? || (late && Catches(m.rest)) {
    } else if t.Ran? {
      WaitRan(m, t, start);
    } else {
      WaitTorn(m, t, start);
    }
  }

  lemma WaitRan(m: Coroutine, t: Turn, start: nat)
    requires Waiting(m, start) && t.Ran?
    requires var q := Count(m.seqs, m.rest.anchor); Unmet(t, m.rest.anchor, q)
    requires !(Catches(m.rest) && Overdue(m.rest.deadline, CountsFrom(m.op.log, m.rest, start),
                                          t.world.at(m.rest.anchor, Count(m.seqs, m.rest.anchor)).now))
    ensures var q := Count(m.seqs, m.rest.anchor);
      Waited(m, ResumeNext(m, t), start, Late(t, m.rest, q, CountsFrom(m.op.log, m.rest, start)))
  {
    var r := ResumePass(m, t.world);
    UnmetPass(m, t.world, start);
    ResumeGood(m, t.world);
    SameLog(r.ctx);
  }

  lemma StaysPut(m: Coroutine, start: nat, gone: Gone)
    requires Waiting(m, start) && (m.rest.anchor, Count(m.seqs, m.rest.anchor)) !in gone
    ensures FastForward(m.rest, m.op.log, |m.op.log|, m.seqs, gone) == Point(m.rest, |m.op.log|, m.seqs)
  {
  }

  lemma TornUnmet(m: Coroutine, w: World, start: nat, rows: nat)
    requires Waiting(m, start) && !w.cancelled
    requires !w.at(m.rest.anchor, Count(m.seqs, m.rest.anchor)).reached
    requires !(Catches(m.rest) && Overdue(m.rest.deadline, CountsFrom(m.op.log, m.rest, start),
                                          w.at(m.rest.anchor, Count(m.seqs, m.rest.anchor)).now))
    ensures var g := Written(ResumePass(m, w).ctx, rows); Good(g) && Flushed(g) == m.op.log
    ensures Forgone(m, w) == m.gone
  {
    UnmetPass(m, w, start);
    ResumeGood(m, w);
    WrittenGood(ResumePass(m, w).ctx, rows);
    SameLog(Written(ResumePass(m, w).ctx, rows));
    ForgoesNothing(m, w, start);
  }

  lemma ForgoesNothing(m: Coroutine, w: World, start: nat)
    requires Waiting(m, start) && !w.cancelled
    requires !w.at(m.rest.anchor, Count(m.seqs, m.rest.anchor)).reached
    requires !(Catches(m.rest) && Overdue(m.rest.deadline, CountsFrom(m.op.log, m.rest, start),
                                          w.at(m.rest.anchor, Count(m.seqs, m.rest.anchor)).now))
    ensures Forgone(m, w) == m.gone
  {
    assert m.op.log + [] == m.op.log;
    assert Step(m.rest, Suspension(m), w).Halt?;
  }

  lemma WaitTorn(m: Coroutine, t: Turn, start: nat)
    requires Waiting(m, start) && t.Torn?
    requires var q := Count(m.seqs, m.rest.anchor); Unmet(t, m.rest.anchor, q)
    requires !(Catches(m.rest) && Overdue(m.rest.deadline, CountsFrom(m.op.log, m.rest, start),
                                          t.world.at(m.rest.anchor, Count(m.seqs, m.rest.anchor)).now))
    ensures Waited(m, ResumeNext(m, t), start, false)
  {
    TornUnmet(m, t.world, start, t.rows);
    ResumeGood(m, t.world);
    StaysPut(m, start, m.gone);
    assert DrawnOf(m.gone, m.seqs) == m.gone;
  }

  ghost predicate SomeLate(turns: seq<Turn>, s: Script, q: nat, since: Option<nat>)
    requires s.Await?
  {
    exists t :: t in turns && Late(t, s, q, since)
  }

  lemma SomeLateSnoc(turns: seq<Turn>, t: Turn, s: Script, q: nat, since: Option<nat>)
    requires s.Await?
    ensures SomeLate(turns + [t], s, q, since) <==> SomeLate(turns, s, q, since) || Late(t, s, q, since)
  {
    if Late(t, s, q, since) { assert t in turns + [t]; }
    if SomeLate(turns, s, q, since) {
      var u :| u in turns && Late(u, s, q, since);
      assert u in turns + [t];
    }
  }

  ghost predicate TooLate(m: Coroutine, turns: seq<Turn>, start: nat)
    requires m.rest.Await?
  {
    SomeLate(turns, m.rest, Count(m.seqs, m.rest.anchor), CountsFrom(m.op.log, m.rest, start))
  }

  lemma WaitedStep(m: Coroutine, n: Coroutine, t: Turn, start: nat, late: bool)
    requires Waiting(m, start) && Waited(m, n, start, late)
    requires Unmet(t, m.rest.anchor, Count(m.seqs, m.rest.anchor))
    ensures Waited(m, ResumeNext(n, t), start,
                   late || Late(t, m.rest, Count(m.seqs, m.rest.anchor), CountsFrom(m.op.log, m.rest, start)))
  {
    if !late { WaitStep(n, t, start); }
  }

  lemma ResumeSnoc(m: Coroutine, turns: seq<Turn>, t: Turn)
    ensures ResumeOn(m, turns + [t]) == ResumeNext(ResumeOn(m, turns), t)
  {
    assert (turns + [t])[..|turns|] == turns;
  }

  lemma {:induction false} ResumeConcat(m: Coroutine, before: seq<Turn>, more: seq<Turn>)
    ensures ResumeOn(m, before + more) == ResumeOn(ResumeOn(m, before), more)
  {
    if more == [] {
      assert before + more == before;
    } else {
      var k := |more| - 1;
      ResumeConcat(m, before, more[..k]);
      ResumeSnoc(m, before + more[..k], more[k]);
      ResumeSnoc(ResumeOn(m, before), more[..k], more[k]);
      assert more == more[..k] + [more[k]];
      assert before + more == before + more[..k] + [more[k]];
    }
  }

  lemma {:induction false} WaitsOn(m: Coroutine, more: seq<Turn>, start: nat)
    requires Waiting(m, start)
    requires forall i :: 0 <= i < |more| ==> Unmet(more[i], m.rest.anchor, Count(m.seqs, m.rest.anchor))
    ensures Waited(m, ResumeOn(m, more), start, TooLate(m, more, start))
  {
    if more != [] {
      var k := |more| - 1;
      WaitsOn(m, more[..k], start);
      WaitsOnce(m, more[..k], more[k], start);
      assert more == more[..k] + [more[k]];
    }
  }

  lemma WaitsOnce(m: Coroutine, more: seq<Turn>, t: Turn, start: nat)
    requires Waiting(m, start) && Waited(m, ResumeOn(m, more), start, TooLate(m, more, start))
    requires Unmet(t, m.rest.anchor, Count(m.seqs, m.rest.anchor))
    ensures Waited(m, ResumeOn(m, more + [t]), start, TooLate(m, more + [t], start))
  {
    ResumeSnoc(m, more, t);
    WaitedStep(m, ResumeOn(m, more), t, start, TooLate(m, more, start));
    SomeLateSnoc(more, t, m.rest, Count(m.seqs, m.rest.anchor), CountsFrom(m.op.log, m.rest, start));
  }

  lemma WaitBegins(s: Script, before: seq<Turn>, first: Turn)
    requires Anchored(s, 0) && first.Ran?
    requires forall t :: t in before + [first] ==> t.script == s
    requires Resume(s, before).op.ended.None? && Resume(s, before + [first]).op.ended.None?
    ensures var m := Resume(s, before + [first]);
      && m.rest.Await?
      && Waiting(m, WaitStart(Resume(s, before).op.log, m.rest, m.seqs,
                              first.world.at(m.rest.anchor, Count(m.seqs, m.rest.anchor)).now))
  {
    assert forall t :: t in before ==> t in before + [first];
    AlwaysMatches(s, before);
    AlwaysMatches(s, before + [first]);
    ResumeSnoc(Beginning(s), before, first);
    var m := Resume(s, before);
    StartSound(m.op.log, m.seqs);
    WaitStarts(m.rest, Suspension(m), first.world);
  }

  // A barrier that stays unmet fails its operation exactly when some later
  // pass finds its deadline gone since its wait started, however many passes,
  // crashes and torn commits lie between; or the closure catches that, which
  // it does then and not before.  For a stop the wait started with the first
  // start the log has for its resources.
  lemma DeadlineFromStart(s: Script, before: seq<Turn>, first: Turn, more: seq<Turn>)
    requires Anchored(s, 0) && first.Ran? && Steady(s, before + [first] + more)
    requires forall t :: t in before + [first] + more ==> t.script == s
    requires Resume(s, before).op.ended.None? && Resume(s, before + [first]).op.ended.None?
    requires var m := Resume(s, before + [first]);
      m.rest.Await? ==>
        forall i :: 0 <= i < |more| ==> Unmet(more[i], m.rest.anchor, Count(m.seqs, m.rest.anchor))
    ensures var m := Resume(s, before + [first]);
      && m.rest.Await?
      && var a, q := m.rest.anchor, Count(m.seqs, m.rest.anchor);
         var start := WaitStart(Resume(s, before).op.log, m.rest, m.seqs, first.world.at(a, q).now);
         if !TooLate(m, more, start) then Replay(before + [first] + more).ended == None
         else Catches(m.rest) || Replay(before + [first] + more).ended == Some(Failed)
  {
    var turns := before + [first];
    assert forall t :: t in turns ==> t in turns + more;
    WaitBegins(s, before, first);
    ReplayIsResumption(s, turns + more);
    ResumeConcat(Beginning(s), turns, more);
    var m, n := Resume(s, before), Resume(s, turns);
    var now := first.world.at(n.rest.anchor, Count(n.seqs, n.rest.anchor)).now;
    WaitsOn(n, more, WaitStart(m.op.log, n.rest, n.seqs, now));
  }

  // Where no commit was torn before, a barrier first come to has no start on
  // record.
  lemma StartsWithFirst(s: Script, before: seq<Turn>, first: Turn)
    requires Anchored(s, 0) && first.Ran?
    requires forall t :: t in before ==> t.script == s && !t.Torn?
    requires Resume(s, before).op.ended.None? && Resume(s, before + [first]).op.ended.None?
    requires Resume(s, before).rest != Resume(s, before + [first]).rest
    ensures var m := Resume(s, before + [first]);
      m.rest.Await? ==>
        var now := first.world.at(m.rest.anchor, Count(m.seqs, m.rest.anchor)).now;
        WaitStart(Resume(s, before).op.log, m.rest, m.seqs, now) == now
  {
    AlwaysReady(s, before);
    ResumeSnoc(Beginning(s), before, first);
    var m := Resume(s, before);
    NoRecordAhead(m.rest, Suspension(m), first.world);
  }

  // So a stop waited on is lent no start but its own.
  lemma StopStartsWithFirst(s: Script, before: seq<Turn>, first: Turn)
    requires Anchored(s, 0) && Shaped(s, 0) && Uncaught(s) && first.Ran?
    requires forall t :: t in before + [first] ==> t.script == s && !t.Torn?
    requires Resume(s, before).op.ended.None? && Resume(s, before + [first]).op.ended.None?
    ensures var m := Resume(s, before + [first]);
      Stopping(m.rest) ==>
        var now := first.world.at(m.rest.anchor, Count(m.seqs, m.rest.anchor)).now;
        FirstLent(m.op.log, m.rest.stopping.value) == Some(WaitStart(Resume(s, before).op.log, m.rest, m.seqs, now))
  {
    AlwaysUntorn(s, before + [first]);
    WaitBegins(s, before, first);
    var n := Resume(s, before + [first]);
    if Stopping(n.rest) { LentByOwn(n.rest, n.op.log, n.seqs); }
  }

  lemma CountsFromFirst(s: Script, before: seq<Turn>, first: Turn)
    requires Anchored(s, 0) && Shaped(s, 0) && first.Ran?
    requires forall t :: t in before + [first] ==> t.script == s && !t.Torn?
    requires Resume(s, before).op.ended.None? && Resume(s, before + [first]).op.ended.None?
    requires Resume(s, before).rest != Resume(s, before + [first]).rest
    requires Stopping(Resume(s, before + [first]).rest) ==> Uncaught(s)
    ensures var m := Resume(s, before + [first]);
      m.rest.Await? ==>
        var now := first.world.at(m.rest.anchor, Count(m.seqs, m.rest.anchor)).now;
        CountsFrom(m.op.log, m.rest, WaitStart(Resume(s, before).op.log, m.rest, m.seqs, now)) == Some(now)
  {
    assert forall t :: t in before ==> t in before + [first];
    StartsWithFirst(s, before, first);
    if Stopping(Resume(s, before + [first]).rest) { StopStartsWithFirst(s, before, first); }
  }

  // Then its wait starts with the first pass that suspended at it, and the
  // deadline counts from there; for a stop as for any other barrier, if the
  // closure catches nothing.
  lemma DeadlineFromFirstWait(s: Script, before: seq<Turn>, first: Turn, more: seq<Turn>)
    requires Anchored(s, 0) && Shaped(s, 0) && first.Ran? && Steady(s, before + [first] + more)
    requires forall t :: t in before + [first] + more ==> t.script == s
    requires forall t :: t in before ==> !t.Torn?
    requires Resume(s, before).op.ended.None? && Resume(s, before + [first]).op.ended.None?
    requires Resume(s, before).rest != Resume(s, before + [first]).rest
    requires Stopping(Resume(s, before + [first]).rest) ==> Uncaught(s)
    requires var m := Resume(s, before + [first]);
      m.rest.Await? ==>
        forall i :: 0 <= i < |more| ==> Unmet(more[i], m.rest.anchor, Count(m.seqs, m.rest.anchor))
    ensures var m := Resume(s, before + [first]);
      && m.rest.Await?
      && var a, q := m.rest.anchor, Count(m.seqs, m.rest.anchor);
         var ended := Replay(before + [first] + more).ended;
         if !SomeLate(more, m.rest, q, Some(first.world.at(a, q).now)) then ended == None
         else Catches(m.rest) || ended == Some(Failed)
  {
    forall t | t in before + [first] ensures t.script == s && !t.Torn? {
      assert t in before + [first] + more;
    }
    DeadlineFromStart(s, before, first, more);
    CountsFromFirst(s, before, first);
  }
}
