/**
 * Which barriers the log has a record of.  While every commit is written
 * whole, those the closure has come to and no other; a torn commit can leave
 * the record of a barrier ahead of a call that will be made again.
 */
module BarrierRecords {
  import opened Common
  import opened BarrierReplay
  import opened ReplayResumption

  // Only barriers already drawn have a record.
  ghost predicate Tidy(c: Context) {
    forall a, q :: Known(c, a) && q in Held(c, a).barriers ==> q < Count(c.seqs, a)
  }

  // Every record but that of the barrier now waited on is of one passed.
  ghost predicate Waits(c: Context, s: Script) {
    forall a, q :: Known(c, a) && q in Held(c, a).barriers ==>
      q < Count(c.seqs, a) || (s.Await? && a == s.anchor && q == Count(c.seqs, a))
  }

  lemma PerformedTidy(c: Context, call: Call)
    requires Tidy(c)
    ensures Tidy(Performed(c, call))
  {
    var d := Performed(c, call);
    forall a, q | Known(d, a) && q in Held(d, a).barriers
      ensures q < Count(d.seqs, a)
    {
      assert a != c.callIndex && Known(c, a) && Held(d, a) == Held(c, a);
    }
  }

  lemma AnsweredTidy(s: Script, c: Context, answer: Option<Extra>)
    requires Tidy(c) && c.callIndex >= |c.committed| && Asks(s)
    ensures Answered(s, c, answer).Go? ==> Tidy(Answered(s, c, answer).ctx)
  {
    if answer.Some? { PerformedTidy(c, AskedCall(s, answer.value)); }
  }

  lemma DrawnTidy(c: Context, s: Script, r: Record)
    requires Waits(c, s) && s.Await?
    ensures Tidy(c.(seqs := Bump(c.seqs, s.anchor)))
    ensures Tidy(RecordAtAnchor(c.(seqs := Bump(c.seqs, s.anchor)), s.anchor, Count(c.seqs, s.anchor), r))
  {
    var d := c.(seqs := Bump(c.seqs, s.anchor));
    forall a, q | Known(d, a) && q in Held(d, a).barriers
      ensures q < Count(d.seqs, a)
    {
      assert Known(c, a) && Held(d, a) == Held(c, a);
    }
    var e := RecordAtAnchor(d, s.anchor, Count(c.seqs, s.anchor), r);
    forall a, q | Known(e, a) && q in Held(e, a).barriers
      ensures q < Count(e.seqs, a)
    {
      assert Known(d, a);
      assert q in Held(d, a).barriers || (a == s.anchor && q == Count(c.seqs, a));
    }
  }

  // Where a pass may start as far as the records go.
  ghost predicate Ready(c: Context, s: Script) {
    if s.Await? then Waits(c, s) else Tidy(c)
  }

  lemma StepTidy(s: Script, c: Context, w: World)
    requires c.callIndex >= |c.committed| && Ready(c, s)
    ensures Step(s, c, w).Go? || Step(s, c, w).outcome == Suspended ==> Tidy(Step(s, c, w).ctx)
  {
    match s
    case Done =>
    case Raise =>
    case Claim(kind, resources, _) => PerformedTidy(c, Call(kind, resources, NoExtra));
    case SendSignal(resources, name, _) => PerformedTidy(c, Call(Signal, resources, Name(name)));
    case RunExec(_, _, _) => AnsweredTidy(s, c, Answer(s, w, c.callIndex));
    case Invoke(_, _, _) => AnsweredTidy(s, c, Answer(s, w, c.callIndex));
    case Await(a, required, deadline, _, _, _) =>
      var now := w.at(a, Count(c.seqs, a)).now;
      DrawnTidy(c, s, Record(required, deadline, true, now));
      DrawnTidy(c, s, Record(required, deadline, false, now));
  }

  lemma FlushedWaits(d: Context, s: Script, seqs: map<nat, nat>)
    requires Good(d) && Tidy(d) && s.Await? && d.seqs == Bump(seqs, s.anchor)
    ensures Waits(At(Flushed(d), |Flushed(d)|, seqs), s)
  {
    var c := At(Flushed(d), |Flushed(d)|, seqs);
    forall a, q | Known(c, a) && q in Held(c, a).barriers
      ensures q < Count(c.seqs, a) || (a == s.anchor && q == Count(c.seqs, a))
    {
      assert Known(d, a) && Held(d, a) == Held(c, a);
    }
  }

  lemma TidyReady(c: Context, s: Script)
    requires Tidy(c)
    ensures Ready(c, s)
  {
  }

  lemma ReadyHere(s: Script, c: Context, w: World)
    requires Good(c) && c.callIndex >= |c.committed| && Ready(c, s)
    requires Step(s, c, w).Halt? && Step(s, c, w).outcome == Suspended
    ensures s.Await? && Good(Step(s, c, w).ctx)
    ensures var d := Step(s, c, w).ctx; Waits(At(Flushed(d), |Flushed(d)|, c.seqs), s)
  {
    StepTidy(s, c, w);
    StepGood(s, c, w);
    FlushedWaits(Step(s, c, w).ctx, s, c.seqs);
  }

  // A pass that suspends leaves no record of a barrier ahead, and came to no
  // barrier but its first with one.
  lemma {:induction false} ReadyAgain(s: Script, c: Context, w: World)
    requires Good(c) && c.callIndex >= |c.committed| && Ready(c, s)
    requires RunPass(s, c, w).outcome == Suspended
    ensures var r := RunPass(s, c, w);
      && Good(r.ctx) && r.rest.Await?
      && Waits(At(Flushed(r.ctx), |Flushed(r.ctx)|, r.seqs), r.rest)
    decreases s
  {
    var n := Step(s, c, w);
    if n.Go? {
      StepTidy(s, c, w);
      StepGood(s, c, w);
      TidyReady(n.ctx, n.rest);
      ReadyAgain(n.rest, n.ctx, w);
    } else {
      ReadyHere(s, c, w);
    }
  }

  // While no commit is torn, the log has no record of a barrier the closure
  // has not come to.
  lemma {:induction false} AlwaysReady(s: Script, turns: seq<Turn>)
    requires Anchored(s, 0)
    requires forall t :: t in turns ==> t.script == s && !t.Torn?
    ensures var m := Resume(s, turns);
      m.op.ended.None? ==> Ready(Suspension(m), m.rest)
  {
    if turns != [] {
      var n := |turns| - 1;
      var m, t := Resume(s, turns[..n]), turns[n];
      AlwaysReady(s, turns[..n]);
      assert t in turns;
      if m.op.ended.None? && t.Ran? && ResumePass(m, t.world).outcome == Suspended {
        ReadyAgain(m.rest, Suspension(m), t.world);
      }
    }
  }

  lemma {:induction false} SeqsGrow(s: Script, c: Context, w: World, a: nat)
    ensures Count(c.seqs, a) <= Count(RunPass(s, c, w).seqs, a)
    decreases s
  {
    var n := Step(s, c, w);
    if n.Go? { SeqsGrow(n.rest, n.ctx, w, a); }
  }

  lemma DrawnPast(s: Script, c: Context, w: World, a: nat, q: nat)
    requires Ready(c, s) && Step(s, c, w).Go? && Known(c, a) && q in Held(c, a).barriers
    ensures q < Count(Step(s, c, w).ctx.seqs, a)
  {
  }

  // Then a barrier further on than where a pass started has no record yet.
  lemma NoRecordAhead(s: Script, c: Context, w: World)
    requires c.pending == map[] && Ready(c, s)
    requires RunPass(s, c, w).outcome == Suspended && RunPass(s, c, w).rest != s
    ensures var r := RunPass(s, c, w);
      r.rest.Await? && r.rest.anchor < |c.committed| ==>
        Count(r.seqs, r.rest.anchor) !in c.committed[r.rest.anchor].barriers
  {
    var r := RunPass(s, c, w);
    var n := Step(s, c, w);
    if r.rest.Await? && r.rest.anchor < |c.committed| {
      var a, q := r.rest.anchor, Count(r.seqs, r.rest.anchor);
      SeqsGrow(n.rest, n.ctx, w, a);
      assert Known(c, a) && Held(c, a) == c.committed[a];
      if q in Held(c, a).barriers { DrawnPast(s, c, w, a, q); }
    }
  }

  // -------------------------------------------- what a pass asks the world

  // Every barrier the pass gets past is met, or given up on, in the pass's own
  // world.
  predicate AllAsked(s: Script, c: Context, w: World)
    decreases s
  {
    match Step(s, c, w)
    case Halt(_, _) => true
    case Go(rest, d) => (s.Await? ==> Asked(s, c, w.at(s.anchor, Count(c.seqs, s.anchor)))) && AllAsked(rest, d, w)
  }

  predicate Asked(s: Script, c: Context, seen: Observation) {
    seen.reached || Expires(s, c, seen)
  }

  // The log has a wait for this barrier, so that it can expire.
  predicate CanExpire(s: Script, log: seq<Entry>, seqs: map<nat, nat>) {
    && Catches(s) && s.deadline.Some? && s.anchor < |log|
    && var q := Count(seqs, s.anchor);
       q in log[s.anchor].barriers &&
       log[s.anchor].barriers[q].required == s.required && !log[s.anchor].barriers[q].satisfied
  }

  // The log has a barrier as passed that the script may still come to.
  ghost predicate RecordAhead(s: Script, log: seq<Entry>, seqs: map<nat, nat>)
    decreases s
  {
    match s
    case Done => false
    case Raise => false
    case Claim(_, _, rest) => RecordAhead(rest, log, seqs)
    case SendSignal(_, _, rest) => RecordAhead(rest, log, seqs)
    case RunExec(_, _, _) => exists x: Extra :: AheadAfter(s, x, log, seqs)
    case Invoke(_, _, _) => exists x: Extra :: AheadAfter(s, x, log, seqs)
    case Await(a, required, _, _, late, rest) =>
      || HasPassed(log, a, Count(seqs, a), required)
      || RecordAhead(rest, log, Bump(seqs, a))
      || (CanExpire(s, log, seqs) && RecordAhead(late, log, Bump(seqs, a)))
  }

  ghost predicate AheadAfter(s: Script, x: Extra, log: seq<Entry>, seqs: map<nat, nat>)
    decreases s, 0
  {
    Following(s, x).Some? && RecordAhead(Following(s, x).value, log, seqs)
  }

  // One step past the end of the log goes on with a log and a script that
  // have a record ahead only if these have.
  lemma AheadBefore(s: Script, c: Context, w: World)
    requires Copies(c) && c.callIndex >= |c.committed| && Step(s, c, w).Go?
    requires RecordAhead(Step(s, c, w).rest, c.committed, Step(s, c, w).ctx.seqs)
    ensures RecordAhead(s, c.committed, c.seqs)
  {
    if Asks(s) {
      assert AheadAfter(s, Answer(s, w, c.callIndex).value, c.committed, c.seqs);
    } else if s.Await? {
      var seen := w.at(s.anchor, Count(c.seqs, s.anchor));
      if Expires(s, c, seen) { ExpiredCommitted(s, c, seen); }
    }
  }

  lemma NoneAheadHere(s: Script, c: Context, w: World)
    requires Copies(c) && c.callIndex >= |c.committed| && Step(s, c, w).Go? && !RecordAhead(s, c.committed, c.seqs)
    ensures !RecordAhead(Step(s, c, w).rest, c.committed, Step(s, c, w).ctx.seqs)
    ensures s.Await? ==> Asked(s, c, w.at(s.anchor, Count(c.seqs, s.anchor)))
  {
    var n := Step(s, c, w);
    if RecordAhead(n.rest, c.committed, n.ctx.seqs) { AheadBefore(s, c, w); }
  }

  lemma {:induction false} NoneAheadAsks(s: Script, c: Context, w: World)
    requires Sound(c) && c.callIndex >= |c.committed| && !RecordAhead(s, c.committed, c.seqs)
    ensures AllAsked(s, c, w)
    decreases s
  {
    var n := Step(s, c, w);
    if n.Go? {
      NoneAheadHere(s, c, w);
      StepSound(s, c, w);
      NoneAheadAsks(n.rest, n.ctx, w);
    }
  }

  // A way to a barrier recorded ahead: the answers that lead there, by call
  // index, the barriers to give up on and when, and the barrier.
  datatype Way = Way(answers: map<nat, Extra>, gone: Gone, a: nat, q: nat)

  // All it speaks of is still to come.
  ghost predicate Ahead(way: Way, log: seq<Entry>, seqs: map<nat, nat>, k: nat) {
    && (forall i :: i in way.answers ==> i >= k)
    && (forall a, q :: (a, q) in way.gone ==> a < |log| && q >= Count(seqs, a))
    && way.a < |log| && way.q >= Count(seqs, way.a) && (way.a, way.q) !in way.gone
  }

  ghost function WayAhead(s: Script, log: seq<Entry>, seqs: map<nat, nat>, k: nat): (way: Way)
    requires RecordAhead(s, log, seqs)
    ensures Ahead(way, log, seqs, k)
    decreases s
  {
    match s
    case Claim(_, _, rest) => WayAhead(rest, log, seqs, k + 1)
    case SendSignal(_, _, rest) => WayAhead(rest, log, seqs, k + 1)
    case RunExec(_, _, _) => WayAfter(s, log, seqs, k)
    case Invoke(_, _, _) => WayAfter(s, log, seqs, k)
    case Await(a, required, _, _, late, rest) =>
      if HasPassed(log, a, Count(seqs, a), required) then Way(map[], map[], a, Count(seqs, a))
      else if RecordAhead(rest, log, Bump(seqs, a)) then WayAhead(rest, log, Bump(seqs, a), k)
      else
        var way := WayAhead(late, log, Bump(seqs, a), k);
        way.(gone := way.gone[(a, Count(seqs, a)) := ExpiryTime(s, log, seqs)])
  }

  function ExpiryTime(s: Script, log: seq<Entry>, seqs: map<nat, nat>): nat
    requires CanExpire(s, log, seqs)
  {
    log[s.anchor].barriers[Count(seqs, s.anchor)].startedAt + s.deadline.value
  }

  lemma SomeAheadAfter(s: Script, log: seq<Entry>, seqs: map<nat, nat>)
    requires Asks(s) && RecordAhead(s, log, seqs)
    ensures exists x: Extra :: AheadAfter(s, x, log, seqs)
  {
  }

  ghost function WayAfter(s: Script, log: seq<Entry>, seqs: map<nat, nat>, k: nat): (way: Way)
    requires Asks(s) && RecordAhead(s, log, seqs)
    ensures Ahead(way, log, seqs, k)
    decreases s, 0
  {
    SomeAheadAfter(s, log, seqs);
    var x: Extra :| AheadAfter(s, x, log, seqs);
    var way := WayAhead(Following(s, x).value, log, seqs, k + 1);
    way.(answers := way.answers[k := x])
  }

  // The world gives those answers, and meets every barrier still to come but
  // those.
  ghost predicate Leads(w: World, way: Way, log: seq<Entry>, seqs: map<nat, nat>) {
    && !w.cancelled
    && (forall k :: k in way.answers && way.answers[k].Exit? ==> w.exit(k) == Some(way.answers[k].code))
    && (forall k :: k in way.answers && way.answers[k].Payload? ==> w.params(k) == Some(way.answers[k].params))
    && (forall a: nat, q: nat :: a >= |log| || q >= Count(seqs, a) ==>
          (w.at(a, q).reached <==> (a, q) != (way.a, way.q) && (a, q) !in way.gone))
    && (forall a, q :: (a, q) in way.gone ==> w.at(a, q).now == way.gone[(a, q)])
  }

  function WorldOn(way: Way): World {
    World(false,
          (k: nat) => if k in way.answers && way.answers[k].Exit? then Some(way.answers[k].code) else None,
          (k: nat) => if k in way.answers && way.answers[k].Payload? then Some(way.answers[k].params) else None,
          (a: nat, q: nat) => Observation(if (a, q) in way.gone then way.gone[(a, q)] else 0,
                                          (a, q) != (way.a, way.q) && (a, q) !in way.gone))
  }

  lemma AnswerOnWay(s: Script, w: World, log: seq<Entry>, seqs: map<nat, nat>, k: nat)
    requires Asks(s) && RecordAhead(s, log, seqs) && Leads(w, WayAfter(s, log, seqs, k), log, seqs)
    ensures var x := Answer(s, w, k);
      && x.Some? && AheadAfter(s, x.value, log, seqs)
      && Leads(w, WayAhead(Following(s, x.value).value, log, seqs, k + 1), log, seqs)
  {
  }

  // Such a world leads the pass on along the way.
  ghost predicate OnWay(s: Script, c: Context, w: World) {
    && c.callIndex >= |c.committed| && RecordAhead(s, c.committed, c.seqs)
    && Leads(w, WayAhead(s, c.committed, c.seqs, c.callIndex), c.committed, c.seqs)
  }

  ghost predicate GoesOnWay(n: Next, w: World) {
    n.Go? && OnWay(n.rest, n.ctx, w)
  }

  lemma AnsweredOnWay(s: Script, c: Context, w: World)
    requires OnWay(s, c, w) && Asks(s)
    ensures GoesOnWay(Step(s, c, w), w)
  {
    assert WayAhead(s, c.committed, c.seqs, c.callIndex) == WayAfter(s, c.committed, c.seqs, c.callIndex);
    AnswerOnWay(s, w, c.committed, c.seqs, c.callIndex);
    AskedStep(s, c, w, Answer(s, w, c.callIndex).value);
  }

  lemma AskedStep(s: Script, c: Context, w: World, x: Extra)
    requires Asks(s) && c.callIndex >= |c.committed| && !w.cancelled
    requires Answer(s, w, c.callIndex) == Some(x) && Following(s, x).Some?
    ensures var n := Step(s, c, w);
      && n.Go? && n.rest == Following(s, x).value && n.ctx.committed == c.committed
      && n.ctx.callIndex == c.callIndex + 1 && n.ctx.seqs == c.seqs
  {
  }

  lemma CalledOnWay(s: Script, c: Context, w: World)
    requires OnWay(s, c, w) && (s.Claim? || s.SendSignal?)
    ensures GoesOnWay(Step(s, c, w), w)
  {
    assert w.at(c.callIndex, 0).reached;
  }

  lemma MetStep(s: Script, c: Context, seen: Observation)
    requires s.Await? && seen.reached && !HasPassed(c.committed, s.anchor, Count(c.seqs, s.anchor), s.required)
    ensures var n := Awaited(s, c, seen);
      && n.Go? && n.rest == s.rest && n.ctx.committed == c.committed
      && n.ctx.callIndex == c.callIndex && n.ctx.seqs == Bump(c.seqs, s.anchor)
  {
  }

  lemma MetOnWay(s: Script, c: Context, w: World)
    requires OnWay(s, c, w) && s.Await? && !HasPassed(c.committed, s.anchor, Count(c.seqs, s.anchor), s.required)
    requires RecordAhead(s.rest, c.committed, Bump(c.seqs, s.anchor))
    ensures GoesOnWay(Step(s, c, w), w)
  {
    var a, q := s.anchor, Count(c.seqs, s.anchor);
    var way := WayAhead(s, c.committed, c.seqs, c.callIndex);
    assert way == WayAhead(s.rest, c.committed, Bump(c.seqs, a), c.callIndex);
    assert w.at(a, q).reached;
    MetStep(s, c, w.at(a, q));
  }

  lemma LateOnWay(s: Script, c: Context, w: World)
    requires OnWay(s, c, w) && Copies(c)
    requires s.Await? && !HasPassed(c.committed, s.anchor, Count(c.seqs, s.anchor), s.required)
    requires !RecordAhead(s.rest, c.committed, Bump(c.seqs, s.anchor))
    ensures GoesOnWay(Step(s, c, w), w)
  {
    var a, q := s.anchor, Count(c.seqs, s.anchor);
    var way := WayAhead(s, c.committed, c.seqs, c.callIndex);
    assert (a, q) in way.gone && !w.at(a, q).reached && w.at(a, q).now == ExpiryTime(s, c.committed, c.seqs);
    var d := Drawn(c, a);
    assert Known(d, a) && Held(d, a) == Held(c, a) && q in Held(c, a).barriers;
    assert Held(c, a).barriers[q] == c.committed[a].barriers[q];
    assert Step(s, c, w) == Go(s.late, d);
  }

  lemma {:induction false} WayNotAsked(s: Script, c: Context, w: World)
    requires OnWay(s, c, w) && Sound(c)
    ensures !AllAsked(s, c, w)
    decreases s
  {
    if s.Await? && HasPassed(c.committed, s.anchor, Count(c.seqs, s.anchor), s.required) {
      assert !w.at(s.anchor, Count(c.seqs, s.anchor)).reached;
    } else {
      if Asks(s) { AnsweredOnWay(s, c, w); }
      else if !s.Await? { CalledOnWay(s, c, w); }
      else if RecordAhead(s.rest, c.committed, Bump(c.seqs, s.anchor)) { MetOnWay(s, c, w); }
      else { LateOnWay(s, c, w); }
      StepSound(s, c, w);
      WayNotAsked(Step(s, c, w).rest, Step(s, c, w).ctx, w);
    }
  }

  // Whether every barrier a pass comes to past the end of the log is met or
  // given up on while it runs, in every world: exactly when the log has none
  // of them as passed already.
  lemma AskedExactly(s: Script, c: Context)
    requires Sound(c) && c.callIndex >= |c.committed|
    ensures (forall w: World :: AllAsked(s, c, w)) <==> !RecordAhead(s, c.committed, c.seqs)
  {
    if RecordAhead(s, c.committed, c.seqs) {
      var w := WorldOn(WayAhead(s, c.committed, c.seqs, c.callIndex));
      WayNotAsked(s, c, w);
    } else {
      forall w: World ensures AllAsked(s, c, w) {
        NoneAheadAsks(s, c, w);
      }
    }
  }

  // So for what is left of an operation, over every run of an unchanged
  // closure, torn commits included.
  lemma ResumedAsksExactly(s: Script, turns: seq<Turn>)
    requires Anchored(s, 0)
    requires forall t :: t in turns ==> t.script == s
    requires Resume(s, turns).op.ended.None?
    ensures var m := Resume(s, turns);
      (forall w: World :: AllAsked(m.rest, Suspension(m), w)) <==> !RecordAhead(m.rest, m.op.log, m.seqs)
  {
    var m := Resume(s, turns);
    StartSound(m.op.log, m.seqs);
    AskedExactly(m.rest, Suspension(m));
  }

  // ------------------------------------------------- without torn commits

  // The log has records of barriers drawn already only.
  ghost predicate TidyLog(log: seq<Entry>, seqs: map<nat, nat>) {
    forall a, q :: 0 <= a < |log| && q in log[a].barriers ==> q < Count(seqs, a)
  }

  lemma {:induction false} TidyNoneAhead(s: Script, log: seq<Entry>, seqs: map<nat, nat>)
    requires TidyLog(log, seqs)
    ensures !RecordAhead(s, log, seqs)
    decreases s
  {
    match s
    case Done =>
    case Raise =>
    case Claim(_, _, rest) => TidyNoneAhead(rest, log, seqs);
    case SendSignal(_, _, rest) => TidyNoneAhead(rest, log, seqs);
    case RunExec(_, _, _) => TidyNoneAfter(s, log, seqs);
    case Invoke(_, _, _) => TidyNoneAfter(s, log, seqs);
    case Await(a, _, _, _, _, rest) => TidyNoneAhead(rest, log, Bump(seqs, a));
  }

  lemma {:induction false} TidyNoneAfter(s: Script, log: seq<Entry>, seqs: map<nat, nat>)
    requires TidyLog(log, seqs) && Asks(s)
    ensures forall x: Extra :: !AheadAfter(s, x, log, seqs)
    decreases s, 0
  {
    forall x: Extra ensures !AheadAfter(s, x, log, seqs) {
      if Following(s, x).Some? { TidyNoneAhead(Following(s, x).value, log, seqs); }
    }
  }

  lemma {:induction false} EndNotSkipped(s: Script, log: seq<Entry>, k: nat, seqs: map<nat, nat>, gone: Gone)
    ensures var p := FastForward(s, log, k, seqs, gone); Skip(p.rest, log, p.k, p.seqs, gone).None?
    decreases s
  {
    var next := Skip(s, log, k, seqs, gone);
    if next.Some? { EndNotSkipped(next.value.rest, log, next.value.k, next.value.seqs, gone); }
  }

  lemma ReadyNoneAhead(m: Coroutine)
    requires Ready(Suspension(m), m.rest) && Skip(m.rest, m.op.log, |m.op.log|, m.seqs, m.gone).None?
    ensures !RecordAhead(m.rest, m.op.log, m.seqs)
  {
    var c := Suspension(m);
    var seqs := if m.rest.Await? then Bump(m.seqs, m.rest.anchor) else m.seqs;
    forall a, q | 0 <= a < |m.op.log| && q in m.op.log[a].barriers ensures q < Count(seqs, a) {
      assert Known(c, a) && Held(c, a) == m.op.log[a];
    }
    TidyNoneAhead(if m.rest.Await? then m.rest.rest else m.rest, m.op.log, seqs);
    TidyNoneAhead(if m.rest.Await? then m.rest.late else m.rest, m.op.log, seqs);
  }

  // While no commit is torn, none is: a resumed closure gets past no barrier
  // but those met or given up on while the pass runs.
  lemma UntornAsks(s: Script, turns: seq<Turn>, w: World)
    requires Anchored(s, 0)
    requires forall t :: t in turns ==> t.script == s && !t.Torn?
    requires Resume(s, turns).op.ended.None?
    ensures var m := Resume(s, turns);
      !RecordAhead(m.rest, m.op.log, m.seqs) && AllAsked(m.rest, Suspension(m), w)
  {
    AlwaysReady(s, turns);
    AlwaysMatches(s, turns);
    EndNotSkipped(s, Resume(s, turns).op.log, 0, map[], Resume(s, turns).gone);
    ReadyNoneAhead(Resume(s, turns));
    StartSound(Resume(s, turns).op.log, Resume(s, turns).seqs);
    NoneAheadAsks(Resume(s, turns).rest, Suspension(Resume(s, turns)), w);
  }

  // --------------------------------------------- a record ahead of its call

  const Begin := Call(Start, [], NoExtra)

  // Start a group, wait for it, signal it, wait for it again.
  const Restarting := 
    Claim(Start, [], Await(0, 1, None, None, Raise, SendSignal([], "HUP", Await(0, 2, None, None, Raise, Done))))

  function Calm(reached: bool): World {
    World(false, (k: nat) => None, (k: nat) => None, (a: nat, q: nat) => Observation(0, reached))
  }

  function Group(barriers: map<nat, Record>): seq<Entry> {
    [Entry(Begin, barriers)]
  }

  const Met := map[0 := Record(1, None, true, 0), 1 := Record(2, None, true, 0)]

  lemma FirstWait(d: Context)
    requires d == RecordAtAnchor(Drawn(Performed(Opened([]), Begin), 0), 0, 0, Record(1, None, false, 0))
    ensures RunPass(Restarting, Opened([]), Calm(false)) == Result(Suspended, d, Restarting.rest, map[])
  {
    var c := Performed(Opened([]), Begin);
    assert Step(Restarting, Opened([]), Calm(false)) == Go(Restarting.rest, c);
    assert Step(Restarting.rest, c, Calm(false)) == Halt(Suspended, d);
  }

  lemma OneRow(d: Context, e: Entry)
    requires Good(d) && d.committed == [] && d.done == [e.call] && 0 in d.pending && d.pending[0] == e
    ensures Flushed(d) == [e]
  {
  }

  lemma FirstRow(d: Context)
    requires d == RecordAtAnchor(Drawn(Performed(Opened([]), Begin), 0), 0, 0, Record(1, None, false, 0))
    ensures Good(d) && d.done == [Begin] && Flushed(d) == Group(map[0 := Record(1, None, false, 0)])
  {
    var c := Performed(Opened([]), Begin);
    PerformedGood(Opened([]), Begin);
    DrawnGood(c, 0, Record(1, None, false, 0));
    assert c.done == [Begin] && c.pending[0] == Entry(Begin, map[]);
    OneRow(d, Entry(Begin, map[0 := Record(1, None, false, 0)]));
  }

  lemma FirstPass()
    ensures var r := RunPass(Restarting, Opened([]), Calm(false));
      && r.outcome == Suspended && r.ctx.done == [Begin]
      && Good(r.ctx) && Flushed(r.ctx) == Group(map[0 := Record(1, None, false, 0)])
  {
    var d := RecordAtAnchor(Drawn(Performed(Opened([]), Begin), 0), 0, 0, Record(1, None, false, 0));
    FirstWait(d);
    FirstRow(d);
  }

  const Hup := Call(Signal, [], Name("HUP"))

  lemma SecondCalls(c0: Context) returns (c3: Context)
    requires c0 == Opened(Group(map[0 := Record(1, None, false, 0)]))
    ensures RunPass(Restarting, c0, Calm(true)) == RunPass(Restarting.rest.rest.rest, c3, Calm(true))
    ensures c3.committed == c0.committed && c3.done == [Hup] && c3.order == [0, 1] && c3.seqs == map[0 := 1]
    ensures c3.pending == map[0 := Entry(Begin, map[0 := Record(1, None, true, 0)]), 1 := Entry(Hup, map[])]
  {
    var w := Calm(true);
    var c1 := Advanced(c0);
    assert Step(Restarting, c0, w) == Go(Restarting.rest, c1);
    var c2 := RecordAtAnchor(Drawn(c1, 0), 0, 0, Record(1, None, true, 0));
    assert Step(Restarting.rest, c1, w) == Go(Restarting.rest.rest, c2);
    assert c2.pending[0].barriers == map[0 := Record(1, None, true, 0)];
    c3 := Performed(c2, Hup);
    assert Step(Restarting.rest.rest, c2, w) == Go(Restarting.rest.rest.rest, c3);
  }

  lemma SecondWait(c3: Context) returns (c4: Context)
    requires c3.done == [Hup] && c3.order == [0, 1] && c3.seqs == map[0 := 1] && |c3.committed| == 1
    requires 1 !in c3.committed[0].barriers
    requires 0 in c3.pending && c3.pending[0].barriers == map[0 := Record(1, None, true, 0)]
    ensures RunPass(Restarting.rest.rest.rest, c3, Calm(true)) == Result(Completed, c4, Done, c4.seqs)
    ensures c4.committed == c3.committed && c4.done == [Hup] && c4.order == [0, 1]
    ensures 0 in c4.pending && c4.pending[0] == Entry(c3.pending[0].call, Met)
  {
    c4 := RecordAtAnchor(Drawn(c3, 0), 0, 1, Record(2, None, true, 0));
    assert Step(Restarting.rest.rest.rest, c3, Calm(true)) == Go(Done, c4);
    assert c4.pending[0].barriers == Met;
  }

  lemma FirstRowOnly(c: Context)
    requires Good(c) && Ordered(c) && |c.committed| == 1 && c.order == [0, 1] && 0 in c.pending
    ensures Good(Written(c, 1)) && Flushed(Written(c, 1)) == [c.pending[0]] && Written(c, 1).done == []
  {
    WrittenGood(c, 1);
    WrittenFresh(c, 1, 1);
    assert Written(c, 1).order == [0];
  }

  lemma SecondPass()
    ensures var r := RunPass(Restarting, Opened(Group(map[0 := Record(1, None, false, 0)])), Calm(true));
      && Good(r.ctx) && Ordered(r.ctx) && r.ctx.done == [Hup]
      && Good(Written(r.ctx, 1)) && Flushed(Written(r.ctx, 1)) == Group(Met) && Written(r.ctx, 1).done == []
  {
    var c0 := Opened(Group(map[0 := Record(1, None, false, 0)]));
    PassGood(Restarting, c0, Calm(true));
    PassOrdered(Restarting, c0, Calm(true));
    var c3 := SecondCalls(c0);
    var c4 := SecondWait(c3);
    FirstRowOnly(c4);
  }

  lemma ThirdPass()
    ensures var r := RunPass(Restarting, Opened(Group(Met)), Calm(false));
      r.outcome == Completed && r.ctx.done == [Hup]
  {
    var c0 := Opened(Group(Met));
    var w := Calm(false);
    var c1 := Advanced(c0);
    assert Step(Restarting, c0, w) == Go(Restarting.rest, c1);
    var c2 := Drawn(c1, 0);
    assert Step(Restarting.rest, c1, w) == Go(Restarting.rest.rest, c2);
    var c3 := Performed(c2, Hup);
    assert Step(Restarting.rest.rest, c2, w) == Go(Restarting.rest.rest.rest, c3);
    var c4 := Drawn(c3, 0);
    assert Step(Restarting.rest.rest.rest, c3, w) == Go(Done, c4);
  }

  lemma FirstTurn()
    ensures ReplayNext(NotBegun, Ran(Restarting, Calm(false))) ==
      Operation(Group(map[0 := Record(1, None, false, 0)]), None, [Begin], [])
  {
    FirstPass();
  }

  lemma SecondTurn(m: Operation)
    requires m.log == Group(map[0 := Record(1, None, false, 0)]) && m.ended.None?
    ensures ReplayNext(m, Torn(Restarting, Calm(true), 1)) == Operation(Group(Met), None, m.kept, m.lost + [Hup])
  {
    SecondPass();
  }

  lemma ThirdTurn(m: Operation)
    requires m.log == Group(Met) && m.ended.None?
    ensures var n := ReplayNext(m, Ran(Restarting, Calm(false)));
      n.ended == Some(Completed) && n.kept == m.kept + [Hup] && n.lost == m.lost
  {
    ThirdPass();
  }

  lemma ReplaySnoc(turns: seq<Turn>, more: seq<Turn>, t: Turn)
    requires more == turns + [t]
    ensures Replay(more) == ReplayNext(Replay(turns), t)
  {
    assert more[..|more| - 1] == turns;
  }

  lemma ThreeTurns(a: Turn, b: Turn, c: Turn)
    ensures Replay([a, b, c]) == ReplayNext(ReplayNext(ReplayNext(NotBegun, a), b), c)
  {
    ReplaySnoc([], [a], a);
    ReplaySnoc([a], [a, b], b);
    ReplaySnoc([a, b], [a, b, c], c);
  }

  // A commit torn after the row that carries a later barrier's record, before
  // the row of the call it was asserted after: the signal is sent again, and
  // the wait that follows it is over although the group is not there yet.
  // Without the torn commit `UntornAsks` rules this out.
  lemma TornCommitEndsWait() returns (turns: seq<Turn>)
    ensures turns == [Ran(Restarting, Calm(false)), Torn(Restarting, Calm(true), 1), Ran(Restarting, Calm(false))]
    ensures Replay(turns).ended == Some(Completed)
    ensures Replay(turns).lost == [Hup] && Replay(turns).kept == [Begin, Hup]
  {
    var a, b := Ran(Restarting, Calm(false)), Torn(Restarting, Calm(true), 1);
    ThreeTurns(a, b, a);
    FirstTurn();
    SecondTurn(ReplayNext(NotBegun, a));
    ThirdTurn(ReplayNext(ReplayNext(NotBegun, a), b));
    turns := [a, b, a];
  }
}
