/**
 * Runs of an operation: any number of passes over one growing log, with the
 * daemon dying inside some of them and between two rows of the commit of
 * others.  Replaying the closure from its start is shown to do what resuming
 * a kept closure would do.
 */
module ReplayResumption {
  import opened Common
  import opened BarrierReplay

  // --------------------------------------------------------- fast-forward

  // How far the log takes the closure.  It does not say that a barrier was
  // given up on.
  datatype Point = Point(rest: Script, k: nat, seqs: map<nat, nat>)

  predicate Logged(log: seq<Entry>, k: nat, kind: Kind) {
    k < |log| && log[k].call.kind == kind
  }

  // The barriers given up on, by call and position, and when.
  type Gone = map<(nat, nat), nat>

  // The log has this barrier as waited on too long by then.
  predicate GivenUp(s: Script, log: seq<Entry>, seqs: map<nat, nat>, gone: Gone) {
    && Catches(s) && s.anchor < |log|
    && var q := Count(seqs, s.anchor);
       && q in log[s.anchor].barriers && (s.anchor, q) in gone
       && var r := log[s.anchor].barriers[q];
          r.required == s.required && !r.satisfied && Overdue(s.deadline, Some(r.startedAt), gone[(s.anchor, q)])
  }

  function SkipAnswered(s: Script, log: seq<Entry>, k: nat, seqs: map<nat, nat>): (p: Option<Point>)
    ensures p.Some? ==> p.value.rest < s
  {
    if Logged(log, k, KindOf(s)) && Following(s, log[k].call.extra).Some?
    then Some(Point(Following(s, log[k].call.extra).value, k + 1, seqs)) else None
  }

  function SkipBarrier(s: Script, log: seq<Entry>, k: nat, seqs: map<nat, nat>, gone: Gone): (p: Option<Point>)
    requires s.Await?
    ensures p.Some? ==> p.value.rest < s
  {
    if HasPassed(log, s.anchor, Count(seqs, s.anchor), s.required) then Some(Point(s.rest, k, Bump(seqs, s.anchor)))
    else if GivenUp(s, log, seqs, gone) then Some(Point(s.late, k, Bump(seqs, s.anchor)))
    else None
  }

  function Skip(s: Script, log: seq<Entry>, k: nat, seqs: map<nat, nat>, gone: Gone): (p: Option<Point>)
    ensures p.Some? ==> p.value.rest < s
  {
    match s
    case Done => None
    case Raise => None
    case Claim(kind, _, rest) => if Logged(log, k, kind) then Some(Point(rest, k + 1, seqs)) else None
    case SendSignal(_, name, rest) =>
      if Logged(log, k, Signal) && log[k].call.extra == Name(name) then Some(Point(rest, k + 1, seqs)) else None
    case RunExec(_, _, _) => SkipAnswered(s, log, k, seqs)
    case Invoke(_, _, _) => SkipAnswered(s, log, k, seqs)
    case Await(_, _, _, _, _, _) => SkipBarrier(s, log, k, seqs, gone)
  }

  function FastForward(s: Script, log: seq<Entry>, k: nat, seqs: map<nat, nat>, gone: Gone): Point
    decreases s
  {
    match Skip(s, log, k, seqs, gone)
    case None => Point(s, k, seqs)
    case Some(p) => FastForward(p.rest, log, p.k, p.seqs, gone)
  }

  // A context that has performed nothing yet, at some point of the log.
  function At(log: seq<Entry>, k: nat, seqs: map<nat, nat>): Context {
    Context(log, map[], [], k, seqs, [])
  }

  // Whether that takes the closure past a step where a cancel request is
  // looked for.
  predicate Checks(s: Script, log: seq<Entry>, k: nat, seqs: map<nat, nat>, gone: Gone)
    decreases s
  {
    match Skip(s, log, k, seqs, gone)
    case None => false
    case Some(p) => Guarded(s) || Checks(p.rest, log, p.k, p.seqs, gone)
  }

  // A world in which no barrier given up on is met, or its clock set back.
  ghost predicate StillGone(gone: Gone, w: World) {
    forall a, q :: (a, q) in gone ==> !w.at(a, q).reached && w.at(a, q).now >= gone[(a, q)]
  }

  lemma BarrierSkipped(s: Script, log: seq<Entry>, k: nat, seqs: map<nat, nat>, gone: Gone, w: World)
    requires s.Await? && Skip(s, log, k, seqs, gone).Some? && !w.cancelled && StillGone(gone, w)
    ensures var p := Skip(s, log, k, seqs, gone).value;
      Step(s, At(log, k, seqs), w) == Go(p.rest, At(log, p.k, p.seqs))
  {
    if !HasPassed(log, s.anchor, Count(seqs, s.anchor), s.required) {
      assert GivenUp(s, log, seqs, gone) && (s.anchor, Count(seqs, s.anchor)) in gone;
    }
  }

  // Running the closure over the recorded part is the same as starting
  // where the record ends.
  lemma {:induction false} SkipsRecorded(
    s: Script, log: seq<Entry>, k: nat, seqs: map<nat, nat>, gone: Gone, w: World)
    requires if w.cancelled then !Checks(s, log, k, seqs, gone) else StillGone(gone, w)
    ensures var p := FastForward(s, log, k, seqs, gone);
      RunPass(s, At(log, k, seqs), w) == RunPass(p.rest, At(log, p.k, p.seqs), w)
    decreases s
  {
    var next := Skip(s, log, k, seqs, gone);
    if next.Some? {
      var p := next.value;
      if s.Await? { BarrierSkipped(s, log, k, seqs, gone, w); }
      assert Step(s, At(log, k, seqs), w) == Go(p.rest, At(log, p.k, p.seqs));
      SkipsRecorded(p.rest, log, p.k, p.seqs, gone, w);
    }
  }

  // A cancelled pass over a log that leads past such a step, or to one, does
  // nothing.
  lemma {:induction false} CancelledDoesNothing(
    s: Script, log: seq<Entry>, k: nat, seqs: map<nat, nat>, gone: Gone, w: World)
    requires w.cancelled && (Checks(s, log, k, seqs, gone) || Guarded(FastForward(s, log, k, seqs, gone).rest))
    ensures var r := RunPass(s, At(log, k, seqs), w);
      r.outcome == Cancelled && r.ctx == At(log, r.ctx.callIndex, r.ctx.seqs)
    decreases s
  {
    if !Guarded(s) {
      var p := Skip(s, log, k, seqs, gone).value;
      assert Step(s, At(log, k, seqs), w) == Go(p.rest, At(log, p.k, p.seqs));
      CancelledDoesNothing(p.rest, log, p.k, p.seqs, gone, w);
    }
  }

  lemma {:induction false} AnchoredOn(s: Script, log: seq<Entry>, k: nat, seqs: map<nat, nat>, gone: Gone)
    requires Anchored(s, k)
    ensures var p := FastForward(s, log, k, seqs, gone); Anchored(p.rest, p.k)
    decreases s
  {
    var next := Skip(s, log, k, seqs, gone);
    if next.Some? { AnchoredOn(next.value.rest, log, next.value.k, next.value.seqs, gone); }
  }

  // ------------------------------------------------------ barriers given up

  // This barrier expires here, and the closure catches that.
  predicate Expires(s: Script, c: Context, seen: Observation) {
    Catches(s) && Check(c, s.anchor, s.required, s.deadline, s.stopping, seen).0.TimedOut?
  }

  // What a pass adds to the barriers given up on.
  function Forgoing(s: Script, c: Context, w: World, gone: Gone): Gone
    decreases s
  {
    match Step(s, c, w)
    case Halt(_, _) => gone
    case Go(rest, d) => Forgoing(rest, d, w, ForgoHere(s, c, w, gone))
  }

  function ForgoHere(s: Script, c: Context, w: World, gone: Gone): Gone {
    if !s.Await? then gone else
    var q := Count(c.seqs, s.anchor);
    if Expires(s, c, w.at(s.anchor, q)) then gone[(s.anchor, q) := w.at(s.anchor, q).now] else gone
  }

  ghost predicate Within(gone: Gone, more: Gone) {
    forall x :: x in gone ==> x in more && more[x] == gone[x]
  }

  // Their positions have been handed out.
  ghost predicate Before(gone: Gone, seqs: map<nat, nat>) {
    forall a, q :: (a, q) in gone ==> q < Count(seqs, a)
  }

  // These are among the barriers the pass gives up on, and the one it ends at
  // is not.
  ghost predicate Covers(gone: Gone, s: Script, c: Context, w: World)
    decreases s
  {
    match Step(s, c, w)
    case Halt(_, _) => s.Await? ==> (s.anchor, Count(c.seqs, s.anchor)) !in gone
    case Go(rest, d) => CoversHere(gone, s, c, w) && Covers(gone, rest, d, w)
  }

  ghost predicate CoversHere(gone: Gone, s: Script, c: Context, w: World) {
    s.Await? ==>
      var x := (s.anchor, Count(c.seqs, s.anchor));
      Expires(s, c, w.at(x.0, x.1)) ==> x in gone && gone[x] == w.at(x.0, x.1).now
  }

  lemma ForgoHereBefore(s: Script, c: Context, w: World, gone: Gone)
    requires Before(gone, c.seqs) && Step(s, c, w).Go?
    ensures var g := ForgoHere(s, c, w, gone);
      Before(g, Step(s, c, w).ctx.seqs) && Within(gone, g) && CoversHere(g, s, c, w)
  {
    if s.Await? { AwaitedLeaves(s, c, w.at(s.anchor, Count(c.seqs, s.anchor))); }
  }

  lemma {:induction false} ForgoingCovers(s: Script, c: Context, w: World, gone: Gone)
    requires Before(gone, c.seqs)
    ensures var g := Forgoing(s, c, w, gone);
      Within(gone, g) && Before(g, RunPass(s, c, w).seqs) && Covers(g, s, c, w)
    decreases s
  {
    var n := Step(s, c, w);
    if n.Go? {
      ForgoHereBefore(s, c, w, gone);
      ForgoingCovers(n.rest, n.ctx, w, ForgoHere(s, c, w, gone));
    }
  }

  // ---------------------------------------------------- where a pass lands

  // Barriers already drawn in `c` have the same record in `d`.
  ghost predicate Kept(c: Context, d: Context) {
    && (forall a :: Count(c.seqs, a) <= Count(d.seqs, a))
    && (forall a, q :: Known(c, a) && q in Held(c, a).barriers && q < Count(c.seqs, a) ==>
          Known(d, a) && q in Held(d, a).barriers && Held(d, a).barriers[q] == Held(c, a).barriers[q])
  }

  // A pending entry has just the committed records of the barriers not drawn
  // yet.
  ghost predicate Copies(c: Context) {
    forall a, q :: a in c.pending && Count(c.seqs, a) <= q ==>
      && (q in c.pending[a].barriers <==> a < |c.committed| && q in c.committed[a].barriers)
      && (q in c.pending[a].barriers ==> c.pending[a].barriers[q] == c.committed[a].barriers[q])
  }

  lemma DrawnCopies(c: Context, a: nat, r: Record)
    requires Good(c) && Copies(c)
    ensures Copies(Drawn(c, a))
    ensures Copies(RecordAtAnchor(Drawn(c, a), a, Count(c.seqs, a), r))
  {
    assert Copies(Drawn(c, a));
  }

  lemma AwaitedCopies(s: Script, c: Context, seen: Observation)
    requires Good(c) && Copies(c) && s.Await?
    ensures Copies(Awaited(s, c, seen).ctx)
  {
    AwaitedLeaves(s, c, seen);
    DrawnCopies(c, s.anchor, Record(s.required, s.deadline, true, seen.now));
    DrawnCopies(c, s.anchor, Record(s.required, s.deadline, false, seen.now));
  }

  lemma CalledCopies(c: Context, expected: Option<Extra>, call: Call, rest: Script)
    requires Copies(c)
    ensures Copies(Called(c, expected, call, rest).ctx)
  {
  }

  lemma AnsweredCopies(s: Script, c: Context, answer: Option<Extra>)
    requires Copies(c) && Asks(s)
    ensures Copies(Answered(s, c, answer).ctx)
  {
  }

  lemma StepCopies(s: Script, c: Context, w: World)
    requires Good(c) && Copies(c)
    ensures Copies(Step(s, c, w).ctx)
  {
    match s
    case Done =>
    case Raise =>
    case Claim(kind, resources, rest) => CalledCopies(c, None, Call(kind, resources, NoExtra), rest);
    case SendSignal(resources, name, rest) =>
      CalledCopies(c, Some(Name(name)), Call(Signal, resources, Name(name)), rest);
    case RunExec(_, _, _) => AnsweredCopies(s, c, Answer(s, w, c.callIndex));
    case Invoke(_, _, _) => AnsweredCopies(s, c, Answer(s, w, c.callIndex));
    case Await(a, _, _, _, _, _) => AwaitedCopies(s, c, w.at(a, Count(c.seqs, a)));
  }

  lemma PerformedKept(c: Context, call: Call)
    requires Good(c) && c.callIndex >= |c.committed|
    ensures Kept(c, Performed(c, call))
  {
  }

  lemma DrawnKept(c: Context, a: nat, r: Record)
    ensures Kept(c, Drawn(c, a))
    ensures Kept(c, RecordAtAnchor(Drawn(c, a), a, Count(c.seqs, a), r))
  {
  }

  lemma CalledKept(c: Context, expected: Option<Extra>, call: Call, rest: Script)
    requires Good(c)
    ensures Kept(c, Called(c, expected, call, rest).ctx)
  {
    if c.callIndex >= |c.committed| { PerformedKept(c, call); }
  }

  lemma AnsweredKept(s: Script, c: Context, answer: Option<Extra>)
    requires Good(c) && Asks(s)
    ensures Kept(c, Answered(s, c, answer).ctx)
  {
    if c.callIndex >= |c.committed| && answer.Some? { PerformedKept(c, AskedCall(s, answer.value)); }
  }

  lemma AwaitedKept(s: Script, c: Context, seen: Observation)
    requires s.Await?
    ensures Kept(c, Awaited(s, c, seen).ctx)
  {
    AwaitedLeaves(s, c, seen);
    DrawnKept(c, s.anchor, Record(s.required, s.deadline, true, seen.now));
    DrawnKept(c, s.anchor, Record(s.required, s.deadline, false, seen.now));
  }

  lemma StepKept(s: Script, c: Context, w: World)
    requires Good(c)
    ensures Kept(c, Step(s, c, w).ctx)
  {
    match s
    case Done =>
    case Raise =>
    case Claim(kind, resources, rest) => CalledKept(c, None, Call(kind, resources, NoExtra), rest);
    case SendSignal(resources, name, rest) =>
      CalledKept(c, Some(Name(name)), Call(Signal, resources, Name(name)), rest);
    case RunExec(_, _, _) => AnsweredKept(s, c, Answer(s, w, c.callIndex));
    case Invoke(_, _, _) => AnsweredKept(s, c, Answer(s, w, c.callIndex));
    case Await(a, _, _, _, _, _) => AwaitedKept(s, c, w.at(a, Count(c.seqs, a)));
  }

  lemma {:induction false} PassKept(s: Script, c: Context, w: World)
    requires Good(c)
    ensures Kept(c, RunPass(s, c, w).ctx)
    decreases s
  {
    StepKept(s, c, w);
    StepGood(s, c, w);
    var n := Step(s, c, w);
    if n.Go? { PassKept(n.rest, n.ctx, w); }
  }

  // A barrier passed now reads as passed in the log this pass will leave.
  lemma PassedRecorded(s: Script, c: Context, seen: Observation, f: Context)
    requires s.Await? && Awaited(s, c, seen).Go? && !Expires(s, c, seen)
    requires Known(c, s.anchor) && Copies(c)
    requires Kept(Awaited(s, c, seen).ctx, f)
    ensures Known(f, s.anchor)
    ensures var q := Count(c.seqs, s.anchor);
      && q in Held(f, s.anchor).barriers
      && Held(f, s.anchor).barriers[q].required == s.required && Held(f, s.anchor).barriers[q].satisfied
  {
    var q := Count(c.seqs, s.anchor);
    var d := Awaited(s, c, seen).ctx;
    assert Known(d, s.anchor) && q in Held(d, s.anchor).barriers && q < Count(d.seqs, s.anchor);
    assert Held(d, s.anchor).barriers[q].required == s.required && Held(d, s.anchor).barriers[q].satisfied;
  }

  // One that expires has its wait in the log already.
  lemma ExpiredCommitted(s: Script, c: Context, seen: Observation)
    requires Expires(s, c, seen) && Copies(c)
    ensures var a, q := s.anchor, Count(c.seqs, s.anchor);
      && Known(c, a) && a < |c.committed| && q in c.committed[a].barriers && q in Held(c, a).barriers
      && Held(c, a).barriers[q] == c.committed[a].barriers[q]
      && var r := c.committed[a].barriers[q];
         r.required == s.required && !r.satisfied && Overdue(s.deadline, Some(r.startedAt), seen.now)
  {
    var a, q, d := s.anchor, Count(c.seqs, s.anchor), Drawn(c, s.anchor);
    assert Known(d, a) && Held(d, a) == Held(c, a) && q in Held(c, a).barriers;
  }

  // And it stays there.
  lemma ExpiredRecorded(s: Script, c: Context, seen: Observation, f: Context, gone: Gone)
    requires Expires(s, c, seen) && Copies(c) && Kept(Awaited(s, c, seen).ctx, f)
    requires Good(f) && f.committed == c.committed
    requires var x := (s.anchor, Count(c.seqs, s.anchor)); x in gone && gone[x] == seen.now
    ensures GivenUp(s, Flushed(f), c.seqs, gone)
  {
    ExpiredCommitted(s, c, seen);
    var a, q, d := s.anchor, Count(c.seqs, s.anchor), Awaited(s, c, seen).ctx;
    assert d == Drawn(c, a) && Held(d, a) == Held(c, a) && q < Count(d.seqs, a);
    assert Held(f, a).barriers[q] == Held(d, a).barriers[q] && Flushed(f)[a] == Held(f, a);
  }

  // A call performed now stands at its index in that log.
  lemma PerformedRecorded(c: Context, call: Call, f: Context)
    requires c.callIndex >= |c.committed| && Good(c)
    requires Good(f) && Further(Performed(c, call), f)
    ensures c.callIndex < |Flushed(f)| && Flushed(f)[c.callIndex].call == call
  {
    var j := c.callIndex - |c.committed|;
    assert f.done[j] == Performed(c, call).done[j];
  }

  // A step past the end of the log is one this log will skip.
  ghost predicate SkippedBy(s: Script, c: Context, n: Next, log: seq<Entry>, gone: Gone) {
    && n.Go? && Skip(s, log, c.callIndex, c.seqs, gone) == Some(Point(n.rest, n.ctx.callIndex, n.ctx.seqs))
    && Anchored(n.rest, n.ctx.callIndex)
  }

  lemma CallLands(s: Script, c: Context, w: World, f: Context, gone: Gone)
    requires Good(c) && c.callIndex >= |c.committed| && Anchored(s, c.callIndex)
    requires !s.Await? && Step(s, c, w).Go? && Good(f) && Further(Step(s, c, w).ctx, f)
    ensures SkippedBy(s, c, Step(s, c, w), Flushed(f), gone)
  {
    match s
    case Claim(kind, resources, _) => PerformedRecorded(c, Call(kind, resources, NoExtra), f);
    case SendSignal(resources, name, _) => PerformedRecorded(c, Call(Signal, resources, Name(name)), f);
    case RunExec(_, _, _) => PerformedRecorded(c, AskedCall(s, Answer(s, w, c.callIndex).value), f);
    case Invoke(_, _, _) => PerformedRecorded(c, AskedCall(s, Answer(s, w, c.callIndex).value), f);
  }

  // Whether a barrier is passed or given up on, a log that says so skips it.
  lemma AwaitSkips(s: Script, c: Context, seen: Observation, log: seq<Entry>, gone: Gone)
    requires s.Await? && Awaited(s, c, seen).Go? && Anchored(s, c.callIndex)
    requires if Expires(s, c, seen) then GivenUp(s, log, c.seqs, gone)
             else HasPassed(log, s.anchor, Count(c.seqs, s.anchor), s.required)
    ensures SkippedBy(s, c, Awaited(s, c, seen), log, gone)
  {
  }

  lemma AwaitLands(s: Script, c: Context, seen: Observation, f: Context, gone: Gone)
    requires Copies(c) && s.Await? && Known(c, s.anchor) && Anchored(s, c.callIndex) && Awaited(s, c, seen).Go?
    requires Good(f) && f.committed == c.committed && Kept(Awaited(s, c, seen).ctx, f)
    requires Expires(s, c, seen) ==>
      var x := (s.anchor, Count(c.seqs, s.anchor)); x in gone && gone[x] == seen.now
    ensures SkippedBy(s, c, Awaited(s, c, seen), Flushed(f), gone)
  {
    if Expires(s, c, seen) {
      ExpiredRecorded(s, c, seen, f, gone);
    } else {
      PassedRecorded(s, c, seen, f);
    }
    AwaitSkips(s, c, seen, Flushed(f), gone);
  }

  lemma StepLands(s: Script, c: Context, w: World, f: Context, gone: Gone)
    requires Good(c) && Copies(c) && c.callIndex >= |c.committed| && Anchored(s, c.callIndex)
    requires Step(s, c, w).Go? && CoversHere(gone, s, c, w)
    requires var d := Step(s, c, w).ctx; Good(f) && Further(d, f) && Kept(d, f)
    ensures SkippedBy(s, c, Step(s, c, w), Flushed(f), gone)
  {
    if s.Await? {
      StepGood(s, c, w);
      assert Known(c, s.anchor);
      AwaitLands(s, c, w.at(s.anchor, Count(c.seqs, s.anchor)), f, gone);
    } else {
      CallLands(s, c, w, f, gone);
    }
  }

  // The barrier a pass suspends at is not recorded as passed.
  lemma StopsAtBarrier(s: Script, c: Context, w: World, gone: Gone)
    requires Good(c) && c.callIndex >= |c.committed| && Anchored(s, c.callIndex)
    requires Step(s, c, w).Halt? && Step(s, c, w).outcome == Suspended && Covers(gone, s, c, w)
    ensures var d := Step(s, c, w).ctx;
      && s.Await? && d.callIndex == c.callIndex && Good(d) && |Flushed(d)| == d.callIndex
      && FastForward(s, Flushed(d), c.callIndex, c.seqs, gone) == Point(s, c.callIndex, c.seqs)
  {
    StepGood(s, c, w);
    assert s.Await? && Known(c, s.anchor);
    assert !HasPassed(Flushed(Step(s, c, w).ctx), s.anchor, Count(c.seqs, s.anchor), s.required);
  }

  // Where a suspended pass has left the closure, as its log will tell.
  ghost predicate LandsAt(s: Script, c: Context, r: Result, gone: Gone) {
    && Good(r.ctx) && |Flushed(r.ctx)| == r.ctx.callIndex
    && FastForward(s, Flushed(r.ctx), c.callIndex, c.seqs, gone) == Point(r.rest, r.ctx.callIndex, r.seqs)
    && r.rest.Await? && Anchored(r.rest, r.ctx.callIndex)
  }

  lemma {:induction false} Lands(s: Script, c: Context, w: World, gone: Gone)
    requires Good(c) && Copies(c) && c.callIndex >= |c.committed| && Anchored(s, c.callIndex)
    requires RunPass(s, c, w).outcome == Suspended && Covers(gone, s, c, w)
    ensures LandsAt(s, c, RunPass(s, c, w), gone)
    decreases s
  {
    StepGood(s, c, w);
    var n := Step(s, c, w);
    if n.Go? {
      StepCopies(s, c, w);
      PassGood(n.rest, n.ctx, w);
      PassKept(n.rest, n.ctx, w);
      StepLands(s, c, w, RunPass(n.rest, n.ctx, w).ctx, gone);
      Lands(n.rest, n.ctx, w, gone);
    } else {
      StopsAtBarrier(s, c, w, gone);
    }
  }

  // A log that has the calls of another, and its records of the barriers
  // drawn so far.
  ghost predicate Extends(log: seq<Entry>, longer: seq<Entry>, seqs: map<nat, nat>) {
    && |log| <= |longer|
    && (forall i :: 0 <= i < |log| ==> longer[i].call == log[i].call)
    && (forall a, q :: 0 <= a < |log| && q < Count(seqs, a) && q in log[a].barriers ==>
          q in longer[a].barriers && longer[a].barriers[q] == log[a].barriers[q])
  }

  lemma {:induction false} DrawsGrow(
    s: Script, log: seq<Entry>, k: nat, seqs: map<nat, nat>, gone: Gone, a: nat)
    ensures Count(seqs, a) <= Count(FastForward(s, log, k, seqs, gone).seqs, a)
    decreases s
  {
    var next := Skip(s, log, k, seqs, gone);
    if next.Some? { DrawsGrow(next.value.rest, log, next.value.k, next.value.seqs, gone, a); }
  }

  lemma SkipExtends(
    s: Script, log: seq<Entry>, longer: seq<Entry>, k: nat, seqs: map<nat, nat>, end: map<nat, nat>, gone: Gone,
    more: Gone)
    requires Extends(log, longer, end) && Within(gone, more) && Skip(s, log, k, seqs, gone).Some?
    requires s.Await? ==> Count(seqs, s.anchor) < Count(end, s.anchor)
    ensures Skip(s, longer, k, seqs, more) == Skip(s, log, k, seqs, gone)
  {
    if s.Await? {
      var a, q := s.anchor, Count(seqs, s.anchor);
      assert q in log[a].barriers && longer[a].barriers[q] == log[a].barriers[q];
    }
  }

  // The longer log leads at least as far, and past the checks of both parts.
  lemma {:induction false} LeadsOn(
    s: Script, log: seq<Entry>, longer: seq<Entry>, k: nat, seqs: map<nat, nat>, gone: Gone, more: Gone)
    requires Extends(log, longer, FastForward(s, log, k, seqs, gone).seqs) && Within(gone, more)
    ensures var p := FastForward(s, log, k, seqs, gone);
      && FastForward(s, longer, k, seqs, more) == FastForward(p.rest, longer, p.k, p.seqs, more)
      && (Checks(s, longer, k, seqs, more) <==>
            Checks(s, log, k, seqs, gone) || Checks(p.rest, longer, p.k, p.seqs, more))
    decreases s
  {
    var next := Skip(s, log, k, seqs, gone);
    if next.Some? {
      var p := next.value;
      if s.Await? { DrawsGrow(p.rest, log, p.k, p.seqs, gone, s.anchor); }
      SkipExtends(s, log, longer, k, seqs, FastForward(s, log, k, seqs, gone).seqs, gone, more);
      LeadsOn(p.rest, log, longer, p.k, p.seqs, gone, more);
    }
  }

  // Those of the barriers given up on whose positions have been handed out.
  function DrawnOf(gone: Gone, seqs: map<nat, nat>): Gone {
    map x | x in gone && x.1 < Count(seqs, x.0) :: gone[x]
  }

  // No other matters for the way there.
  lemma {:induction false} OnlyDrawn(
    s: Script, log: seq<Entry>, k: nat, seqs: map<nat, nat>, gone: Gone, end: map<nat, nat>)
    requires end == FastForward(s, log, k, seqs, gone).seqs
    ensures FastForward(s, log, k, seqs, DrawnOf(gone, end)) == FastForward(s, log, k, seqs, gone)
    ensures Checks(s, log, k, seqs, DrawnOf(gone, end)) == Checks(s, log, k, seqs, gone)
    decreases s
  {
    var next := Skip(s, log, k, seqs, gone);
    if next.Some? {
      var p := next.value;
      if s.Await? { DrawsGrow(p.rest, log, p.k, p.seqs, gone, s.anchor); }
      assert Skip(s, log, k, seqs, DrawnOf(gone, end)) == next;
      OnlyDrawn(p.rest, log, p.k, p.seqs, gone, end);
    }
  }

  lemma FlushedExtends(log: seq<Entry>, seqs: map<nat, nat>, f: Context)
    requires Good(f) && f.committed == log && Kept(At(log, |log|, seqs), f)
    ensures Extends(log, Flushed(f), seqs)
  {
    var c := At(log, |log|, seqs);
    forall a, q | 0 <= a < |log| && q < Count(seqs, a) && q in log[a].barriers
      ensures q in Flushed(f)[a].barriers && Flushed(f)[a].barriers[q] == log[a].barriers[q]
    {
      assert Known(c, a) && q in Held(c, a).barriers;
    }
  }

  // ------------------------------------------------------- torn commits

  // Past the end of the log only barriers can be recorded.
  lemma {:induction false} EndStays(s: Script, log: seq<Entry>, k: nat, seqs: map<nat, nat>, gone: Gone)
    requires k >= |log|
    ensures FastForward(s, log, k, seqs, gone).k == k
    decreases s
  {
    var next := Skip(s, log, k, seqs, gone);
    if next.Some? { EndStays(next.value.rest, log, next.value.k, next.value.seqs, gone); }
  }

  // A row pushed after these was written, so these were.
  lemma WrittenBefore(d: Context, f: Context, g: Context, i: nat)
    requires d.order <= f.order && g.order <= f.order && i !in d.order && i in g.order
    ensures d.order <= g.order
  {
    assert |g.order| <= |d.order| ==> g.order <= d.order;
    assert g.order <= d.order ==> i in d.order;
  }

  // A call performed in a pass stands in the log if its row was written.
  lemma PerformedWritten(c: Context, call: Call, f: Context, g: Context)
    requires Good(c) && c.callIndex >= |c.committed|
    requires Further(Performed(c, call), f) && PartOf(g, f) && c.callIndex < |Flushed(g)|
    ensures Flushed(g)[c.callIndex].call == call
  {
    var j := c.callIndex - |c.committed|;
    assert f.done[j] == Performed(c, call).done[j];
  }

  // A barrier passed before a call whose row was written is recorded.
  lemma PassedWritten(s: Script, c: Context, d: Context, seen: Observation, f: Context, g: Context)
    requires s.Await? && Awaited(s, c, seen) == Go(s.rest, d) && !Expires(s, c, seen)
    requires Copies(c) && Known(c, s.anchor)
    requires Ordered(d) && d.committed == c.committed && c.callIndex !in d.pending
    requires d.order <= f.order && Kept(d, f)
    requires PartOf(g, f) && g.committed == c.committed && c.callIndex in g.order
    ensures HasPassed(Flushed(g), s.anchor, Count(c.seqs, s.anchor), s.required)
  {
    var a, q := s.anchor, Count(c.seqs, s.anchor);
    PassedRecorded(s, c, seen, f);
    WrittenBefore(d, f, g, c.callIndex);
    assert a in d.pending ==> a in d.order && a in g.order;
    if a in g.pending {
      assert Held(g, a) == Held(f, a);
    } else {
      assert HasPassed(c.committed, a, q, s.required);
    }
  }

  // One given up on was in the log before.
  lemma ExpiredWritten(s: Script, c: Context, seen: Observation, f: Context, g: Context, gone: Gone)
    requires Expires(s, c, seen) && Copies(c) && Kept(Awaited(s, c, seen).ctx, f)
    requires PartOf(g, f) && g.committed == c.committed
    requires var x := (s.anchor, Count(c.seqs, s.anchor)); x in gone && gone[x] == seen.now
    ensures GivenUp(s, Flushed(g), c.seqs, gone)
  {
    ExpiredCommitted(s, c, seen);
    var a, q, d := s.anchor, Count(c.seqs, s.anchor), Awaited(s, c, seen).ctx;
    assert d == Drawn(c, a) && Held(d, a) == Held(c, a) && q < Count(d.seqs, a);
    assert Held(f, a).barriers[q] == Held(d, a).barriers[q];
    assert Held(g, a) == Held(f, a) || Held(g, a) == c.committed[a];
    assert Flushed(g)[a] == Held(g, a);
  }

  // The rows of the calls in a torn log were all written.
  lemma RowWritten(g: Context, i: nat)
    requires Good(g) && Ordered(g) && |g.committed| <= i < |Flushed(g)|
    ensures i in g.order
  {
  }

  lemma AskTorn(s: Script, c: Context, w: World, f: Context, g: Context, gone: Gone)
    requires Good(c) && c.callIndex >= |c.committed| && Anchored(s, c.callIndex)
    requires Asks(s) && Step(s, c, w).Go? && Further(Step(s, c, w).ctx, f)
    requires PartOf(g, f) && c.callIndex < |Flushed(g)|
    ensures SkippedBy(s, c, Step(s, c, w), Flushed(g), gone)
  {
    var x := Answer(s, w, c.callIndex).value;
    assert Step(s, c, w) == Go(Following(s, x).value, Performed(c, AskedCall(s, x)));
    PerformedWritten(c, AskedCall(s, x), f, g);
  }

  lemma CallTorn(s: Script, c: Context, w: World, f: Context, g: Context, gone: Gone)
    requires Good(c) && c.callIndex >= |c.committed| && Anchored(s, c.callIndex)
    requires !s.Await? && Step(s, c, w).Go? && Further(Step(s, c, w).ctx, f)
    requires PartOf(g, f) && c.callIndex < |Flushed(g)|
    ensures SkippedBy(s, c, Step(s, c, w), Flushed(g), gone)
  {
    match s
    case Claim(kind, resources, _) => PerformedWritten(c, Call(kind, resources, NoExtra), f, g);
    case SendSignal(resources, name, _) => PerformedWritten(c, Call(Signal, resources, Name(name)), f, g);
    case RunExec(_, _, _) => AskTorn(s, c, w, f, g, gone);
    case Invoke(_, _, _) => AskTorn(s, c, w, f, g, gone);
  }

  lemma AwaitTorn(s: Script, c: Context, d: Context, seen: Observation, f: Context, g: Context)
    requires s.Await? && Awaited(s, c, seen) == Go(s.rest, d) && !Expires(s, c, seen)
    requires Copies(c) && Known(c, s.anchor) && Good(d) && Ordered(d) && d.committed == c.committed
    requires d.callIndex == c.callIndex >= |c.committed| && d.order <= f.order && Kept(d, f)
    requires PartOf(g, f) && g.committed == c.committed && c.callIndex < |Flushed(g)|
    ensures HasPassed(Flushed(g), s.anchor, Count(c.seqs, s.anchor), s.required)
  {
    RowWritten(g, c.callIndex);
    PassedWritten(s, c, d, seen, f, g);
  }

  lemma HaltPerformsNothing(s: Script, c: Context, w: World)
    requires Step(s, c, w).Halt?
    ensures RunPass(s, c, w).ctx.done == c.done
  {
  }

  // A pass some of whose calls from here on were written goes on from here.
  lemma GoesOn(s: Script, c: Context, w: World, g: Context)
    requires Good(c) && c.callIndex >= |c.committed|
    requires PartOf(g, RunPass(s, c, w).ctx) && c.callIndex < |Flushed(g)|
    ensures Step(s, c, w).Go? && g.committed == c.committed
  {
    PassGood(s, c, w);
    var f := RunPass(s, c, w).ctx;
    assert |Flushed(g)| <= |c.committed| + |f.done|;
    if Step(s, c, w).Halt? { HaltPerformsNothing(s, c, w); }
  }

  // What every context of a pass is.
  ghost predicate Sound(c: Context) {
    Good(c) && Ordered(c) && Copies(c)
  }

  lemma StepSound(s: Script, c: Context, w: World)
    requires Sound(c)
    ensures Sound(Step(s, c, w).ctx) && Further(c, Step(s, c, w).ctx)
  {
    StepGood(s, c, w);
    StepOrdered(s, c, w);
    StepCopies(s, c, w);
  }

  lemma AwaitTornSkips(s: Script, c: Context, w: World, f: Context, g: Context, gone: Gone)
    requires Sound(c) && c.callIndex >= |c.committed| && Anchored(s, c.callIndex)
    requires s.Await? && Step(s, c, w).Go? && CoversHere(gone, s, c, w)
    requires var d := Step(s, c, w).ctx; Sound(d) && Further(c, d) && Further(d, f) && Kept(d, f)
    requires PartOf(g, f) && g.committed == c.committed && c.callIndex < |Flushed(g)|
    ensures SkippedBy(s, c, Step(s, c, w), Flushed(g), gone)
  {
    var d, seen := Step(s, c, w).ctx, w.at(s.anchor, Count(c.seqs, s.anchor));
    assert Known(c, s.anchor);
    if Expires(s, c, seen) {
      ExpiredWritten(s, c, seen, f, g, gone);
    } else {
      assert d.callIndex == c.callIndex by { AwaitedLeaves(s, c, seen); }
      AwaitTorn(s, c, d, seen, f, g);
    }
    AwaitSkips(s, c, seen, Flushed(g), gone);
  }

  lemma TornStep(s: Script, c: Context, w: World, g: Context, gone: Gone)
    requires Sound(c) && c.callIndex >= |c.committed| && Anchored(s, c.callIndex) && Covers(gone, s, c, w)
    requires PartOf(g, RunPass(s, c, w).ctx) && c.callIndex < |Flushed(g)|
    ensures var n := Step(s, c, w);
      && SkippedBy(s, c, n, Flushed(g), gone)
      && Sound(n.ctx) && Further(c, n.ctx) && Covers(gone, n.rest, n.ctx, w)
  {
    GoesOn(s, c, w, g);
    StepSound(s, c, w);
    var n := Step(s, c, w);
    PassGood(n.rest, n.ctx, w);
    PassKept(n.rest, n.ctx, w);
    if s.Await? {
      AwaitTornSkips(s, c, w, RunPass(n.rest, n.ctx, w).ctx, g, gone);
    } else {
      CallTorn(s, c, w, RunPass(n.rest, n.ctx, w).ctx, g, gone);
    }
  }

  // Wherever the commit of a pass is torn, the log leads an unchanged closure
  // over all the calls it has.
  lemma {:induction false} TornLands(s: Script, c: Context, w: World, g: Context, gone: Gone)
    requires Sound(c) && c.callIndex >= |c.committed| && Anchored(s, c.callIndex) && Covers(gone, s, c, w)
    requires PartOf(g, RunPass(s, c, w).ctx) && c.callIndex <= |Flushed(g)|
    ensures FastForward(s, Flushed(g), c.callIndex, c.seqs, gone).k == |Flushed(g)|
    decreases s
  {
    if c.callIndex == |Flushed(g)| {
      EndStays(s, Flushed(g), c.callIndex, c.seqs, gone);
    } else {
      TornStep(s, c, w, g, gone);
      TornLands(Step(s, c, w).rest, Step(s, c, w).ctx, w, g, gone);
    }
  }

  lemma PartExtends(log: seq<Entry>, seqs: map<nat, nat>, f: Context, g: Context)
    requires Good(f) && f.committed == log && Kept(At(log, |log|, seqs), f) && PartOf(g, f)
    ensures Extends(log, Flushed(g), seqs)
  {
    var c := At(log, |log|, seqs);
    forall a, q | 0 <= a < |log| && q < Count(seqs, a) && q in log[a].barriers
      ensures q in Flushed(g)[a].barriers && Flushed(g)[a].barriers[q] == log[a].barriers[q]
    {
      assert Known(c, a) && q in Held(c, a).barriers;
      assert Held(g, a) == Held(f, a) || Held(g, a) == log[a];
    }
  }

  // ------------------------------------------------------------- machines

  // A pass that runs to its flush; one the daemon dies in after it has
  // performed some of its calls, with nothing in the log; or one it dies in
  // after some rows of the commit.
  datatype Turn =
    | Ran(script: Script, world: World)
    | Died(script: Script, world: World, after: nat)
    | Torn(script: Script, world: World, rows: nat)

  function Prefix(calls: seq<Call>, n: nat): seq<Call> {
    if n < |calls| then calls[..n] else calls
  }

  function Ending(outcome: Outcome): Option<Outcome> {
    if outcome == Suspended then None else Some(outcome)
  }

  // The operation as the daemon runs it: only the log survives a pass.
  // `kept` are the calls whose rows were written, `lost` the others.
  datatype Operation = Operation(log: seq<Entry>, ended: Option<Outcome>, kept: seq<Call>, lost: seq<Call>)

  const NotBegun := Operation([], None, [], [])

  // The operation after a pass of which this is the result.
  function Passed(m: Operation, r: Result, t: Turn): Operation
    requires Good(r.ctx) && Ordered(r.ctx)
  {
    match t
    case Ran(_, _) => Operation(Flushed(r.ctx), Ending(r.outcome), m.kept + r.ctx.done, m.lost)
    case Died(_, _, after) => m.(lost := m.lost + Prefix(r.ctx.done, after))
    case Torn(_, _, rows) =>
      WrittenGood(r.ctx, rows);
      var g := Written(r.ctx, rows);
      Operation(Flushed(g), None, m.kept + g.done, m.lost + r.ctx.done[|g.done|..])
  }

  function ReplayNext(m: Operation, t: Turn): Operation {
    if m.ended.Some? then m else
    PassGood(t.script, Opened(m.log), t.world);
    PassOrdered(t.script, Opened(m.log), t.world);
    Passed(m, RunPass(t.script, Opened(m.log), t.world), t)
  }

  function Replay(turns: seq<Turn>): Operation {
    if turns == [] then NotBegun
    else ReplayNext(Replay(turns[..|turns| - 1]), turns[|turns| - 1])
  }

  // The operation if its closure could be kept: what is left of it, resumed
  // after the end of the log.  `checked` says that it has come to a command
  // or a barrier; a cancelled operation is not resumed from there.  `gone` are
  // the barriers it has given up on.
  datatype Coroutine = Coroutine(rest: Script, seqs: map<nat, nat>, gone: Gone, checked: bool, op: Operation)

  function Suspension(m: Coroutine): Context {
    At(m.op.log, |m.op.log|, m.seqs)
  }

  function ResumePass(m: Coroutine, w: World): Result {
    if w.cancelled && m.checked then Result(Cancelled, Suspension(m), m.rest, m.seqs)
    else RunPass(m.rest, Suspension(m), w)
  }

  lemma ResumeGood(m: Coroutine, w: World)
    ensures Good(ResumePass(m, w).ctx) && Ordered(ResumePass(m, w).ctx)
    ensures ResumePass(m, w).ctx.committed == m.op.log
  {
    PassGood(m.rest, Suspension(m), w);
    PassOrdered(m.rest, Suspension(m), w);
  }

  function Forgone(m: Coroutine, w: World): Gone {
    if w.cancelled && m.checked then m.gone else Forgoing(m.rest, Suspension(m), w, m.gone)
  }

  // A closure that suspended is kept where it did.  One the daemon died in
  // is kept where it was, moved on by what was written of its pass.
  function ResumeNext(m: Coroutine, t: Turn): Coroutine {
    if m.op.ended.Some? then m else
    ResumeGood(m, t.world);
    var r := ResumePass(m, t.world);
    var op := Passed(m.op, r, t);
    var gone := Forgone(m, t.world);
    match t
    case Ran(_, _) => Coroutine(r.rest, r.seqs, gone, true, op)
    case Died(_, _, _) => m.(op := op)
    case Torn(_, _, _) =>
      var at := FastForward(m.rest, op.log, |m.op.log|, m.seqs, gone);
      Coroutine(at.rest, at.seqs, DrawnOf(gone, at.seqs),
                m.checked || Checks(m.rest, op.log, |m.op.log|, m.seqs, gone), op)
  }

  function ResumeOn(m: Coroutine, turns: seq<Turn>): Coroutine {
    if turns == [] then m else ResumeNext(ResumeOn(m, turns[..|turns| - 1]), turns[|turns| - 1])
  }

  function Beginning(s: Script): Coroutine {
    Coroutine(s, map[], map[], false, NotBegun)
  }

  function Resume(s: Script, turns: seq<Turn>): Coroutine {
    ResumeOn(Beginning(s), turns)
  }

  // What is left of the closure is what the log does not answer, and the log
  // has no call the closure does not make.
  ghost predicate Matches(s: Script, m: Coroutine) {
    m.op.ended.None? ==>
      && FastForward(s, m.op.log, 0, map[], m.gone) == Point(m.rest, |m.op.log|, m.seqs)
      && Anchored(m.rest, |m.op.log|) && Before(m.gone, m.seqs)
      && (Checks(s, m.op.log, 0, map[], m.gone) ==> m.checked)
      && (m.checked ==> Checks(s, m.op.log, 0, map[], m.gone) || m.rest.Await?)
  }

  // A commit does not depend on where the pass stands in the closure.
  function Rows(c: Context): Context {
    c.(callIndex := 0, seqs := map[])
  }

  // No barrier the closure has given up on is met in this pass.
  ghost predicate Agrees(m: Coroutine, w: World) {
    m.op.ended.None? ==> w.cancelled || StillGone(m.gone, w)
  }

  // Then one pass from the start of the closure does what resuming it does.
  lemma SamePass(s: Script, m: Coroutine, w: World)
    requires m.op.ended.None? && Matches(s, m) && Agrees(m, w)
    ensures var r := RunPass(s, Opened(m.op.log), w);
      r.outcome == ResumePass(m, w).outcome && Rows(r.ctx) == Rows(ResumePass(m, w).ctx)
  {
    if w.cancelled && m.checked {
      CancelledDoesNothing(s, m.op.log, 0, map[], m.gone, w);
    } else {
      SkipsRecorded(s, m.op.log, 0, map[], m.gone, w);
    }
  }

  lemma SameFlushed(c: Context, d: Context)
    requires Rows(c) == Rows(d) && Good(c) && Good(d)
    ensures Flushed(c) == Flushed(d)
  {
  }

  lemma SameWritten(c: Context, d: Context, rows: nat)
    requires Rows(c) == Rows(d) && Good(c) && Ordered(c) && Good(d) && Ordered(d)
    ensures Written(c, rows).done == Written(d, rows).done
    ensures Good(Written(c, rows)) && Good(Written(d, rows))
    ensures Flushed(Written(c, rows)) == Flushed(Written(d, rows))
  {
    WrittenGood(c, rows);
    WrittenGood(d, rows);
    assert Rows(Written(c, rows)) == Rows(Written(d, rows));
    SameFlushed(Written(c, rows), Written(d, rows));
  }

  lemma SamePassed(m: Operation, r: Result, q: Result, t: Turn)
    requires Good(r.ctx) && Ordered(r.ctx) && Good(q.ctx) && Ordered(q.ctx)
    requires r.outcome == q.outcome && Rows(r.ctx) == Rows(q.ctx)
    ensures Passed(m, r, t) == Passed(m, q, t)
  {
    match t
    case Ran(_, _) => SameFlushed(r.ctx, q.ctx);
    case Died(_, _, _) =>
    case Torn(_, _, rows) => SameWritten(r.ctx, q.ctx, rows);
  }

  lemma SameNext(s: Script, m: Coroutine, t: Turn)
    requires Matches(s, m) && t.script == s && Agrees(m, t.world)
    ensures ReplayNext(m.op, t) == ResumeNext(m, t).op
  {
    if m.op.ended.None? {
      PassGood(s, Opened(m.op.log), t.world);
      PassOrdered(s, Opened(m.op.log), t.world);
      ResumeGood(m, t.world);
      SamePass(s, m, t.world);
      SamePassed(m.op, RunPass(s, Opened(m.op.log), t.world), ResumePass(m, t.world), t);
    }
  }

  lemma SuspendedMatches(s: Script, m: Coroutine, w: World)
    requires m.op.ended.None? && Matches(s, m)
    requires ResumePass(m, w).outcome == Suspended
    ensures Matches(s, ResumeNext(m, Ran(s, w)))
  {
    var log, c, gone := m.op.log, Suspension(m), Forgone(m, w);
    var f := RunPass(m.rest, c, w).ctx;
    PassGood(m.rest, c, w);
    PassKept(m.rest, c, w);
    ForgoingCovers(m.rest, c, w, m.gone);
    Lands(m.rest, c, w, gone);
    FlushedExtends(log, m.seqs, f);
    LeadsOn(s, log, Flushed(f), 0, map[], m.gone, gone);
  }

  lemma NothingTorn(m: Coroutine, rows: nat)
    ensures Good(Written(Suspension(m), rows)) && Flushed(Written(Suspension(m), rows)) == m.op.log
  {
    WrittenGood(Suspension(m), rows);
  }

  lemma StartSound(log: seq<Entry>, seqs: map<nat, nat>)
    ensures Sound(At(log, |log|, seqs))
  {
  }

  lemma PartReaches(rest: Script, log: seq<Entry>, seqs: map<nat, nat>, w: World, g: Context, gone: Gone)
    requires Anchored(rest, |log|) && PartOf(g, RunPass(rest, At(log, |log|, seqs), w).ctx)
    requires Covers(gone, rest, At(log, |log|, seqs), w)
    ensures Extends(log, Flushed(g), seqs) && FastForward(rest, Flushed(g), |log|, seqs, gone).k == |Flushed(g)|
  {
    var c := At(log, |log|, seqs);
    StartSound(log, seqs);
    PassGood(rest, c, w);
    PassKept(rest, c, w);
    PartExtends(log, seqs, RunPass(rest, c, w).ctx, g);
    TornLands(rest, c, w, g, gone);
  }

  // What a torn commit leaves of a pass leads the closure to its end.
  lemma TornReaches(m: Coroutine, w: World, rows: nat)
    requires Anchored(m.rest, |m.op.log|) && Before(m.gone, m.seqs)
    ensures var g, gone := Written(ResumePass(m, w).ctx, rows), Forgone(m, w);
      && Good(g) && Extends(m.op.log, Flushed(g), m.seqs) && Within(m.gone, gone)
      && FastForward(m.rest, Flushed(g), |m.op.log|, m.seqs, gone).k == |Flushed(g)|
  {
    if w.cancelled && m.checked {
      NothingTorn(m, rows);
      EndStays(m.rest, m.op.log, |m.op.log|, m.seqs, m.gone);
    } else {
      ResumeGood(m, w);
      WrittenGood(ResumePass(m, w).ctx, rows);
      ForgoingCovers(m.rest, Suspension(m), w, m.gone);
      PartReaches(m.rest, m.op.log, m.seqs, w, Written(ResumePass(m, w).ctx, rows), Forgone(m, w));
    }
  }

  lemma TornMatches(s: Script, m: Coroutine, w: World, rows: nat)
    requires m.op.ended.None? && Matches(s, m)
    ensures Matches(s, ResumeNext(m, Torn(s, w, rows)))
  {
    TornReaches(m, w, rows);
    var log, gone := Flushed(Written(ResumePass(m, w).ctx, rows)), Forgone(m, w);
    LeadsOn(s, m.op.log, log, 0, map[], m.gone, gone);
    AnchoredOn(m.rest, log, |m.op.log|, m.seqs, gone);
    OnlyDrawn(s, log, 0, map[], gone, FastForward(s, log, 0, map[], gone).seqs);
  }

  lemma MatchesNext(s: Script, m: Coroutine, t: Turn)
    requires Matches(s, m) && t.script == s
    ensures Matches(s, ResumeNext(m, t))
  {
    if m.op.ended.None? {
      match t
      case Ran(_, w) => if ResumePass(m, w).outcome == Suspended { SuspendedMatches(s, m, w); }
      case Died(_, _, _) =>
      case Torn(_, w, rows) => TornMatches(s, m, w, rows);
    }
  }

  // Wherever a kept closure is, its log leads a replayed one there, if that
  // gives up on the same barriers.
  lemma {:induction false} AlwaysMatches(s: Script, turns: seq<Turn>)
    requires Anchored(s, 0)
    requires forall t :: t in turns ==> t.script == s
    ensures Matches(s, Resume(s, turns))
  {
    if turns != [] {
      var n := |turns| - 1;
      AlwaysMatches(s, turns[..n]);
      assert turns[n] in turns;
      MatchesNext(s, Resume(s, turns[..n]), turns[n]);
    } else {
      assert Skip(s, [], 0, map[], map[]).None?;
    }
  }

  // No pass meets a barrier that an earlier one gave up on.
  ghost predicate Steady(s: Script, turns: seq<Turn>) {
    turns == [] ||
    var n := |turns| - 1;
    Steady(s, turns[..n]) && Agrees(Resume(s, turns[..n]), turns[n].world)
  }

  // Replaying the closure from its first statement on every pass is
  // indistinguishable from suspending it and resuming it where it stopped,
  // or where the log ends after a torn commit.
  lemma {:induction false} ReplayIsResumption(s: Script, turns: seq<Turn>)
    requires Anchored(s, 0) && Steady(s, turns)
    requires forall t :: t in turns ==> t.script == s
    ensures Replay(turns) == Resume(s, turns).op
    ensures Matches(s, Resume(s, turns))
  {
    AlwaysMatches(s, turns);
    if turns != [] {
      var n := |turns| - 1;
      var m, t := Resume(s, turns[..n]), turns[n];
      ReplayIsResumption(s, turns[..n]);
      assert t in turns;
      SameNext(s, m, t);
    }
  }

  // Every recorded call was performed and its row written by exactly one
  // pass, in the order of the log, whatever scripts the passes ran.
  lemma {:induction false} RecordedOnce(turns: seq<Turn>)
    ensures Calls(Replay(turns).log) == Replay(turns).kept
  {
    if turns != [] {
      var n := |turns| - 1;
      RecordedOnce(turns[..n]);
      RecordedNext(Replay(turns[..n]), turns[n]);
    }
  }

  lemma RecordedNext(m: Operation, t: Turn)
    requires Calls(m.log) == m.kept
    ensures Calls(ReplayNext(m, t).log) == ReplayNext(m, t).kept
  {
    if m.ended.None? {
      var f := RunPass(t.script, Opened(m.log), t.world).ctx;
      PassGood(t.script, Opened(m.log), t.world);
      PassOrdered(t.script, Opened(m.log), t.world);
      match t
      case Ran(_, _) => FlushedCalls(f);
      case Died(_, _, _) =>
      case Torn(_, _, rows) =>
        WrittenGood(f, rows);
        FlushedCalls(Written(f, rows));
    }
  }

  // A pass past the end of the log finds nothing to contradict it.
  lemma {:induction false} FreshNeverDiverges(s: Script, c: Context, w: World)
    requires Good(c) && c.callIndex >= |c.committed|
    ensures RunPass(s, c, w).outcome != Diverged
    decreases s
  {
    StepGood(s, c, w);
    var n := Step(s, c, w);
    if n.Go? { FreshNeverDiverges(n.rest, n.ctx, w); }
  }

  // The log an unchanged closure wrote does not contradict it.
  lemma {:induction false} NeverDiverges(s: Script, turns: seq<Turn>)
    requires Anchored(s, 0) && Steady(s, turns)
    requires forall t :: t in turns ==> t.script == s
    ensures Replay(turns).ended != Some(Diverged)
  {
    ReplayIsResumption(s, turns);
    if turns != [] {
      var n := |turns| - 1;
      var m, t := Resume(s, turns[..n]), turns[n];
      ReplayIsResumption(s, turns[..n]);
      NeverDiverges(s, turns[..n]);
      FreshNeverDiverges(m.rest, Suspension(m), t.world);
      ResumeGood(m, t.world);
    }
  }

  // A closure the log contradicts is stopped before it performs anything.
  lemma {:induction false} DivergedDoesNothing(s: Script, c: Context, w: World)
    requires Good(c) && RunPass(s, c, w).outcome == Diverged
    ensures RunPass(s, c, w).ctx.done == [] && c.done == []
    decreases s
  {
    StepGood(s, c, w);
    var n := Step(s, c, w);
    if n.Go? { DivergedDoesNothing(n.rest, n.ctx, w); }
  }
}
