/** Browser sessions: registration by the connection handler, heartbeats from tasks the handler
    spawned (which may outlive it), and the reaper that drops sessions gone quiet. Whoever takes
    a session out of the registry announces the stop. */
module WebSessions {
  import opened Common

  const STALE_CUTOFF := 600

  type Id = nat
  type Timestamp = t: int | TIMESTAMP_MIN <= t witness 0

  datatype Mode = Read | Write | Dangerous

  datatype Entry = Entry(lastSeen: Timestamp, mode: Mode)

  type Sessions = map<Id, Entry>

  datatype HeartbeatOutcome = Missing | Alive(modeChange: Option<Mode>)

  /** A session registers in the safest mode, last seen when it connected. */
  function Registered(m: Sessions, id: Id, now: Timestamp): Sessions {
    m[id := Entry(now, Read)]
  }

  /** The registry without the session, and whether this took it out. */
  function Removed(m: Sessions, id: Id): (Sessions, bool) {
    (m - {id}, id in m)
  }

  function Touched(m: Sessions, id: Id, now: Timestamp, mode: Option<Mode>): (Sessions, HeartbeatOutcome) {
    if id !in m then (m, Missing)
    else if mode.Some? && mode.value != m[id].mode then (m[id := Entry(now, mode.value)], Alive(mode))
    else (m[id := m[id].(lastSeen := now)], Alive(None))
  }

  function Cutoff(now: Timestamp): Timestamp {
    if now - STALE_CUTOFF >= TIMESTAMP_MIN then now - STALE_CUTOFF else now
  }

  function Stale(m: Sessions, now: Timestamp): set<Id> {
    set id | id in m && m[id].lastSeen < Cutoff(now)
  }

  class WebSessionRegistry {
    var sessions: Sessions

    constructor ()
      ensures sessions == map[]
    {
      sessions := map[];
    }

    method Insert(id: Id, connectedAt: Timestamp)
      modifies this
      ensures sessions == Registered(old(sessions), id, connectedAt)
    {
      sessions := sessions[id := Entry(connectedAt, Read)];
    }

    method Remove(id: Id) returns (removed: bool)
      modifies this
      ensures (sessions, removed) == Removed(old(sessions), id)
    {
      removed := id in sessions;
      sessions := sessions - {id};
    }

    method Touch(id: Id, now: Timestamp, mode: Option<Mode>) returns (outcome: HeartbeatOutcome)
      modifies this
      ensures (sessions, outcome) == Touched(old(sessions), id, now, mode)
    {
      if id !in sessions {
        return Missing;
      }
      var entry := sessions[id].(lastSeen := now);
      var change := None;
      if mode.Some? && entry.mode != mode.value {
        entry := entry.(mode := mode.value);
        change := mode;
      }
      sessions := sessions[id := entry];
      return Alive(change);
    }

    /** The keys of the stale sessions, in no particular order. */
    method CollectStale(cutoff: Timestamp) returns (stale: seq<Id>)
      ensures Distinct(stale)
      ensures forall id :: id in stale <==> id in sessions && sessions[id].lastSeen < cutoff
    {
      var unread := sessions.Keys;
      stale := [];
      while unread != {}
        invariant unread <= sessions.Keys
        invariant Distinct(stale)
        invariant forall id :: id in stale <==> id in sessions && id !in unread && sessions[id].lastSeen < cutoff
        decreases |unread|
      {
        var id :| id in unread;
        unread := unread - {id};
        if sessions[id].lastSeen < cutoff {
          stale := stale + [id];
        }
      }
    }

    /** Exactly the stale sessions leave, each listed once. */
    method ReapStale(now: Timestamp) returns (stale: seq<Id>)
      modifies this
      ensures sessions == old(sessions) - Stale(old(sessions), now)
      ensures Distinct(stale) && Elements(stale) == Stale(old(sessions), now)
    {
      stale := CollectStale(Cutoff(now));
      ghost var before := sessions;
      for i := 0 to |stale|
        invariant sessions == before - Elements(stale[..i])
      {
        sessions := sessions - {stale[i]};
        assert stale[..i + 1] == stale[..i] + [stale[i]];
      }
      assert stale[..|stale|] == stale;
    }
  }

  // ---------------------------------------------------------------------
  // Interleavings
  // ---------------------------------------------------------------------

  /** A connection handler: about to publish its start, serving, about to publish its stop, or
      returned. */
  datatype Handler = Starting | Open | Stopping | Finished

  /** What is known of a session's mode outside the registry: `announced`, the mode carried by its last
      published Started or ModeChanged event; for checking, the changes `applied` in the order they
      took the lock, and the positions in `applied` of the changes published, as they were `told`. */
  datatype Modes = Modes(announced: Option<Mode>, applied: seq<Mode>, told: seq<nat>)

  /** The change has been applied and its heartbeat task has not published it yet. */
  predicate Unpublished(m: Modes, change: nat) {
    change < |m.applied| && change !in m.told
  }

  function Changed(m: Modes, change: Option<Mode>): Modes {
    if change.None? then m else m.(applied := m.applied + [change.value])
  }

  function Told(m: Modes, change: nat): Modes
    requires Unpublished(m, change)
  {
    m.(announced := Some(m.applied[change]), told := m.told + [change])
  }

  /** `reaping` is the part of the reaper's last catch it has not published yet; `stopped` is the
      sequence of published WebSessionStopped events. For checking, `seen` keeps the timestamps
      applied to a session in the order they took the lock. */
  datatype State = State(
    sessions: Sessions, handlers: map<Id, Handler>, reaping: seq<Id>, stopped: seq<Id>,
    seen: map<Id, seq<Timestamp>>, modes: map<Id, Modes>)

  datatype Step =
    | Start(id: Id, now: Timestamp)
    | PublishStarted(id: Id)
    | Heartbeat(id: Id, now: Timestamp, mode: Option<Mode>)
    | PublishMode(id: Id, change: nat)
    | Reap(now: Timestamp, order: seq<Id>)
    | PublishReaped
    | Close(id: Id)
    | PublishClosed(id: Id)

  const Init := State(map[], map[], [], [], map[], map[])

  function Started(s: State, id: Id, now: Timestamp): State {
    s.(sessions := Registered(s.sessions, id, now), handlers := s.handlers[id := Starting],
       seen := s.seen[id := [now]], modes := s.modes[id := Modes(None, [], [])])
  }

  /** The locked part of a heartbeat; a change it makes is not published yet. */
  function Beat(s: State, id: Id, now: Timestamp, mode: Option<Mode>): State {
    var (sessions, outcome) := Touched(s.sessions, id, now, mode);
    if outcome.Missing? || id !in s.seen || id !in s.modes then s.(sessions := sessions)
    else s.(sessions := sessions, seen := s.seen[id := s.seen[id] + [now]],
            modes := s.modes[id := Changed(s.modes[id], outcome.modeChange)])
  }

  function Opened(s: State, id: Id): State
    requires id in s.modes
  {
    s.(handlers := s.handlers[id := Open], modes := s.modes[id := s.modes[id].(announced := Some(Read))])
  }

  function Published(s: State, id: Id, change: nat): State
    requires id in s.modes && Unpublished(s.modes[id], change)
  {
    s.(modes := s.modes[id := Told(s.modes[id], change)])
  }

  function Closed(s: State, id: Id): State {
    var (sessions, removed) := Removed(s.sessions, id);
    s.(sessions := sessions, handlers := s.handlers[id := if removed then Stopping else Finished])
  }

  /** The handler has published the start and serves, or did once. */
  predicate Serves(s: State, id: Id) {
    id in s.modes && s.modes[id].announced.Some?
  }

  predicate Lists(order: seq<Id>, ids: set<Id>) {
    Distinct(order) && (forall id :: id in order ==> id in ids) && (forall id :: id in ids ==> id in order)
  }

  function Swept(s: State, now: Timestamp, order: seq<Id>): State {
    var stale := Stale(s.sessions, now);
    if s.reaping != [] || !Lists(order, stale) then s
    else s.(sessions := s.sessions - stale, reaping := order)
  }

  /** One locked section or one publish; a step that is not enabled changes nothing. A heartbeat is
      enabled once its handler serves, whatever became of it since, and the changes of a session
      may be published in any order. The reaper lists the stale sessions in any `order`, and looks
      again only when it has published all of its last catch. */
  function Next(s: State, step: Step): State {
    match step
    case Start(id, now) => if id in s.handlers then s else Started(s, id, now)
    case PublishStarted(id) =>
      if id !in s.handlers || s.handlers[id] != Starting || id !in s.modes then s else Opened(s, id)
    case Heartbeat(id, now, mode) => if !Serves(s, id) then s else Beat(s, id, now, mode)
    case PublishMode(id, change) =>
      if !Serves(s, id) || !Unpublished(s.modes[id], change) then s else Published(s, id, change)
    case Reap(now, order) => Swept(s, now, order)
    case PublishReaped =>
      if s.reaping == [] then s
      else s.(reaping := s.reaping[1..], stopped := s.stopped + [s.reaping[0]])
    case Close(id) => if id !in s.handlers || s.handlers[id] != Open then s else Closed(s, id)
    case PublishClosed(id) =>
      if id !in s.handlers || s.handlers[id] != Stopping then s
      else s.(handlers := s.handlers[id := Finished], stopped := s.stopped + [id])
  }

  function From(s: State, steps: seq<Step>): State {
    if steps == [] then s else Next(From(s, steps[..|steps| - 1]), steps[|steps| - 1])
  }

  function After(steps: seq<Step>): State {
    From(Init, steps)
  }

  /** How many times the stop of `id` has been announced, is about to be, or is yet to be earned. */
  function Stops(s: State, id: Id): nat {
    (if id in s.sessions then 1 else 0)
    + multiset(s.reaping)[id]
    + (if id in s.handlers && s.handlers[id] == Stopping then 1 else 0)
    + multiset(s.stopped)[id]
  }

  /** The mode a run of changes leaves a session in. */
  function ModeAfter(changes: seq<Mode>): Mode {
    if changes == [] then Read else changes[|changes| - 1]
  }

  predicate Inv(s: State) {
    && s.sessions.Keys <= s.handlers.Keys
    && s.seen.Keys == s.handlers.Keys == s.modes.Keys
    && (forall id :: id in s.handlers && s.handlers[id] == Starting ==> !Serves(s, id))
    && (forall id :: id in s.handlers && (s.handlers[id] == Stopping || s.handlers[id] == Finished) ==>
          id !in s.sessions)
    && (forall id :: id in s.sessions ==>
          && s.seen[id] != [] && s.sessions[id].lastSeen == s.seen[id][|s.seen[id]| - 1]
          && s.sessions[id].mode == ModeAfter(s.modes[id].applied))
  }

  lemma InvUpdated(s: State, id: Id, entry: Entry, times: seq<Timestamp>, m: Modes)
    requires Inv(s) && id in s.sessions && (m.announced.Some? <==> Serves(s, id))
    requires times != [] && entry.lastSeen == times[|times| - 1] && entry.mode == ModeAfter(m.applied)
    ensures Inv(s.(sessions := s.sessions[id := entry], seen := s.seen[id := times], modes := s.modes[id := m]))
  {
  }

  lemma InvBeat(s: State, id: Id, now: Timestamp, mode: Option<Mode>)
    requires Inv(s)
    ensures Inv(Beat(s, id, now, mode))
  {
    if id in s.sessions {
      var (sessions, outcome) := Touched(s.sessions, id, now, mode);
      InvUpdated(s, id, sessions[id], s.seen[id] + [now], Changed(s.modes[id], outcome.modeChange));
    }
  }

  lemma InvStarted(s: State, id: Id, now: Timestamp)
    requires Inv(s) && id !in s.handlers
    ensures Inv(Started(s, id, now))
  {
  }

  lemma InvClosed(s: State, id: Id)
    requires Inv(s) && id in s.handlers
    ensures Inv(Closed(s, id))
  {
  }

  lemma InvSwept(s: State, now: Timestamp, order: seq<Id>)
    requires Inv(s)
    ensures Inv(Swept(s, now, order))
  {
  }

  lemma InvOpened(s: State, id: Id)
    requires Inv(s) && id in s.handlers && s.handlers[id] == Starting
    ensures Inv(Opened(s, id))
  {
  }

  lemma InvPublished(s: State, id: Id, change: nat)
    requires Inv(s) && Serves(s, id) && Unpublished(s.modes[id], change)
    ensures Inv(Published(s, id, change))
  {
  }

  lemma InvNext(s: State, step: Step)
    requires Inv(s)
    ensures Inv(Next(s, step))
  {
    match step
    case Start(id, now) => if id !in s.handlers { InvStarted(s, id, now); }
    case Heartbeat(id, now, mode) => InvBeat(s, id, now, mode);
    case Reap(now, order) => InvSwept(s, now, order);
    case Close(id) => if id in s.handlers { InvClosed(s, id); }
    case PublishStarted(id) => if id in s.handlers && s.handlers[id] == Starting { InvOpened(s, id); }
    case PublishMode(id, change) =>
      if Serves(s, id) && Unpublished(s.modes[id], change) { InvPublished(s, id, change); }
    case _ =>
  }

  lemma HandlersNext(s: State, step: Step, id: Id)
    ensures id in Next(s, step).handlers <==> id in s.handlers || (step.Start? && step.id == id)
  {
  }

  lemma {:induction false} Reachable(steps: seq<Step>)
    ensures Inv(After(steps))
  {
    if steps != [] {
      Reachable(steps[..|steps| - 1]);
      InvNext(After(steps[..|steps| - 1]), steps[|steps| - 1]);
    }
  }

  lemma StopsSwept(s: State, now: Timestamp, order: seq<Id>, id: Id)
    ensures Stops(Swept(s, now, order), id) == Stops(s, id)
  {
    if Lists(order, Stale(s.sessions, now)) {
      DistinctCount(order, id);
      assert id in order <==> id in Stale(s.sessions, now);
    }
  }

  lemma StopsBeat(s: State, other: Id, now: Timestamp, mode: Option<Mode>, id: Id)
    ensures Stops(Beat(s, other, now, mode), id) == Stops(s, id)
  {
  }

  lemma StopsPublished(s: State, id: Id)
    ensures Stops(Next(s, PublishReaped), id) == Stops(s, id)
  {
    if s.reaping != [] {
      assert s.reaping == [s.reaping[0]] + s.reaping[1..];
    }
  }

  /** No step makes or loses a stop: starting a session earns one, and from then on it moves. */
  lemma StopsConserved(s: State, step: Step, id: Id)
    requires Inv(s)
    ensures Stops(Next(s, step), id) ==
            Stops(s, id) + if step.Start? && step.id == id && id !in s.handlers then 1 else 0
  {
    match step
    case Reap(now, order) => StopsSwept(s, now, order, id);
    case PublishReaped => StopsPublished(s, id);
    case Heartbeat(other, now, mode) => StopsBeat(s, other, now, mode, id);
    case _ =>
  }

  /** In every interleaving there is exactly one stop per started session: still to be earned,
      waiting to be published, or published. */
  lemma {:induction false} ExactlyOneStop(steps: seq<Step>, id: Id)
    ensures Stops(After(steps), id) == if id in After(steps).handlers then 1 else 0
  {
    if steps != [] {
      var p := steps[..|steps| - 1];
      ExactlyOneStop(p, id);
      Reachable(p);
      StopsConserved(After(p), steps[|steps| - 1], id);
      HandlersNext(After(p), steps[|steps| - 1], id);
    }
  }

  /** At most one WebSessionStopped per session at any time, and exactly one once its handler has
      returned and the reaper has published its catch. */
  lemma StoppedOnce(steps: seq<Step>, id: Id)
    ensures multiset(After(steps).stopped)[id] <= 1
    ensures var s := After(steps);
            id in s.handlers && s.handlers[id] == Finished && id !in s.reaping ==> multiset(s.stopped)[id] == 1
  {
    ExactlyOneStop(steps, id);
    Reachable(steps);
  }

  /** The session has been started and has left the registry. */
  predicate Gone(s: State, id: Id) {
    id in s.handlers && id !in s.sessions
  }

  lemma GoneNext(s: State, step: Step, id: Id)
    requires Gone(s, id)
    ensures Gone(Next(s, step), id)
  {
  }

  /** A session that left the registry never comes back, whatever arrives late. */
  lemma {:induction false} NeverReregistered(steps: seq<Step>, later: seq<Step>, id: Id)
    requires Gone(After(steps), id)
    ensures Gone(From(After(steps), later), id)
  {
    if later != [] {
      NeverReregistered(steps, later[..|later| - 1], id);
      GoneNext(From(After(steps), later[..|later| - 1]), later[|later| - 1], id);
    }
  }

  // ---------------------------------------------------------------------
  // What peers are told of a session's mode
  // ---------------------------------------------------------------------

  function ModeTold(m: Modes): Mode
    requires forall i :: 0 <= i < |m.told| ==> m.told[i] < |m.applied|
  {
    if m.told == [] then Read else m.applied[m.told[|m.told| - 1]]
  }

  /** The mode told is that of the last change published; a change is published at most once, and is
      a change from the mode before it. */
  ghost predicate ModesInv(m: Modes) {
    && Distinct(m.told) && (forall i :: 0 <= i < |m.told| ==> m.told[i] < |m.applied|)
    && (forall i :: 0 <= i < |m.applied| ==> m.applied[i] != ModeAfter(m.applied[..i]))
    && (if m.announced.Some? then m.announced.value == ModeTold(m) else m.applied == [])
  }

  lemma ModesChanged(m: Modes, mode: Mode)
    requires ModesInv(m) && m.announced.Some? && mode != ModeAfter(m.applied)
    ensures ModesInv(Changed(m, Some(mode)))
  {
    var after := m.applied + [mode];
    forall i | 0 <= i < |after| ensures after[i] != ModeAfter(after[..i]) {
      assert after[..i] == m.applied[..i];
      assert m.applied[..|m.applied|] == m.applied;
    }
  }

  lemma ModesTold(m: Modes, change: nat)
    requires ModesInv(m) && Unpublished(m, change)
    ensures ModesInv(Told(m, change))
  {
  }

  lemma PublishStartedModes(s: State, other: Id, id: Id)
    requires Inv(s)
    requires id in s.modes ==> ModesInv(s.modes[id])
    ensures var s' := Next(s, PublishStarted(other)); id in s'.modes ==> ModesInv(s'.modes[id])
  {
  }

  lemma ModesNext(s: State, step: Step, id: Id)
    requires Inv(s) && (id in s.modes ==> ModesInv(s.modes[id]))
    ensures id in Next(s, step).modes ==> ModesInv(Next(s, step).modes[id])
  {
    match step
    case Heartbeat(other, now, mode) =>
      if other == id && Serves(s, id) && id in s.sessions && mode.Some? && mode.value != s.sessions[id].mode {
        ModesChanged(s.modes[id], mode.value);
      }
    case PublishMode(other, change) =>
      if other == id && Serves(s, id) && Unpublished(s.modes[id], change) { ModesTold(s.modes[id], change); }
    case PublishStarted(other) => PublishStartedModes(s, other, id);
    case _ =>
  }

  lemma {:induction false} ModesReachable(steps: seq<Step>, id: Id)
    ensures id in After(steps).modes ==> ModesInv(After(steps).modes[id])
  {
    if steps != [] {
      var p := steps[..|steps| - 1];
      ModesReachable(p, id);
      Reachable(p);
      ModesNext(After(p), steps[|steps| - 1], id);
    }
  }

  /** Every change of the mode has been published. */
  ghost predicate AllTold(m: Modes) {
    forall change: nat :: change < |m.applied| ==> change in m.told
  }

  /** The change published last carries the mode of the change applied last. */
  predicate LastToldIsLast(m: Modes) {
    m.told != [] && m.applied != [] && m.told[|m.told| - 1] < |m.applied| ==>
      m.applied[m.told[|m.told| - 1]] == m.applied[|m.applied| - 1]
  }

  /** With nothing left to publish, peers believe the registered mode exactly when the change
      published last has the mode of the one applied last. */
  lemma AnnouncedModeExactly(steps: seq<Step>, id: Id)
    requires var s := After(steps); id in s.sessions && Serves(s, id) && AllTold(s.modes[id])
    ensures var s := After(steps);
            s.modes[id].announced == Some(s.sessions[id].mode) <==> LastToldIsLast(s.modes[id])
  {
    Reachable(steps);
    ModesReachable(steps, id);
    var m := After(steps).modes[id];
    assert 0 < |m.applied| ==> 0 in m.told;
  }

  /** Every change is published in its turn, oldest first. */
  predicate InTurn(steps: seq<Step>) {
    steps == [] || (InTurn(steps[..|steps| - 1]) && TakesTurn(After(steps[..|steps| - 1]), steps[|steps| - 1]))
  }

  predicate TakesTurn(s: State, step: Step) {
    step.PublishMode? && Serves(s, step.id) && Unpublished(s.modes[step.id], step.change) ==>
      step.change == |s.modes[step.id].told|
  }

  predicate ToldInOrder(m: Modes) {
    forall i :: 0 <= i < |m.told| ==> m.told[i] == i
  }

  lemma ToldInOrderNext(s: State, step: Step, id: Id)
    requires TakesTurn(s, step) && (id in s.modes ==> ToldInOrder(s.modes[id]))
    ensures id in Next(s, step).modes ==> ToldInOrder(Next(s, step).modes[id])
  {
  }

  lemma {:induction false} InTurnInOrder(steps: seq<Step>, id: Id)
    requires InTurn(steps)
    ensures id in After(steps).modes ==> ToldInOrder(After(steps).modes[id])
  {
    if steps != [] {
      InTurnInOrder(steps[..|steps| - 1], id);
      ToldInOrderNext(After(steps[..|steps| - 1]), steps[|steps| - 1], id);
    }
  }

  lemma InOrderTells(m: Modes)
    requires ModesInv(m) && ToldInOrder(m) && m.announced.Some?
    ensures |m.told| <= |m.applied| && m.announced.value == ModeAfter(m.applied[..|m.told|])
    ensures AllTold(m) ==> m.announced.value == ModeAfter(m.applied)
  {
    if m.told != [] { assert m.told[|m.told| - 1] == |m.told| - 1; }
    assert AllTold(m) && |m.told| < |m.applied| ==> |m.told| in m.told;
    assert m.applied[..|m.applied|] == m.applied;
  }

  /** Published in turn, the mode told is the one after as many changes as were published, and with
      nothing left to publish it is the registered one. */
  lemma InTurnModeCurrent(steps: seq<Step>, id: Id)
    requires InTurn(steps) && Serves(After(steps), id)
    ensures var s := After(steps); var m := s.modes[id];
            && |m.told| <= |m.applied| && m.announced.value == ModeAfter(m.applied[..|m.told|])
            && (id in s.sessions && AllTold(m) ==> m.announced.value == s.sessions[id].mode)
  {
    Reachable(steps);
    ModesReachable(steps, id);
    InTurnInOrder(steps, id);
    InOrderTells(After(steps).modes[id]);
  }

  lemma Then(steps: seq<Step>, step: Step)
    ensures After(steps + [step]) == Next(After(steps), step)
  {
    assert (steps + [step])[..|steps|] == steps;
  }

  lemma ChangedTwiceRun() returns (steps: seq<Step>, s: State)
    ensures s == After(steps)
    ensures steps == [Start(0, 0), PublishStarted(0), Heartbeat(0, 1, Some(Write)), Heartbeat(0, 2, Some(Read))]
    ensures 0 in s.sessions && s.sessions[0].mode == Read
    ensures 0 in s.modes && s.modes[0] == Modes(Some(Read), [Write, Read], [])
  {
    var s2 := StartedRun();
    steps := [Start(0, 0), PublishStarted(0)];
    Then(steps, Heartbeat(0, 1, Some(Write)));
    var s3 := Beat(s2, 0, 1, Some(Write));
    assert s3.modes[0] == Modes(Some(Read), [Write], []) && s3.sessions[0] == Entry(1, Write);
    steps := steps + [Heartbeat(0, 1, Some(Write))];
    Then(steps, Heartbeat(0, 2, Some(Read)));
    s := Beat(s3, 0, 2, Some(Read));
    assert s.modes[0].applied == [Write, Read];
    steps := steps + [Heartbeat(0, 2, Some(Read))];
  }

  /** Two heartbeat tasks of one session that publish in the other order than they took the lock:
      nothing is left to publish, the session is in Read and peers were last told Write. */
  lemma OvertakenChangeMisleads() returns (steps: seq<Step>, s: State)
    ensures s == After(steps)
    ensures steps == [Start(0, 0), PublishStarted(0), Heartbeat(0, 1, Some(Write)), Heartbeat(0, 2, Some(Read)),
                      PublishMode(0, 1), PublishMode(0, 0)]
    ensures 0 in s.sessions && s.sessions[0].mode == Read
    ensures Serves(s, 0) && AllTold(s.modes[0]) && s.modes[0].announced == Some(Write)
  {
    var before;
    steps, before := ChangedTwiceRun();
    Then(steps, PublishMode(0, 1));
    var overtaken := Published(before, 0, 1);
    assert overtaken.modes[0].told == [1];
    steps := steps + [PublishMode(0, 1)];
    Then(steps, PublishMode(0, 0));
    s := Published(overtaken, 0, 0);
    assert s.modes[0].told[0] == 1 && s.modes[0].told[1] == 0;
    steps := steps + [PublishMode(0, 0)];
  }

  lemma StartedRun() returns (s: State)
    ensures s == After([Start(0, 0), PublishStarted(0)])
    ensures 0 in s.sessions && s.sessions == map[0 := Entry(0, Read)]
    ensures 0 in s.handlers && s.handlers[0] == Open && s.reaping == []
    ensures 0 in s.seen && s.seen[0] == [0] && 0 in s.modes && s.modes[0] == Modes(Some(Read), [], [])
  {
    Then([], Start(0, 0));
    assert After([Start(0, 0)]) == Started(Init, 0, 0) by { assert [] + [Start(0, 0)] == [Start(0, 0)]; }
    Then([Start(0, 0)], PublishStarted(0));
    assert [Start(0, 0)] + [PublishStarted(0)] == [Start(0, 0), PublishStarted(0)];
    s := Next(Started(Init, 0, 0), PublishStarted(0));
  }

  // ---------------------------------------------------------------------
  // Who may be reaped
  // ---------------------------------------------------------------------

  /** No reaper pass taken now, at any clock reading, drops a session with a heartbeat or
      connection stamped within the last STALE_CUTOFF seconds. */
  ghost predicate SparesRecent(s: State) {
    forall now: Timestamp, id, t ::
      now - STALE_CUTOFF >= TIMESTAMP_MIN && id in Stale(s.sessions, now) && id in s.seen && t in s.seen[id] ==>
        t < now - STALE_CUTOFF
  }

  /** The last stamp applied to each registered session is its latest one. */
  predicate LatestLast(s: State) {
    forall id, t :: id in s.sessions && id in s.seen && t in s.seen[id] ==> t <= s.sessions[id].lastSeen
  }

  /** A heartbeat overwrites the stamp unconditionally, so recent sessions are safe exactly when
      stamps were applied newest last. */
  lemma SparesRecentExactly(steps: seq<Step>)
    ensures SparesRecent(After(steps)) <==> LatestLast(After(steps))
  {
    Reachable(steps);
    var s := After(steps);
    if !LatestLast(s) {
      var id, t :| id in s.sessions && id in s.seen && t in s.seen[id] && s.sessions[id].lastSeen < t;
      var now: Timestamp := t + STALE_CUTOFF;
      assert id in Stale(s.sessions, now);
    }
  }

  /** Stamps take the lock in clock order, session by session. */
  predicate InOrder(s: State) {
    forall id, i, j :: id in s.seen && 0 <= i < j < |s.seen[id]| ==> s.seen[id][i] <= s.seen[id][j]
  }

  lemma InOrderSparesRecent(steps: seq<Step>)
    requires InOrder(After(steps))
    ensures SparesRecent(After(steps))
  {
    Reachable(steps);
    SparesRecentExactly(steps);
    var s := After(steps);
    forall id, t | id in s.sessions && id in s.seen && t in s.seen[id]
      ensures t <= s.sessions[id].lastSeen
    {
      var i :| 0 <= i < |s.seen[id]| && s.seen[id][i] == t;
    }
  }

  lemma OutOfOrderRun() returns (steps: seq<Step>, s: State)
    ensures s == After(steps)
    ensures steps == [Start(0, 0), PublishStarted(0), Heartbeat(0, 1000, None), Heartbeat(0, 100, None)]
    ensures s.sessions == map[0 := Entry(100, Read)] && s.reaping == [] && 0 in s.handlers && s.handlers[0] == Open
    ensures 0 in s.seen && 1000 in s.seen[0]
  {
    var s2 := StartedRun();
    steps := [Start(0, 0), PublishStarted(0)];
    Then(steps, Heartbeat(0, 1000, None));
    var s3 := Beat(s2, 0, 1000, None);
    assert s3.seen[0] == [0, 1000];
    steps := steps + [Heartbeat(0, 1000, None)];
    Then(steps, Heartbeat(0, 100, None));
    s := Beat(s3, 0, 100, None);
    assert s.seen[0][1] == 1000;
    steps := steps + [Heartbeat(0, 100, None)];
  }

  /** Two heartbeat tasks that take the lock in the wrong order: the reaper takes the session out one
      second after its latest heartbeat, though it has not closed. */
  lemma OutOfOrderHeartbeatReaped() returns (steps: seq<Step>, s: State)
    ensures s == After(steps)
    ensures steps == [Start(0, 0), PublishStarted(0), Heartbeat(0, 1000, None), Heartbeat(0, 100, None),
                      Reap(1001, [0])]
    ensures 0 !in s.sessions && s.reaping == [0] && 0 in s.handlers && s.handlers[0] == Open
    ensures 0 in s.seen && 1000 in s.seen[0]
  {
    var before;
    steps, before := OutOfOrderRun();
    Then(steps, Reap(1001, [0]));
    assert Stale(before.sessions, 1001) == {0};
    s := Swept(before, 1001, [0]);
    steps := steps + [Reap(1001, [0])];
  }
}
