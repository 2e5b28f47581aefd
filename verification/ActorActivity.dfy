/** The "who is here" registry: one entry per actor, updated from every published event that names
    one, listed for a ten-minute window and pruned whenever it is listed. */
module ActorActivity {
  import opened Common

  const ACTIVITY_WINDOW := 600

  /** Kind and identifier of an actor. */
  datatype Actor = Actor(kind: string, id: string)

  datatype Entry = Entry(lastSeen: int, display: Option<string>, lastAction: string)

  type Entries = map<Actor, Entry>

  /** An event line that carries an actor, after parsing. */
  datatype Event = Event(actor: Actor, at: int, display: Option<string>, action: string)

  function Recorded(m: Entries, e: Event): Entries {
    var entry := if e.actor in m then m[e.actor] else Entry(e.at, e.display, e.action);
    if e.at >= entry.lastSeen then
      m[e.actor := Entry(e.at, if e.display.Some? then e.display else entry.display, e.action)]
    else m[e.actor := entry]
  }

  function Cutoff(now: int): int {
    if now - ACTIVITY_WINDOW >= TIMESTAMP_MIN then now - ACTIVITY_WINDOW else now
  }

  function Within(m: Entries, cutoff: int): Entries {
    map a | a in m && m[a].lastSeen >= cutoff :: m[a]
  }

  class ActorActivityRegistry {
    var entries: Entries

    constructor ()
      ensures entries == map[]
    {
      entries := map[];
    }

    /** `parsed` is what the line says of its actor; nothing, if it is not JSON or names none. */
    method Record(parsed: Option<Event>)
      modifies this
      ensures entries == if parsed.None? then old(entries) else Recorded(old(entries), parsed.value)
    {
      if parsed.None? {
        return;
      }
      var e := parsed.value;
      if e.actor !in entries {
        entries := entries[e.actor := Entry(e.at, e.display, e.action)];
      }
      var entry := entries[e.actor];
      if e.at >= entry.lastSeen {
        entry := entry.(lastSeen := e.at, lastAction := e.action);
        if e.display.Some? {
          entry := entry.(display := e.display);
        }
      }
      entries := entries[e.actor := entry];
      assert entries == old(entries)[e.actor := entry];
    }

    method ListRecent(now: int) returns (listed: Entries)
      modifies this
      ensures entries == Within(old(entries), Cutoff(now)) && listed == entries
    {
      var cutoff := Cutoff(now);
      entries := map a | a in entries && entries[a].lastSeen >= cutoff :: entries[a];
      listed := entries;
    }
  }

  // ---------------------------------------------------------------------
  // Histories
  // ---------------------------------------------------------------------

  datatype Op = Record(event: Event) | List(now: int)

  function Step(m: Entries, op: Op): Entries {
    match op
    case Record(e) => Recorded(m, e)
    case List(now) => Within(m, Cutoff(now))
  }

  function After(ops: seq<Op>): Entries {
    if ops == [] then map[] else Step(After(ops[..|ops| - 1]), ops[|ops| - 1])
  }

  /** A registry that never forgets. */
  function KeepAll(ops: seq<Op>): Entries {
    if ops == [] then map[]
    else match ops[|ops| - 1]
      case Record(e) => Recorded(KeepAll(ops[..|ops| - 1]), e)
      case List(_) => KeepAll(ops[..|ops| - 1])
  }

  /** The clock the listings read does not go back; events may be stamped and arrive in any order. */
  predicate Timed(ops: seq<Op>) {
    forall i, j :: 0 <= i < j < |ops| && ops[i].List? && ops[j].List? ==> Cutoff(ops[i].now) <= Cutoff(ops[j].now)
  }

  /** What a listing shows of an actor, the display name apart. */
  datatype Shown = Shown(lastSeen: int, lastAction: string)

  function Listing(m: Entries, now: int): map<Actor, Shown> {
    map a | a in m && m[a].lastSeen >= Cutoff(now) :: Shown(m[a].lastSeen, m[a].lastAction)
  }

  /** The registries show the same of every actor seen at `cutoff` or later. */
  predicate Agree(m: Entries, all: Entries, cutoff: int) {
    && (forall a :: a in m ==> a in all)
    && (forall a :: a in all && all[a].lastSeen >= cutoff ==>
          a in m && m[a].lastSeen == all[a].lastSeen && m[a].lastAction == all[a].lastAction)
    && (forall a :: a in m && all[a].lastSeen < cutoff ==> m[a].lastSeen < cutoff)
  }

  lemma RecordAgrees(m: Entries, all: Entries, cutoff: int, e: Event)
    requires Agree(m, all, cutoff)
    ensures Agree(Recorded(m, e), Recorded(all, e), cutoff)
  {
  }

  /** Agreement at one cutoff is agreement at any later one. */
  lemma {:induction false} PrunedAgrees(ops: seq<Op>, cutoff: int)
    requires Timed(ops)
    requires forall i :: 0 <= i < |ops| && ops[i].List? ==> Cutoff(ops[i].now) <= cutoff
    ensures Agree(After(ops), KeepAll(ops), cutoff)
  {
    if ops != [] {
      var n := |ops| - 1;
      match ops[n]
      case Record(e) =>
        PrunedAgrees(ops[..n], cutoff);
        RecordAgrees(After(ops[..n]), KeepAll(ops[..n]), cutoff, e);
      case List(now) =>
        PrunedAgrees(ops[..n], cutoff);
    }
  }

  /** Pruning is invisible: every listing shows the same actors, last seen and last action as a
      registry that never forgets. */
  lemma PruningInvisible(ops: seq<Op>, i: nat)
    requires Timed(ops) && i < |ops| && ops[i].List?
    ensures Listing(After(ops[..i]), ops[i].now) == Listing(KeepAll(ops[..i]), ops[i].now)
  {
    PrunedAgrees(ops[..i], Cutoff(ops[i].now));
  }

  /** Event `k` is the one that counts for its actor: none recorded before it is later, none after
      it is as late. */
  predicate Latest(ops: seq<Op>, k: nat) {
    && k < |ops| && ops[k].Record?
    && forall j :: 0 <= j < |ops| && ops[j].Record? && ops[j].event.actor == ops[k].event.actor ==>
         (if j <= k then ops[j].event.at <= ops[k].event.at else ops[j].event.at < ops[k].event.at)
  }

  predicate RecordsAt(ops: seq<Op>, k: nat, a: Actor) {
    k < |ops| && ops[k].Record? && ops[k].event.actor == a
  }

  lemma {:induction false} KeepAllIsLatest(ops: seq<Op>, a: Actor) returns (k: nat)
    requires a in KeepAll(ops)
    ensures RecordsAt(ops, k, a) && Latest(ops, k)
    ensures KeepAll(ops)[a].lastSeen == ops[k].event.at && KeepAll(ops)[a].lastAction == ops[k].event.action
  {
    var n := |ops| - 1;
    var p := ops[..n];
    if ops[n].Record? && ops[n].event.actor == a && a !in KeepAll(p) {
      k := n;
      forall j: nat | RecordsAt(p, j, a) ensures false {
        RecordedKept(p, j, a);
      }
      assert forall j: nat :: RecordsAt(ops, j, a) && j < n ==> RecordsAt(p, j, a);
      assert forall j :: 0 <= j < |ops| && ops[j].Record? && ops[j].event.actor == a ==> RecordsAt(ops, j, a);
    } else {
      k := KeepAllIsLatest(p, a);
      assert p[k] == ops[k];
      assert forall j :: 0 <= j < n ==> p[j] == ops[j];
      if ops[n].Record? && ops[n].event.actor == a && ops[n].event.at >= p[k].event.at {
        assert forall j :: 0 <= j < n && ops[j].Record? && ops[j].event.actor == a ==> ops[j].event.at <= p[k].event.at;
        k := n;
      }
    }
  }

  lemma {:induction false} RecordedKept(ops: seq<Op>, k: nat, a: Actor)
    requires RecordsAt(ops, k, a)
    ensures a in KeepAll(ops)
  {
    var n := |ops| - 1;
    if k < n {
      assert RecordsAt(ops[..n], k, a);
      RecordedKept(ops[..n], k, a);
    }
  }

  /** A listing shows exactly the actors with an event stamped inside the window, and shows of each
      the stamp and action of its latest event, the last to arrive among equals. */
  lemma ListingExactly(ops: seq<Op>, i: nat, a: Actor)
    requires Timed(ops) && i < |ops| && ops[i].List?
    ensures var shown := Listing(After(ops[..i]), ops[i].now); var past := ops[..i];
            && (a in shown <==> exists k: nat :: RecordsAt(past, k, a) && past[k].event.at >= Cutoff(ops[i].now))
            && (a in shown ==>
                  exists k: nat :: RecordsAt(past, k, a) && Latest(past, k) &&
                    shown[a] == Shown(past[k].event.at, past[k].event.action))
  {
    PruningInvisible(ops, i);
    var past := ops[..i];
    if a in KeepAll(past) {
      var k := KeepAllIsLatest(past, a);
      assert forall j: nat :: RecordsAt(past, j, a) ==> past[j].event.at <= past[k].event.at;
    } else {
      forall k: nat | RecordsAt(past, k, a) ensures false {
        RecordedKept(past, k, a);
      }
    }
  }
}
