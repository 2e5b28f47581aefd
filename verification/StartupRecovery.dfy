/** Start-up recovery of the daemon after a crash.

    A start-up reads the database, deletes the dynamic resources no replay will own, replays or
    discards the interrupted operation, and sends stuck apps to teardown. Every database write is
    a point a crash can follow, so a start-up is modelled as the list of writes it makes and a
    crashed one as a prefix of that list. Reads and writes succeed; the operation handed to replay
    runs afterwards. */
module StartupRecovery {
  import opened Common

  type App = string
  type OpId = string
  type Instance = string

  datatype Phase = NotInstalled | Installing | Installed | Uninstalling

  /** A registered app, with the number of its resource instances. */
  datatype AppRow = AppRow(phase: Phase, instances: nat)

  /** What loading an operation's encrypted params gives. */
  datatype Params = Restored | Absent | Unreadable

  datatype OpRow = OpRow(id: OpId, app: App, install: bool, params: Params)

  datatype DynRow = DynRow(op: OpId, app: App, instance: Instance)

  datatype Fault = OfInstance(app: App, instance: Instance) | InstallInterrupted(app: App)

  datatype Db = Db(apps: map<App, AppRow>, op: Option<OpRow>, dyn: set<DynRow>, faults: set<Fault>)

  datatype Write =
    | ClearInstanceFaults(app: App, instance: Instance)
    | DeleteDynExcept(keep: Option<OpId>)
    | SetPhase(app: App, phase: Phase)
    | ClearOp
    | FileInterrupted(app: App)

  function Applied(db: Db, w: Write): Db {
    match w
    case ClearInstanceFaults(app, instance) => db.(faults := db.faults - {OfInstance(app, instance)})
    case DeleteDynExcept(keep) => db.(dyn := set r | r in db.dyn && Some(r.op) == keep)
    case SetPhase(app, phase) =>
      if app in db.apps then db.(apps := db.apps[app := db.apps[app].(phase := phase)]) else db
    case ClearOp => db.(op := None)
    case FileInterrupted(app) => db.(faults := db.faults + {InstallInterrupted(app)})
  }

  function ApplyAll(db: Db, ws: seq<Write>): Db
    decreases |ws|
  {
    if ws == [] then db else ApplyAll(Applied(db, ws[0]), ws[1..])
  }

  /** The order in which one start-up happens to list the dynamic rows and the apps. */
  datatype Listing = Listing(rows: seq<DynRow>, apps: seq<App>)

  ghost predicate Lists(l: Listing, db: Db) {
    && (forall r :: r in l.rows <==> r in db.dyn)
    && Distinct(l.apps) && (forall a :: a in l.apps <==> a in db.apps)
  }

  function ReplayId(db: Db): Option<OpId> {
    match db.op
    case Some(op) => Some(op.id)
    case None => None
  }

  /** The app the persisted operation is on. */
  predicate OpOn(db: Db, app: App) {
    db.op.Some? && db.op.value.app == app
  }

  // ---------------------------------------------------------------------
  // Orphan cleanup
  // ---------------------------------------------------------------------

  function Orphans(rows: seq<DynRow>, keep: Option<OpId>): seq<DynRow> {
    if rows == [] then []
    else (if Some(rows[0].op) != keep then [rows[0]] else []) + Orphans(rows[1..], keep)
  }

  function FaultClears(orphans: seq<DynRow>): seq<Write> {
    if orphans == [] then []
    else [ClearInstanceFaults(orphans[0].app, orphans[0].instance)] + FaultClears(orphans[1..])
  }

  function CleanupWrites(db: Db, rows: seq<DynRow>): seq<Write> {
    var orphans := Orphans(rows, ReplayId(db));
    if orphans == [] then [] else FaultClears(orphans) + [DeleteDynExcept(ReplayId(db))]
  }

  // ---------------------------------------------------------------------
  // The interrupted operation
  // ---------------------------------------------------------------------

  datatype Fate = Nothing | Discard | Revert | Replay

  function OpFate(db: Db): Fate {
    match db.op
    case None => Nothing
    case Some(op) =>
      if op.app !in db.apps then Discard
      else if op.install && !op.params.Restored? then Revert
      else if op.params.Unreadable? then Discard
      else if op.install && !db.apps[op.app].phase.Installing? && !db.apps[op.app].phase.NotInstalled? then Discard
      else if !op.install && !db.apps[op.app].phase.Installed? then Discard
      else Replay
  }

  /** Reverting: the operation is an install whose params are gone, on an app left Installing. */
  predicate RevertsPhase(db: Db) {
    OpFate(db) == Revert && db.op.value.app in db.apps && db.apps[db.op.value.app].phase.Installing?
  }

  function ReplayWrites(db: Db): seq<Write> {
    if RevertsPhase(db) then
      [SetPhase(db.op.value.app, NotInstalled), ClearOp, FileInterrupted(db.op.value.app)]
    else if OpFate(db) == Discard || OpFate(db) == Revert then [ClearOp]
    else []
  }

  // ---------------------------------------------------------------------
  // The stuck-app sweep
  // ---------------------------------------------------------------------

  predicate Settled(row: AppRow) {
    !row.phase.Installing? && !(row.phase.NotInstalled? && row.instances > 0)
  }

  /** The listed apps that are stuck, leaving out the app of the operation found at start-up. */
  function Stuck(db: Db, apps: seq<App>, except: Option<App>): seq<App> {
    if apps == [] then []
    else
      (if Some(apps[0]) != except && apps[0] in db.apps && !Settled(db.apps[apps[0]]) then [apps[0]] else [])
      + Stuck(db, apps[1..], except)
  }

  function SweepWrites(stuck: seq<App>): seq<Write> {
    if stuck == [] then [] else [SetPhase(stuck[0], Uninstalling)] + SweepWrites(stuck[1..])
  }

  function OpApp(db: Db): Option<App> {
    match db.op
    case Some(op) => Some(op.app)
    case None => None
  }

  // ---------------------------------------------------------------------
  // Start-ups
  // ---------------------------------------------------------------------

  function Swept(db: Db, l: Listing): seq<Write> {
    SweepWrites(Stuck(ApplyAll(ApplyAll(db, CleanupWrites(db, l.rows)), ReplayWrites(db)), l.apps, OpApp(db)))
  }

  /** Everything one start-up writes. */
  function StartupWrites(db: Db, l: Listing): seq<Write> {
    CleanupWrites(db, l.rows) + ReplayWrites(db) + Swept(db, l)
  }

  function Startup(db: Db, l: Listing): Db {
    ApplyAll(db, StartupWrites(db, l))
  }

  /** A start-up that dies after its first `k` writes, or after the last if there are fewer. */
  function Crashed(db: Db, l: Listing, k: nat): Db {
    var ws := StartupWrites(db, l);
    ApplyAll(db, if k <= |ws| then ws[..k] else ws)
  }

  // ---------------------------------------------------------------------
  // The recovery code, updating the database in place
  // ---------------------------------------------------------------------

  lemma {:induction false} ApplySnoc(db: Db, ws: seq<Write>, w: Write)
    ensures ApplyAll(db, ws + [w]) == Applied(ApplyAll(db, ws), w)
    decreases |ws|
  {
    if ws == [] {
      assert ws + [w] == [w];
    } else {
      assert (ws + [w])[1..] == ws[1..] + [w];
      ApplySnoc(Applied(db, ws[0]), ws[1..], w);
    }
  }

  lemma {:induction false} ApplyConcat(db: Db, ws: seq<Write>, more: seq<Write>)
    ensures ApplyAll(db, ws + more) == ApplyAll(ApplyAll(db, ws), more)
    decreases |ws|
  {
    if ws == [] {
      assert ws + more == more;
    } else {
      assert (ws + more)[1..] == ws[1..] + more;
      ApplyConcat(Applied(db, ws[0]), ws[1..], more);
    }
  }

  lemma ApplyTwo(db: Db, v: Write, w: Write)
    ensures ApplyAll(db, [v, w]) == Applied(Applied(db, v), w)
  {
    assert [v, w] == [v] + [w];
    ApplySnoc(db, [v], w);
  }

  lemma ApplyThree(db: Db, u: Write, v: Write, w: Write)
    ensures ApplyAll(db, [u, v, w]) == Applied(Applied(Applied(db, u), v), w)
  {
    assert [u, v, w] == [u, v] + [w];
    ApplySnoc(db, [u, v], w);
    ApplyTwo(db, u, v);
  }

  class Database {
    var apps: map<App, AppRow>
    var op: Option<OpRow>
    var dyn: set<DynRow>
    var faults: set<Fault>

    function View(): Db
      reads this
    {
      Db(apps, op, dyn, faults)
    }

    method CleanUpOrphans(rows: seq<DynRow>)
      modifies this`dyn, this`faults
      ensures View() == ApplyAll(old(View()), CleanupWrites(old(View()), rows))
    {
      var keep := ReplayId(View());
      var orphans := Orphans(rows, keep);
      if orphans != [] {
        var left := orphans;
        ghost var done: seq<Write> := [];
        while left != []
          invariant done + FaultClears(left) == FaultClears(orphans)
          invariant View() == ApplyAll(old(View()), done)
          decreases |left|
        {
          ApplySnoc(old(View()), done, ClearInstanceFaults(left[0].app, left[0].instance));
          faults := faults - {OfInstance(left[0].app, left[0].instance)};
          done := done + [ClearInstanceFaults(left[0].app, left[0].instance)];
          left := left[1..];
        }
        assert done == FaultClears(orphans);
        ApplySnoc(old(View()), done, DeleteDynExcept(keep));
        dyn := set r | r in dyn && Some(r.op) == keep;
      }
    }

    method RevertInstallAndFault(app: App)
      requires op.Some? && op.value.app == app && OpFate(View()) == Revert
      modifies this`apps, this`op, this`faults
      ensures View() == ApplyAll(old(View()), ReplayWrites(old(View())))
    {
      if app in apps && apps[app].phase == Installing {
        ApplyThree(View(), SetPhase(app, NotInstalled), ClearOp, FileInterrupted(app));
        apps := apps[app := apps[app].(phase := NotInstalled)];
        op := None;
        faults := faults + {InstallInterrupted(app)};
      } else {
        op := None;
      }
    }

    /** Whether the operation was handed to replay. */
    method ReplayInterruptedOperation() returns (replaying: bool)
      modifies this`apps, this`op, this`faults
      ensures View() == ApplyAll(old(View()), ReplayWrites(old(View())))
      ensures replaying <==> OpFate(old(View())) == Replay
    {
      if op.None? {
        return false;
      }
      var row := op.value;
      if row.app !in apps {
        op := None;
        return false;
      }
      var phase := apps[row.app].phase;
      match row.params {
        case Restored =>
        case Absent =>
          if row.install {
            RevertInstallAndFault(row.app);
            return false;
          }
        case Unreadable =>
          if row.install {
            RevertInstallAndFault(row.app);
          } else {
            op := None;
          }
          return false;
      }
      if row.install && phase != Installing && phase != NotInstalled {
        op := None;
        return false;
      }
      if !row.install && phase != Installed {
        op := None;
        return false;
      }
      return true;
    }

    method SweepStuckApps(listed: seq<App>, except: Option<App>)
      modifies this`apps
      ensures View() == ApplyAll(old(View()), SweepWrites(Stuck(old(View()), listed, except)))
    {
      var stuck := Stuck(View(), listed, except);
      var left := stuck;
      ghost var done: seq<Write> := [];
      while left != []
        invariant done + SweepWrites(left) == SweepWrites(stuck)
        invariant View() == ApplyAll(old(View()), done)
        decreases |left|
      {
        ApplySnoc(old(View()), done, SetPhase(left[0], Uninstalling));
        assert done + SweepWrites(left) == done + [SetPhase(left[0], Uninstalling)] + SweepWrites(left[1..]);
        if left[0] in apps {
          apps := apps[left[0] := apps[left[0]].(phase := Uninstalling)];
        }
        done := done + [SetPhase(left[0], Uninstalling)];
        left := left[1..];
      }
      assert done == SweepWrites(stuck);
    }

    method StartUp(l: Listing) returns (replaying: bool)
      modifies this
      ensures View() == Startup(old(View()), l)
      ensures replaying <==> OpFate(old(View())) == Replay
    {
      ghost var db := View();
      var opApp := OpApp(View());
      CleanUpOrphans(l.rows);
      CleanupKeepsRest(db, l.rows);
      replaying := ReplayInterruptedOperation();
      SweepStuckApps(l.apps, opApp);
      ApplyConcat(db, CleanupWrites(db, l.rows), ReplayWrites(db));
      ApplyConcat(db, CleanupWrites(db, l.rows) + ReplayWrites(db), Swept(db, l));
    }
  }

  // ---------------------------------------------------------------------
  // What the parts of a start-up do
  // ---------------------------------------------------------------------

  lemma {:induction false} FaultClearsKeepRest(db: Db, orphans: seq<DynRow>)
    ensures ApplyAll(db, FaultClears(orphans)) == db.(faults := ApplyAll(db, FaultClears(orphans)).faults)
    decreases |orphans|
  {
    if orphans != [] {
      var w := FaultClears(orphans)[0];
      assert FaultClears(orphans)[1..] == FaultClears(orphans[1..]);
      FaultClearsKeepRest(Applied(db, w), orphans[1..]);
    }
  }

  /** Cleanup leaves apps and the operation row alone. */
  lemma CleanupKeepsRest(db: Db, rows: seq<DynRow>)
    ensures var d := ApplyAll(db, CleanupWrites(db, rows)); d.apps == db.apps && d.op == db.op
  {
    var orphans := Orphans(rows, ReplayId(db));
    if orphans != [] {
      ApplySnoc(db, FaultClears(orphans), DeleteDynExcept(ReplayId(db)));
      FaultClearsKeepRest(db, orphans);
    }
  }

  lemma {:induction false} InOrphans(rows: seq<DynRow>, keep: Option<OpId>, r: DynRow)
    ensures r in Orphans(rows, keep) <==> r in rows && Some(r.op) != keep
  {
    if rows != [] {
      InOrphans(rows[1..], keep, r);
    }
  }

  /** The rows the replayed operation will own. */
  function Owned(db: Db): set<DynRow> {
    set r | r in db.dyn && Some(r.op) == ReplayId(db)
  }

  /** Cleanup partitions the dynamic rows exactly. */
  lemma CleanupKeepsOwned(db: Db, rows: seq<DynRow>)
    requires forall r :: r in rows <==> r in db.dyn
    ensures ApplyAll(db, CleanupWrites(db, rows)).dyn == Owned(db)
  {
    var orphans := Orphans(rows, ReplayId(db));
    if orphans != [] {
      ApplySnoc(db, FaultClears(orphans), DeleteDynExcept(ReplayId(db)));
      FaultClearsKeepRest(db, orphans);
    } else {
      forall r | r in db.dyn ensures Some(r.op) == ReplayId(db) {
        InOrphans(rows, ReplayId(db), r);
      }
    }
  }

  lemma {:induction false} InStuck(db: Db, apps: seq<App>, except: Option<App>, a: App)
    ensures a in Stuck(db, apps, except) <==> a in apps && Some(a) != except && a in db.apps && !Settled(db.apps[a])
  {
    if apps != [] {
      InStuck(db, apps[1..], except, a);
    }
  }

  lemma {:induction false} StuckDistinct(db: Db, apps: seq<App>, except: Option<App>)
    requires Distinct(apps)
    ensures Distinct(Stuck(db, apps, except))
  {
    if apps != [] {
      StuckDistinct(db, apps[1..], except);
      InStuck(db, apps[1..], except, apps[0]);
    }
  }

  /** A sweep moves the stuck apps to Uninstalling and touches nothing else. */
  lemma {:induction false} SweepExactly(db: Db, stuck: seq<App>)
    requires forall a :: a in stuck ==> a in db.apps
    ensures ApplyAll(db, SweepWrites(stuck)) ==
            db.(apps := map a | a in db.apps :: if a in stuck then db.apps[a].(phase := Uninstalling) else db.apps[a])
    decreases |stuck|
  {
    if stuck != [] {
      var db1 := Applied(db, SetPhase(stuck[0], Uninstalling));
      assert SweepWrites(stuck)[1..] == SweepWrites(stuck[1..]);
      assert forall a :: a in stuck <==> a == stuck[0] || a in stuck[1..];
      SweepExactly(db1, stuck[1..]);
    }
  }

  // ---------------------------------------------------------------------
  // A complete start-up
  // ---------------------------------------------------------------------

  lemma StartupParts(db: Db, l: Listing)
    ensures var mid := ApplyAll(ApplyAll(db, CleanupWrites(db, l.rows)), ReplayWrites(db));
            Startup(db, l) == ApplyAll(mid, SweepWrites(Stuck(mid, l.apps, OpApp(db))))
  {
    ApplyConcat(db, CleanupWrites(db, l.rows), ReplayWrites(db));
    ApplyConcat(db, CleanupWrites(db, l.rows) + ReplayWrites(db), Swept(db, l));
  }

  /** What a complete start-up leaves: the operation row exactly when it is handed to replay, the
      dynamic rows that operation owns and no others, and no stuck app but possibly its own. */
  lemma StartupOutcome(db: Db, l: Listing)
    requires Lists(l, db)
    ensures Startup(db, l).op == if OpFate(db) == Replay then db.op else None
    ensures Startup(db, l).dyn == Owned(db)
    ensures Startup(db, l).apps.Keys == db.apps.Keys
    ensures forall a :: a in db.apps && !OpOn(db, a) ==> Settled(Startup(db, l).apps[a])
    ensures OpFate(db) == Replay ==> Startup(db, l).apps[db.op.value.app] == db.apps[db.op.value.app]
  {
    var clean := ApplyAll(db, CleanupWrites(db, l.rows));
    CleanupKeepsRest(db, l.rows);
    CleanupKeepsOwned(db, l.rows);
    MidState(clean, db);
    StartupParts(db, l);
    SweepSettles(ApplyAll(clean, ReplayWrites(db)), l.apps, OpApp(db));
  }

  /** A sweep over all apps settles every one but the exception, and leaves that one alone. */
  lemma SweepSettles(mid: Db, apps: seq<App>, except: Option<App>)
    requires forall a :: a in apps <==> a in mid.apps
    ensures var d := ApplyAll(mid, SweepWrites(Stuck(mid, apps, except)));
            && d.op == mid.op && d.dyn == mid.dyn && d.apps.Keys == mid.apps.Keys
            && (forall a :: a in mid.apps && Some(a) != except ==> Settled(d.apps[a]))
            && (forall a :: a in mid.apps && Some(a) == except ==> d.apps[a] == mid.apps[a])
  {
    var stuck := Stuck(mid, apps, except);
    forall a ensures a in stuck <==> a in apps && Some(a) != except && a in mid.apps && !Settled(mid.apps[a]) {
      InStuck(mid, apps, except, a);
    }
    SweepExactly(mid, stuck);
  }

  /** The replay decision, given that cleanup changed neither apps nor the operation row. */
  lemma MidState(clean: Db, db: Db)
    requires clean.apps == db.apps && clean.op == db.op
    ensures var mid := ApplyAll(clean, ReplayWrites(db));
            && mid.op == (if OpFate(db) == Replay then db.op else None)
            && mid.dyn == clean.dyn
            && mid.apps ==
               if RevertsPhase(db) then db.apps[db.op.value.app := db.apps[db.op.value.app].(phase := NotInstalled)]
               else db.apps
  {
    if RevertsPhase(db) {
      ApplyThree(clean, SetPhase(db.op.value.app, NotInstalled), ClearOp, FileInterrupted(db.op.value.app));
    }
  }

  // ---------------------------------------------------------------------
  // Convergence under crashes
  // ---------------------------------------------------------------------

  /** Everything but the fault list. */
  function Core(db: Db): Db {
    db.(faults := {})
  }

  function SweptRow(row: AppRow): AppRow {
    if Settled(row) then row else row.(phase := Uninstalling)
  }

  /** The state recovery is headed for, said without running it: a replayable operation keeps its
      row, its app and its resources; otherwise both the row and all dynamic rows go, and the app
      of a lost install counts as not installed; every other app is settled. */
  function Recovered(db: Db): Db {
    var replay := OpFate(db) == Replay;
    Db(map a | a in db.apps ::
         if OpOn(db, a) && replay then db.apps[a]
         else if OpOn(db, a) && RevertsPhase(db) then SweptRow(db.apps[a].(phase := NotInstalled))
         else SweptRow(db.apps[a]),
       if replay then db.op else None,
       if replay then Owned(db) else {},
       {})
  }

  /** A write that, made on `db`, brings recovery no closer to and no further from another end. */
  predicate Harmless(db: Db, w: Write) {
    match w
    case ClearInstanceFaults(_, _) => true
    case FileInterrupted(_) => true
    case DeleteDynExcept(keep) => keep == ReplayId(db)
    case ClearOp => OpFate(db) != Replay && !RevertsPhase(db)
    case SetPhase(a, phase) =>
      && a in db.apps
      && (if OpOn(db, a) then RevertsPhase(db) && phase == NotInstalled
          else !Settled(db.apps[a]) && phase == Uninstalling)
  }

  lemma HarmlessKeepsEnd(db: Db, w: Write)
    requires Harmless(db, w)
    ensures Recovered(Applied(db, w)) == Recovered(db)
  {
    var db' := Applied(db, w);
    if w.DeleteDynExcept? {
      assert OpFate(db') == OpFate(db);
      assert Owned(db') == Owned(db);
    } else if w.SetPhase? {
      assert db'.apps.Keys == db.apps.Keys;
      if OpOn(db, w.app) {
        assert OpFate(db') == Revert;
      } else {
        assert OpFate(db') == OpFate(db);
        assert Owned(db') == Owned(db);
      }
    }
  }

  predicate AllHarmless(db: Db, ws: seq<Write>)
    decreases |ws|
  {
    ws == [] || (Harmless(db, ws[0]) && AllHarmless(Applied(db, ws[0]), ws[1..]))
  }

  lemma {:induction false} PrefixKeepsEnd(db: Db, ws: seq<Write>, k: nat)
    requires AllHarmless(db, ws) && k <= |ws|
    ensures Recovered(ApplyAll(db, ws[..k])) == Recovered(db)
    decreases k
  {
    if k > 0 {
      HarmlessKeepsEnd(db, ws[0]);
      assert ws[..k][1..] == ws[1..][..k - 1];
      PrefixKeepsEnd(Applied(db, ws[0]), ws[1..], k - 1);
    }
  }

  lemma {:induction false} HarmlessConcat(db: Db, ws: seq<Write>, more: seq<Write>)
    requires AllHarmless(db, ws) && AllHarmless(ApplyAll(db, ws), more)
    ensures AllHarmless(db, ws + more)
    decreases |ws|
  {
    if ws == [] {
      assert ws + more == more;
    } else {
      assert (ws + more)[1..] == ws[1..] + more;
      HarmlessConcat(Applied(db, ws[0]), ws[1..], more);
    }
  }

  lemma {:induction false} FaultClearsHarmless(db: Db, orphans: seq<DynRow>)
    ensures AllHarmless(db, FaultClears(orphans))
    decreases |orphans|
  {
    if orphans != [] {
      assert FaultClears(orphans)[1..] == FaultClears(orphans[1..]);
      FaultClearsHarmless(Applied(db, FaultClears(orphans)[0]), orphans[1..]);
    }
  }

  lemma CleanupHarmless(db: Db, rows: seq<DynRow>)
    ensures AllHarmless(db, CleanupWrites(db, rows))
  {
    var orphans := Orphans(rows, ReplayId(db));
    if orphans != [] {
      FaultClearsHarmless(db, orphans);
      FaultClearsKeepRest(db, orphans);
      HarmlessConcat(db, FaultClears(orphans), [DeleteDynExcept(ReplayId(db))]);
    }
  }

  lemma ReplayHarmless(clean: Db, db: Db)
    requires clean.apps == db.apps && clean.op == db.op
    ensures AllHarmless(clean, ReplayWrites(db))
  {
    if RevertsPhase(db) {
      var ws := ReplayWrites(db);
      var db1 := Applied(clean, ws[0]);
      assert Harmless(clean, ws[0]);
      assert OpFate(db1) == Revert && !RevertsPhase(db1);
      assert Harmless(db1, ws[1]);
      var db2 := Applied(db1, ws[1]);
      assert ws[1..][1..] == [ws[2]];
      assert AllHarmless(db2, [ws[2]]);
      assert AllHarmless(db1, ws[1..]);
    }
  }

  lemma {:induction false} SweepHarmless(db: Db, stuck: seq<App>)
    requires Distinct(stuck)
    requires forall a :: a in stuck ==> a in db.apps && !OpOn(db, a) && !Settled(db.apps[a])
    ensures AllHarmless(db, SweepWrites(stuck))
    decreases |stuck|
  {
    if stuck != [] {
      assert SweepWrites(stuck)[1..] == SweepWrites(stuck[1..]);
      assert stuck[0] in stuck;
      assert forall a :: a in stuck[1..] ==> a in stuck && a != stuck[0];
      SweepHarmless(Applied(db, SetPhase(stuck[0], Uninstalling)), stuck[1..]);
    }
  }

  lemma StartupHarmless(db: Db, l: Listing)
    requires Lists(l, db)
    ensures AllHarmless(db, StartupWrites(db, l))
  {
    var clean := ApplyAll(db, CleanupWrites(db, l.rows));
    var mid := ApplyAll(clean, ReplayWrites(db));
    var stuck := Stuck(mid, l.apps, OpApp(db));
    CleanupHarmless(db, l.rows);
    CleanupKeepsRest(db, l.rows);
    ReplayHarmless(clean, db);
    HarmlessConcat(db, CleanupWrites(db, l.rows), ReplayWrites(db));
    ApplyConcat(db, CleanupWrites(db, l.rows), ReplayWrites(db));
    MidState(clean, db);
    StuckDistinct(mid, l.apps, OpApp(db));
    forall a | a in stuck ensures a in mid.apps && !OpOn(mid, a) && !Settled(mid.apps[a]) {
      InStuck(mid, l.apps, OpApp(db), a);
    }
    SweepHarmless(mid, stuck);
    HarmlessConcat(db, CleanupWrites(db, l.rows) + ReplayWrites(db), Swept(db, l));
  }

  /** A crash anywhere in a start-up does not change where recovery ends. */
  lemma CrashKeepsEnd(db: Db, l: Listing, k: nat)
    requires Lists(l, db)
    ensures Recovered(Crashed(db, l, k)) == Recovered(db)
  {
    StartupHarmless(db, l);
    var ws := StartupWrites(db, l);
    PrefixKeepsEnd(db, ws, if k <= |ws| then k else |ws|);
    assert ws[..|ws|] == ws;
  }

  /** A series of start-ups, each dying after some number of its writes. */
  datatype Boot = Boot(listing: Listing, writes: nat)

  ghost predicate Bootable(db: Db, boots: seq<Boot>)
    decreases |boots|
  {
    boots == [] || (Lists(boots[0].listing, db) && Bootable(Crashed(db, boots[0].listing, boots[0].writes), boots[1..]))
  }

  function AfterBoots(db: Db, boots: seq<Boot>): Db
    decreases |boots|
  {
    if boots == [] then db else AfterBoots(Crashed(db, boots[0].listing, boots[0].writes), boots[1..])
  }

  lemma {:induction false} CrashesKeepEnd(db: Db, boots: seq<Boot>)
    requires Bootable(db, boots)
    ensures Recovered(AfterBoots(db, boots)) == Recovered(db)
    decreases |boots|
  {
    if boots != [] {
      CrashKeepsEnd(db, boots[0].listing, boots[0].writes);
      CrashesKeepEnd(Crashed(db, boots[0].listing, boots[0].writes), boots[1..]);
    }
  }

  lemma StartupKeepsEnd(db: Db, l: Listing)
    requires Lists(l, db)
    ensures Recovered(Startup(db, l)) == Recovered(db)
  {
    CrashKeepsEnd(db, l, |StartupWrites(db, l)|);
    var ws := StartupWrites(db, l);
    assert ws[..|ws|] == ws;
  }

  /** Nothing is left to recover. */
  lemma SettledIsRecovered(db: Db)
    requires OpFate(db) == Replay || OpFate(db) == Nothing
    requires db.dyn == Owned(db)
    requires forall a :: a in db.apps && !OpOn(db, a) ==> Settled(db.apps[a])
    ensures Recovered(db) == Core(db)
  {
    assert Recovered(db).apps == db.apps;
  }

  /** After any number of crashed start-ups, one complete start-up finishes the recovery of a
      replayable operation: the operation owns exactly the rows it owned before the first crash. */
  lemma ReplayableConverges(db: Db, boots: seq<Boot>, l: Listing)
    requires OpFate(db) == Replay
    requires Bootable(db, boots) && Lists(l, AfterBoots(db, boots))
    ensures Core(Startup(AfterBoots(db, boots), l)) == Recovered(db)
    ensures Startup(AfterBoots(db, boots), l).op == db.op && Startup(AfterBoots(db, boots), l).dyn == Owned(db)
  {
    CrashesKeepEnd(db, boots);
    var before := AfterBoots(db, boots);
    assert Recovered(before).op == db.op;
    assert OpFate(before) == Replay;
    StartupOutcome(before, l);
    StartupKeepsEnd(before, l);
    var d := Startup(before, l);
    assert OpFate(d) == Replay;
    SettledIsRecovered(d);
  }

  /** After any number of crashed start-ups, two complete ones finish any recovery, always in the
      same state. */
  lemma Converges(db: Db, boots: seq<Boot>, l: Listing, l': Listing)
    requires Bootable(db, boots) && Lists(l, AfterBoots(db, boots))
    requires Lists(l', Startup(AfterBoots(db, boots), l))
    ensures Core(Startup(Startup(AfterBoots(db, boots), l), l')) == Recovered(db)
  {
    CrashesKeepEnd(db, boots);
    var before := AfterBoots(db, boots);
    var once := Startup(before, l);
    StartupOutcome(before, l);
    StartupKeepsEnd(before, l);
    var twice := Startup(once, l');
    StartupOutcome(once, l');
    StartupKeepsEnd(once, l');
    assert OpFate(once) == Replay || OpFate(once) == Nothing;
    if OpFate(once) == Replay {
      assert OpFate(twice) == Replay;
    } else {
      assert OpFate(twice) == Nothing;
    }
    SettledIsRecovered(twice);
  }

  // ---------------------------------------------------------------------
  // The install_interrupted fault
  // ---------------------------------------------------------------------

  lemma {:induction false} FaultFiledBy(db: Db, ws: seq<Write>, app: App)
    ensures InstallInterrupted(app) in ApplyAll(db, ws).faults <==>
            InstallInterrupted(app) in db.faults || FileInterrupted(app) in ws
    decreases |ws|
  {
    if ws != [] {
      FaultFiledBy(Applied(db, ws[0]), ws[1..], app);
    }
  }

  lemma {:induction false} OthersFileNothing(orphans: seq<DynRow>, stuck: seq<App>, app: App)
    ensures FileInterrupted(app) !in FaultClears(orphans) && FileInterrupted(app) !in SweepWrites(stuck)
  {
    if orphans != [] {
      OthersFileNothing(orphans[1..], stuck, app);
    } else if stuck != [] {
      OthersFileNothing(orphans, stuck[1..], app);
    }
  }

  lemma StartupFiles(db: Db, l: Listing, app: App)
    ensures InstallInterrupted(app) in Startup(db, l).faults <==>
            InstallInterrupted(app) in db.faults || (RevertsPhase(db) && db.op.value.app == app)
  {
    FaultFiledBy(db, StartupWrites(db, l), app);
    OthersFileNothing(Orphans(l.rows, ReplayId(db)),
                      Stuck(ApplyAll(ApplyAll(db, CleanupWrites(db, l.rows)), ReplayWrites(db)), l.apps, OpApp(db)),
                      app);
  }

  /** A start-up that still has the revert due and dies between its phase write and its fault. */
  predicate InWindow(db: Db, boot: Boot) {
    var first := |CleanupWrites(db, boot.listing.rows)|;
    RevertsPhase(db) && first < boot.writes < first + 3
  }

  predicate NoBootInWindow(db: Db, boots: seq<Boot>)
    decreases |boots|
  {
    boots == [] ||
    (!InWindow(db, boots[0]) && NoBootInWindow(Crashed(db, boots[0].listing, boots[0].writes), boots[1..]))
  }

  /** The operator is meant to be told of a lost install by a fault. The phase, the operation row
      and the fault are three separate writes: after any number of crashed start-ups and a complete
      one the fault is there exactly when none of them died between the first and the last. */
  lemma {:induction false} InterruptedFaultExactly(db: Db, boots: seq<Boot>, l: Listing)
    requires RevertsPhase(db) && InstallInterrupted(db.op.value.app) !in db.faults
    ensures InstallInterrupted(db.op.value.app) in Startup(AfterBoots(db, boots), l).faults <==>
            NoBootInWindow(db, boots)
    decreases |boots|
  {
    var app := db.op.value.app;
    if boots == [] {
      StartupFiles(db, l, app);
    } else {
      var boot := boots[0];
      var first := |CleanupWrites(db, boot.listing.rows)|;
      var d := Crashed(db, boot.listing, boot.writes);
      CrashFiles(db, boot.listing, boot.writes);
      if boot.writes <= first {
        RevertStillDue(db, boot.listing, boot.writes);
        InterruptedFaultExactly(d, boots[1..], l);
      } else {
        RevertForgotten(db, boot.listing, boot.writes);
        FaultDecided(d, app, boots[1..], l);
      }
    }
  }

  /** One crash: the fault is there exactly when it did not fall in the window. */
  lemma InterruptedFaultOnce(db: Db, l: Listing, k: nat, l': Listing)
    requires RevertsPhase(db) && InstallInterrupted(db.op.value.app) !in db.faults
    ensures var first := |CleanupWrites(db, l.rows)|;
            InstallInterrupted(db.op.value.app) in Startup(Crashed(db, l, k), l').faults <==> !(first < k < first + 3)
  {
    var boots := [Boot(l, k)];
    assert boots[1..] == [];
    assert AfterBoots(db, boots) == Crashed(db, l, k);
    InterruptedFaultExactly(db, boots, l');
  }

  /** Where no revert is due, whether the fault is on file no longer changes. */
  lemma {:induction false} FaultDecided(db: Db, app: App, boots: seq<Boot>, l: Listing)
    requires !RevertsPhase(db)
    ensures InstallInterrupted(app) in Startup(AfterBoots(db, boots), l).faults <==>
            InstallInterrupted(app) in db.faults
    ensures NoBootInWindow(db, boots)
    decreases |boots|
  {
    if boots == [] {
      StartupFiles(db, l, app);
    } else {
      NotDueCrash(db, app, boots[0].listing, boots[0].writes);
      FaultDecided(Crashed(db, boots[0].listing, boots[0].writes), app, boots[1..], l);
    }
  }

  lemma NotDueCrash(db: Db, app: App, l: Listing, k: nat)
    requires !RevertsPhase(db)
    ensures !RevertsPhase(Crashed(db, l, k))
    ensures InstallInterrupted(app) in Crashed(db, l, k).faults <==> InstallInterrupted(app) in db.faults
  {
    var ws := StartupWrites(db, l);
    var done := if k <= |ws| then ws[..k] else ws;
    OthersFileNothing(Orphans(l.rows, ReplayId(db)),
                      Stuck(ApplyAll(ApplyAll(db, CleanupWrites(db, l.rows)), ReplayWrites(db)), l.apps, OpApp(db)),
                      app);
    FaultFiledBy(db, done, app);
    NeverInstalling(db, l);
    NotDueStays(db, done);
  }

  /** No write of a start-up makes a revert due: none sets Installing, none sets an operation. */
  lemma {:induction false} NotDueStays(db: Db, ws: seq<Write>)
    requires !RevertsPhase(db) && forall w :: w in ws ==> !(w.SetPhase? && w.phase.Installing?)
    ensures !RevertsPhase(ApplyAll(db, ws))
    decreases |ws|
  {
    if ws != [] {
      assert ws[0] in ws;
      NotDueStays(Applied(db, ws[0]), ws[1..]);
    }
  }

  lemma {:induction false} SweepsUninstall(stuck: seq<App>)
    ensures forall w :: w in SweepWrites(stuck) ==> w.SetPhase? && w.phase.Uninstalling?
  {
    if stuck != [] { SweepsUninstall(stuck[1..]); }
  }

  lemma NeverInstalling(db: Db, l: Listing)
    ensures forall w :: w in StartupWrites(db, l) ==> !(w.SetPhase? && w.phase.Installing?)
  {
    FaultClearsKinds(Orphans(l.rows, ReplayId(db)));
    SweepsUninstall(Stuck(ApplyAll(ApplyAll(db, CleanupWrites(db, l.rows)), ReplayWrites(db)), l.apps, OpApp(db)));
  }

  /** What the crashed start-up has filed itself. */
  lemma CrashFiles(db: Db, l: Listing, k: nat)
    requires RevertsPhase(db) && InstallInterrupted(db.op.value.app) !in db.faults
    ensures InstallInterrupted(db.op.value.app) in Crashed(db, l, k).faults <==> k >= |CleanupWrites(db, l.rows)| + 3
  {
    var app := db.op.value.app;
    var cleanup := CleanupWrites(db, l.rows);
    var ws := StartupWrites(db, l);
    var done := if k <= |ws| then ws[..k] else ws;
    FaultFiledBy(db, done, app);
    OthersFileNothing(Orphans(l.rows, ReplayId(db)),
                      Stuck(ApplyAll(ApplyAll(db, cleanup), ReplayWrites(db)), l.apps, OpApp(db)), app);
    if k >= |cleanup| + 3 {
      assert done[|cleanup| + 2] == FileInterrupted(app);
    } else {
      assert done <= cleanup + [SetPhase(app, NotInstalled), ClearOp];
    }
  }

  /** Up to the end of cleanup the next start-up reverts again. */
  lemma RevertStillDue(db: Db, l: Listing, k: nat)
    requires RevertsPhase(db) && k <= |CleanupWrites(db, l.rows)|
    ensures RevertsPhase(Crashed(db, l, k)) && Crashed(db, l, k).op == db.op
  {
    assert StartupWrites(db, l)[..k] == CleanupWrites(db, l.rows)[..k];
    CleanupPrefixKeepsRest(db, l.rows, k);
  }

  /** Once the phase is written, it does not. */
  lemma RevertForgotten(db: Db, l: Listing, k: nat)
    requires RevertsPhase(db) && |CleanupWrites(db, l.rows)| < k
    ensures !RevertsPhase(Crashed(db, l, k))
  {
    var app := db.op.value.app;
    var cleanup := CleanupWrites(db, l.rows);
    var ws := StartupWrites(db, l);
    var done := if k <= |ws| then ws[..k] else ws;
    var begun := cleanup + [SetPhase(app, NotInstalled)];
    var rest := done[|begun|..];
    assert done == begun + rest;
    CleanupKeepsRest(db, l.rows);
    ApplySnoc(db, cleanup, SetPhase(app, NotInstalled));
    assert !RevertsPhase(ApplyAll(db, begun));
    NeverInstalling(db, l);
    assert forall w :: w in rest ==> w in ws;
    NotDueStays(ApplyAll(db, begun), rest);
    ApplyConcat(db, begun, rest);
  }

  lemma {:induction false} KeepsRest(db: Db, ws: seq<Write>)
    requires forall w :: w in ws ==> w.ClearInstanceFaults? || w.DeleteDynExcept?
    ensures ApplyAll(db, ws).apps == db.apps && ApplyAll(db, ws).op == db.op
    decreases |ws|
  {
    if ws != [] {
      KeepsRest(Applied(db, ws[0]), ws[1..]);
    }
  }

  lemma {:induction false} FaultClearsKinds(orphans: seq<DynRow>)
    ensures forall w :: w in FaultClears(orphans) ==> w.ClearInstanceFaults?
  {
    if orphans != [] {
      FaultClearsKinds(orphans[1..]);
    }
  }

  lemma CleanupPrefixKeepsRest(db: Db, rows: seq<DynRow>, k: nat)
    requires k <= |CleanupWrites(db, rows)|
    ensures var d := ApplyAll(db, CleanupWrites(db, rows)[..k]); d.apps == db.apps && d.op == db.op
  {
    FaultClearsKinds(Orphans(rows, ReplayId(db)));
    KeepsRest(db, CleanupWrites(db, rows)[..k]);
  }
}
