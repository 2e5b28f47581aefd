/** The Canopy registry at lock level.

    `offer` and `revoke_all` take the index lock and the offers lock one after the other, and so do
    `withdraw` and `remove_by_conn`. Here any number of threads run the four methods, interleaved
    at every lock release. */
module CanopyLocks {
  import opened Common
  import opened CanopyOffers

  type Thread = nat

  /** Where a thread is inside a method; a thread between methods has no entry. */
  datatype Pc =
    | Indexing(offer: Offer)                    // offer: about to push the id
    | Inserting(offer: Offer)                   // offer: pushed, about to insert
    | Unindexing(conn: ConnId, id: OfferId)     // withdraw: removed, about to unindex
    | Draining(conn: ConnId, ids: seq<OfferId>) // remove_by_conn: has the ids, about to remove them
    | Clearing                                  // revoke_all: index cleared, about to drain

  datatype Ender = ByWithdraw(conn: ConnId) | ByClose(conn: ConnId) | ByRevoke

  datatype Ending = Ending(offer: Offer, ender: Ender)

  /** For checking: `made` are all offers ever generated, `ended` counts the reports of each id as
      ended, `endings` records by whom, and `cut` are the ids whose index entry was taken away
      while their insert was still to come. */
  datatype Locks = Locks(
    offers: map<OfferId, Offer>, index: map<ConnId, seq<OfferId>>, nextSeq: nat,
    threads: map<Thread, Pc>,
    made: map<OfferId, Offer>, ended: multiset<OfferId>, endings: set<Ending>, cut: set<OfferId>)

  datatype Step =
    | Generate(t: Thread, id: OfferId, conn: ConnId)
    | Push(t: Thread)
    | Insert(t: Thread)
    | RemoveOwn(t: Thread, id: OfferId, conn: ConnId)
    | Unindex(t: Thread)
    | TakeEntry(t: Thread, conn: ConnId)
    | RemoveTaken(t: Thread)
    | ClearIndex(t: Thread)
    | DrainAll(t: Thread)

  const Start := Locks(map[], map[], 0, map[], map[], multiset{}, {}, {})

  predicate Idle(s: Locks, t: Thread) {
    t !in s.threads
  }

  /** The ids listed anywhere in the index whose insert is still to come. */
  function HalfMade(s: Locks, ids: seq<OfferId>): set<OfferId> {
    set t | t in s.threads && s.threads[t].Inserting? && s.threads[t].offer.id in ids :: s.threads[t].offer.id
  }

  function AllHalfMade(s: Locks): set<OfferId> {
    set t | t in s.threads && s.threads[t].Inserting? &&
            s.threads[t].offer.id in Entry(s.index, s.threads[t].offer.conn)
      :: s.threads[t].offer.id
  }

  function GenerateStep(s: Locks, t: Thread, id: OfferId, conn: ConnId): Locks {
    var o := Offer(id, conn, s.nextSeq);
    s.(nextSeq := s.nextSeq + 1, threads := s.threads[t := Indexing(o)], made := s.made[id := o])
  }

  function InsertStep(s: Locks, t: Thread, o: Offer): Locks {
    s.(offers := s.offers[o.id := o], threads := s.threads - {t})
  }

  function UnindexStep(s: Locks, t: Thread, conn: ConnId, id: OfferId): Locks {
    s.(index := Unindexed(s.index, conn, id), threads := s.threads - {t})
  }

  function PushStep(s: Locks, t: Thread, o: Offer): Locks {
    s.(index := s.index[o.conn := Entry(s.index, o.conn) + [o.id]], threads := s.threads[t := Inserting(o)])
  }

  function RemoveOwnStep(s: Locks, t: Thread, o: Offer): Locks {
    s.(offers := s.offers - {o.id}, threads := s.threads[t := Unindexing(o.conn, o.id)],
       ended := s.ended + multiset{o.id}, endings := s.endings + {Ending(o, ByWithdraw(o.conn))})
  }

  function TakeEntryStep(s: Locks, t: Thread, conn: ConnId): Locks {
    s.(index := s.index - {conn}, threads := s.threads[t := Draining(conn, Entry(s.index, conn))],
       cut := s.cut + HalfMade(s, Entry(s.index, conn)))
  }

  function RemoveTakenStep(s: Locks, t: Thread, conn: ConnId, ids: seq<OfferId>): Locks {
    var there := set id | id in ids && id in s.offers;
    s.(offers := s.offers - there, threads := s.threads - {t}, ended := s.ended + multiset(there),
       endings := s.endings + set id | id in there :: Ending(s.offers[id], ByClose(conn)))
  }

  function ClearIndexStep(s: Locks, t: Thread): Locks {
    s.(index := map[], threads := s.threads[t := Clearing], cut := s.cut + AllHalfMade(s))
  }

  function DrainAllStep(s: Locks, t: Thread): Locks {
    s.(offers := map[], threads := s.threads - {t}, ended := s.ended + multiset(s.offers.Keys),
       endings := s.endings + set id | id in s.offers :: Ending(s.offers[id], ByRevoke))
  }

  /** One locked section of one thread; a step that is not enabled changes nothing. */
  function Step1(s: Locks, step: Step): Locks {
    match step
    case Generate(t, id, conn) =>
      if !Idle(s, t) || id in s.made then s else GenerateStep(s, t, id, conn)
    case Push(t) =>
      if Idle(s, t) || !s.threads[t].Indexing? then s else PushStep(s, t, s.threads[t].offer)
    case Insert(t) =>
      if Idle(s, t) || !s.threads[t].Inserting? then s else InsertStep(s, t, s.threads[t].offer)
    case RemoveOwn(t, id, conn) =>
      if !Idle(s, t) || id !in s.offers || s.offers[id].conn != conn || s.offers[id].id != id then s
      else RemoveOwnStep(s, t, s.offers[id])
    case Unindex(t) =>
      if Idle(s, t) || !s.threads[t].Unindexing? then s
      else UnindexStep(s, t, s.threads[t].conn, s.threads[t].id)
    case TakeEntry(t, conn) => if !Idle(s, t) then s else TakeEntryStep(s, t, conn)
    case RemoveTaken(t) =>
      if Idle(s, t) || !s.threads[t].Draining? then s
      else RemoveTakenStep(s, t, s.threads[t].conn, s.threads[t].ids)
    case ClearIndex(t) => if !Idle(s, t) then s else ClearIndexStep(s, t)
    case DrainAll(t) => if Idle(s, t) || !s.threads[t].Clearing? then s else DrainAllStep(s, t)
  }

  function Run(steps: seq<Step>): Locks {
    if steps == [] then Start else Step1(Run(steps[..|steps| - 1]), steps[|steps| - 1])
  }

  /** The offer is generated but not yet in the map. */
  predicate Making(pc: Pc) {
    pc.Indexing? || pc.Inserting?
  }

  ghost predicate Pending(s: Locks, id: OfferId) {
    exists t :: t in s.threads && Making(s.threads[t]) && s.threads[t].offer.id == id
  }

  /** Every generated offer is in exactly one place: being made, live, or ended once. */
  ghost predicate OnePlace(s: Locks) {
    && (forall t :: t in s.threads && Making(s.threads[t]) ==>
          var o := s.threads[t].offer;
          o.id in s.made && s.made[o.id] == o && o.id !in s.offers && s.ended[o.id] == 0)
    && (forall t, u :: t in s.threads && u in s.threads && t != u && Making(s.threads[t]) && Making(s.threads[u]) ==>
          s.threads[t].offer.id != s.threads[u].offer.id)
    && (forall id :: id in s.offers ==> id in s.made && s.made[id] == s.offers[id] && s.ended[id] == 0)
    && (forall id :: id in s.made ==> s.made[id].id == id)
    && (forall id :: id in s.made && id !in s.offers && !Pending(s, id) ==> s.ended[id] == 1)
    && (forall id :: id !in s.made ==> s.ended[id] == 0)
  }

  /** Only thread `t` moved. */
  ghost predicate OnlyMoved(s: Locks, s': Locks, t: Thread) {
    && (forall u :: u != t ==> (u in s.threads <==> u in s'.threads))
    && (forall u :: u != t && u in s.threads ==> s'.threads[u] == s.threads[u])
  }

  /** The offer a thread is making, if it is making one. */
  function MakingBy(s: Locks, t: Thread): Option<Offer> {
    if t in s.threads && Making(s.threads[t]) then Some(s.threads[t].offer) else None
  }

  lemma PendingMoved(s: Locks, s': Locks, t: Thread, id: OfferId)
    requires OnlyMoved(s, s', t)
    ensures Pending(s', id) && !Pending(s, id) ==> MakingBy(s', t).Some? && MakingBy(s', t).value.id == id
    ensures Pending(s, id) && !Pending(s', id) ==> MakingBy(s, t).Some? && MakingBy(s, t).value.id == id
    ensures MakingBy(s', t).Some? && MakingBy(s', t).value.id == id ==> Pending(s', id)
  {
    if Pending(s', id) {
      var u :| u in s'.threads && Making(s'.threads[u]) && s'.threads[u].offer.id == id;
      assert u != t ==> u in s.threads && Making(s.threads[u]) && s.threads[u].offer.id == id;
    }
    if Pending(s, id) {
      var u :| u in s.threads && Making(s.threads[u]) && s.threads[u].offer.id == id;
      assert u != t ==> u in s'.threads && Making(s'.threads[u]) && s'.threads[u].offer.id == id;
    }
  }

  lemma GenerateOnePlace(s: Locks, t: Thread, id: OfferId, conn: ConnId)
    requires OnePlace(s) && Idle(s, t) && id !in s.made
    ensures OnePlace(GenerateStep(s, t, id, conn))
  {
    var s' := GenerateStep(s, t, id, conn);
    forall x ensures (Pending(s, x) ==> Pending(s', x)) && (x == id ==> Pending(s', x)) {
      PendingMoved(s, s', t, x);
    }
  }

  lemma InsertOnePlace(s: Locks, t: Thread)
    requires OnePlace(s) && t in s.threads && s.threads[t].Inserting?
    ensures OnePlace(InsertStep(s, t, s.threads[t].offer))
  {
    var s' := InsertStep(s, t, s.threads[t].offer);
    forall x ensures Pending(s, x) && x != s.threads[t].offer.id ==> Pending(s', x) {
      PendingMoved(s, s', t, x);
    }
  }

  /** A step that moves no offer. */
  lemma StayOnePlace(s: Locks, s': Locks, t: Thread)
    requires OnePlace(s) && OnlyMoved(s, s', t)
    requires s'.offers == s.offers && s'.made == s.made && s'.ended == s.ended
    requires MakingBy(s', t) == MakingBy(s, t)
    ensures OnePlace(s')
  {
    forall x ensures Pending(s, x) ==> Pending(s', x) {
      PendingMoved(s, s', t, x);
    }
    forall u, v | u in s'.threads && v in s'.threads && u != v && Making(s'.threads[u]) && Making(s'.threads[v])
      ensures s'.threads[u].offer.id != s'.threads[v].offer.id
    {
      assert MakingBy(s', u) == MakingBy(s, u) && MakingBy(s', v) == MakingBy(s, v);
    }
    forall u | u in s'.threads && Making(s'.threads[u])
      ensures u in s.threads && Making(s.threads[u]) && s.threads[u].offer == s'.threads[u].offer
    {
      assert MakingBy(s', u) == MakingBy(s, u);
    }
  }

  /** A step that takes the offers `there` out and reports each of them once. */
  lemma RemoveOnePlace(s: Locks, s': Locks, t: Thread, there: set<OfferId>)
    requires OnePlace(s) && OnlyMoved(s, s', t)
    requires there <= s.offers.Keys
    requires s'.offers == s.offers - there && s'.made == s.made && s'.ended == s.ended + multiset(there)
    requires MakingBy(s, t) == None == MakingBy(s', t)
    ensures OnePlace(s')
  {
    forall x ensures Pending(s, x) ==> Pending(s', x) {
      PendingMoved(s, s', t, x);
    }
    forall u | u in s'.threads && Making(s'.threads[u])
      ensures u in s.threads && s.threads[u] == s'.threads[u]
    {
      assert u != t;
    }
  }

  lemma QuietStepOnePlace(s: Locks, step: Step)
    requires OnePlace(s)
    requires step.Push? || step.Unindex? || step.TakeEntry? || step.ClearIndex?
    ensures OnePlace(Step1(s, step))
  {
    var s' := Step1(s, step);
    if s' != s {
      StayOnePlace(s, s', step.t);
    }
  }

  lemma RemoveOwnOnePlace(s: Locks, t: Thread, o: Offer)
    requires OnePlace(s) && Idle(s, t) && o.id in s.offers
    ensures OnePlace(RemoveOwnStep(s, t, o))
  {
    assert multiset({o.id}) == multiset{o.id};
    RemoveOnePlace(s, RemoveOwnStep(s, t, o), t, {o.id});
  }

  lemma RemoveTakenOnePlace(s: Locks, t: Thread)
    requires OnePlace(s) && t in s.threads && s.threads[t].Draining?
    ensures OnePlace(RemoveTakenStep(s, t, s.threads[t].conn, s.threads[t].ids))
  {
    RemoveOnePlace(s, RemoveTakenStep(s, t, s.threads[t].conn, s.threads[t].ids), t,
                   set id | id in s.threads[t].ids && id in s.offers);
  }

  lemma DrainAllOnePlace(s: Locks, t: Thread)
    requires OnePlace(s) && t in s.threads && s.threads[t].Clearing?
    ensures OnePlace(DrainAllStep(s, t))
  {
    assert s.offers - s.offers.Keys == map[];
    RemoveOnePlace(s, DrainAllStep(s, t), t, s.offers.Keys);
  }

  lemma MakingOnePlace(s: Locks, step: Step)
    requires OnePlace(s) && (step.Generate? || step.Insert?)
    ensures OnePlace(Step1(s, step))
  {
    match step
    case Generate(t, id, conn) => if Idle(s, t) && id !in s.made { GenerateOnePlace(s, t, id, conn); }
    case Insert(t) => if t in s.threads && s.threads[t].Inserting? { InsertOnePlace(s, t); }
  }

  lemma RemovingOnePlace(s: Locks, step: Step)
    requires OnePlace(s) && (step.RemoveOwn? || step.RemoveTaken? || step.DrainAll?)
    ensures OnePlace(Step1(s, step))
  {
    var s' := Step1(s, step);
    if s' != s {
      match step
      case RemoveOwn(t, id, _) =>
        RemoveOwnOnePlace(s, t, s.offers[id]);
        assert s' == RemoveOwnStep(s, t, s.offers[id]);
      case RemoveTaken(t) =>
        RemoveTakenOnePlace(s, t);
        assert s' == RemoveTakenStep(s, t, s.threads[t].conn, s.threads[t].ids);
      case DrainAll(t) =>
        DrainAllOnePlace(s, t);
        assert s' == DrainAllStep(s, t);
    }
  }

  lemma OnePlaceStep(s: Locks, step: Step)
    requires OnePlace(s)
    ensures OnePlace(Step1(s, step))
  {
    if step.Generate? || step.Insert? { MakingOnePlace(s, step); }
    else if step.RemoveOwn? || step.RemoveTaken? || step.DrainAll? { RemovingOnePlace(s, step); }
    else { QuietStepOnePlace(s, step); }
  }

  /** However the locked sections interleave, each offer is reported as ended at most once; it has
      been reported exactly when it is neither live nor still being registered. */
  lemma {:induction false} EndedAtMostOnce(steps: seq<Step>)
    ensures OnePlace(Run(steps))
    ensures forall id :: Run(steps).ended[id] <= 1
    ensures forall id :: Run(steps).ended[id] == 1 <==>
              id in Run(steps).made && id !in Run(steps).offers && !Pending(Run(steps), id)
  {
    if steps != [] {
      EndedAtMostOnce(steps[..|steps| - 1]);
      OnePlaceStep(Run(steps[..|steps| - 1]), steps[|steps| - 1]);
    }
    OnePlaceCounts(Run(steps));
  }

  lemma OnePlaceCounts(s: Locks)
    requires OnePlace(s)
    ensures forall id :: s.ended[id] <= 1
    ensures forall id :: s.ended[id] == 1 <==> id in s.made && id !in s.offers && !Pending(s, id)
  {
    forall id ensures s.ended[id] <= 1 && (s.ended[id] == 1 <==> id in s.made && id !in s.offers && !Pending(s, id)) {
      if Pending(s, id) {
        var t :| t in s.threads && Making(s.threads[t]) && s.threads[t].offer.id == id;
      }
    }
  }

  // ---------------------------------------------------------------------
  // Nobody ends another connection's offer
  // ---------------------------------------------------------------------

  /** Ids are only ever filed under the connection of their offer. */
  ghost predicate FiledRight(s: Locks) {
    && (forall c, id :: id in Entry(s.index, c) ==> id in s.made && s.made[id].conn == c)
    && (forall t, id :: t in s.threads && s.threads[t].Draining? && id in s.threads[t].ids ==>
          id in s.made && s.made[id].conn == s.threads[t].conn)
    && (forall e :: e in s.endings && !e.ender.ByRevoke? ==> e.offer.conn == e.ender.conn)
  }

  lemma FiledRightUnder(s: Locks, s': Locks, t: Thread)
    requires FiledRight(s) && OnlyMoved(s, s', t)
    requires forall id :: id in s.made ==> id in s'.made && s'.made[id] == s.made[id]
    requires forall c, id :: id in Entry(s'.index, c) ==>
               id in Entry(s.index, c) || (id in s'.made && s'.made[id].conn == c)
    requires t in s'.threads && s'.threads[t].Draining? ==>
               forall id :: id in s'.threads[t].ids ==> id in Entry(s.index, s'.threads[t].conn)
    requires forall e :: e in s'.endings && e !in s.endings && !e.ender.ByRevoke? ==> e.offer.conn == e.ender.conn
    ensures FiledRight(s')
  {
  }

  lemma UnindexFiled(s: Locks, t: Thread)
    requires FiledRight(s) && t in s.threads && s.threads[t].Unindexing?
    ensures FiledRight(UnindexStep(s, t, s.threads[t].conn, s.threads[t].id))
  {
    RetainMembers(Entry(s.index, s.threads[t].conn), s.threads[t].id);
    FiledRightUnder(s, UnindexStep(s, t, s.threads[t].conn, s.threads[t].id), t);
  }

  lemma PushFiled(s: Locks, t: Thread)
    requires FiledRight(s) && t in s.threads && s.threads[t].Indexing?
    requires var o := s.threads[t].offer; o.id in s.made && s.made[o.id] == o
    ensures FiledRight(PushStep(s, t, s.threads[t].offer))
  {
    FiledRightUnder(s, PushStep(s, t, s.threads[t].offer), t);
  }

  lemma RemoveTakenFiled(s: Locks, t: Thread)
    requires FiledRight(s) && t in s.threads && s.threads[t].Draining?
    requires forall id :: id in s.offers ==> id in s.made && s.made[id] == s.offers[id]
    ensures FiledRight(RemoveTakenStep(s, t, s.threads[t].conn, s.threads[t].ids))
  {
    FiledRightUnder(s, RemoveTakenStep(s, t, s.threads[t].conn, s.threads[t].ids), t);
  }

  lemma RemoveOwnFiled(s: Locks, t: Thread, o: Offer)
    requires FiledRight(s) && Idle(s, t)
    ensures FiledRight(RemoveOwnStep(s, t, o))
  {
    FiledRightUnder(s, RemoveOwnStep(s, t, o), t);
  }

  lemma DrainAllFiled(s: Locks, t: Thread)
    requires FiledRight(s)
    ensures FiledRight(DrainAllStep(s, t))
  {
    FiledRightUnder(s, DrainAllStep(s, t), t);
  }

  lemma GenerateFiled(s: Locks, t: Thread, id: OfferId, conn: ConnId)
    requires FiledRight(s) && Idle(s, t) && id !in s.made
    ensures FiledRight(GenerateStep(s, t, id, conn))
  {
    FiledRightUnder(s, GenerateStep(s, t, id, conn), t);
  }

  lemma QuietFiled(s: Locks, step: Step)
    requires FiledRight(s)
    requires step.Insert? || step.TakeEntry? || step.ClearIndex?
    ensures FiledRight(Step1(s, step))
  {
    var s' := Step1(s, step);
    if s' != s { FiledRightUnder(s, s', step.t); }
  }

  lemma FiledRightStep(s: Locks, step: Step)
    requires OnePlace(s) && FiledRight(s)
    ensures FiledRight(Step1(s, step))
  {
    match step
    case Unindex(t) => if t in s.threads && s.threads[t].Unindexing? { UnindexFiled(s, t); }
    case Push(t) => if t in s.threads && s.threads[t].Indexing? { PushFiled(s, t); }
    case RemoveTaken(t) => if t in s.threads && s.threads[t].Draining? { RemoveTakenFiled(s, t); }
    case RemoveOwn(t, id, _) => if Idle(s, t) && id in s.offers { RemoveOwnFiled(s, t, s.offers[id]); }
    case DrainAll(t) => DrainAllFiled(s, t);
    case Generate(t, id, conn) => if Idle(s, t) && id !in s.made { GenerateFiled(s, t, id, conn); }
    case _ => QuietFiled(s, step);
  }

  /** `withdraw` and `remove_by_conn` only ever end offers of the connection they were called for. */
  lemma {:induction false} OnlyOwnEnded(steps: seq<Step>)
    ensures FiledRight(Run(steps))
    ensures forall e :: e in Run(steps).endings && !e.ender.ByRevoke? ==> e.offer.conn == e.ender.conn
  {
    if steps != [] {
      OnlyOwnEnded(steps[..|steps| - 1]);
      EndedAtMostOnce(steps[..|steps| - 1]);
      FiledRightStep(Run(steps[..|steps| - 1]), steps[|steps| - 1]);
    }
  }

  // ---------------------------------------------------------------------
  // Offers that closing their connection will never find
  // ---------------------------------------------------------------------

  ghost predicate Listed(s: Locks, o: Offer) {
    o.id in Entry(s.index, o.conn)
  }

  /** Some thread has taken the offer off the index and is about to remove it. */
  ghost predicate Doomed(s: Locks, o: Offer) {
    || (exists t :: t in s.threads && s.threads[t].Draining? && o.id in s.threads[t].ids)
    || (exists t :: t in s.threads && s.threads[t].Clearing?)
  }

  ghost predicate LiveFindable(s: Locks) {
    forall id :: id in s.offers && id !in s.cut ==> Listed(s, s.offers[id]) || Doomed(s, s.offers[id])
  }

  ghost predicate MakingListed(s: Locks) {
    && (forall t :: t in s.threads && s.threads[t].Inserting? && s.threads[t].offer.id !in s.cut ==>
          Listed(s, s.threads[t].offer))
    && (forall t :: t in s.threads && s.threads[t].Indexing? ==>
          s.threads[t].offer.id !in s.cut && !Listed(s, s.threads[t].offer))
  }

  ghost predicate CutUnlisted(s: Locks) {
    forall id :: id in s.cut ==> id in s.made && !Listed(s, s.made[id])
  }

  ghost predicate Tracked(s: Locks) {
    && LiveFindable(s) && MakingListed(s) && CutUnlisted(s)
    && (forall t :: t in s.threads && s.threads[t].Unindexing? ==> s.ended[s.threads[t].id] > 0)
  }

  ghost predicate Good(s: Locks) {
    OnePlace(s) && FiledRight(s) && Tracked(s)
  }

  lemma DoomedKept(s: Locks, s': Locks, t: Thread, o: Offer)
    requires OnlyMoved(s, s', t)
    requires t in s.threads ==> !s.threads[t].Draining? && !s.threads[t].Clearing?
    requires Doomed(s, o)
    ensures Doomed(s', o)
  {
    if exists u :: u in s.threads && s.threads[u].Draining? && o.id in s.threads[u].ids {
      var u :| u in s.threads && s.threads[u].Draining? && o.id in s.threads[u].ids;
      assert u in s'.threads && s'.threads[u].Draining? && o.id in s'.threads[u].ids;
    } else {
      var u :| u in s.threads && s.threads[u].Clearing?;
      assert u in s'.threads && s'.threads[u].Clearing?;
    }
  }

  /** Offers stay findable when only such a thread moves and none of them goes unlisted. */
  lemma LiveUnder(s: Locks, s': Locks, t: Thread)
    requires LiveFindable(s) && OnlyMoved(s, s', t)
    requires t in s.threads ==> !s.threads[t].Draining? && !s.threads[t].Clearing?
    requires forall x :: x in s'.offers && x !in s'.cut && !Listed(s', s'.offers[x]) ==>
               x in s.offers && s.offers[x] == s'.offers[x] && x !in s.cut && !Listed(s, s.offers[x])
    ensures LiveFindable(s')
  {
    forall x | x in s'.offers && x !in s'.cut && !Listed(s', s'.offers[x]) ensures Doomed(s', s'.offers[x]) {
      DoomedKept(s, s', t, s.offers[x]);
    }
  }

  lemma GenerateTracked(s: Locks, t: Thread, id: OfferId, conn: ConnId)
    requires FiledRight(s) && Tracked(s) && Idle(s, t) && id !in s.made
    ensures Tracked(GenerateStep(s, t, id, conn))
  {
    LiveUnder(s, GenerateStep(s, t, id, conn), t);
  }

  lemma ListedAfterPush(s: Locks, t: Thread, o: Offer, x: Offer)
    ensures Listed(PushStep(s, t, o), x) <==> Listed(s, x) || (x.id == o.id && x.conn == o.conn)
  {
  }

  lemma PushLive(s: Locks, t: Thread)
    requires Tracked(s) && t in s.threads && s.threads[t].Indexing?
    ensures LiveFindable(PushStep(s, t, s.threads[t].offer))
  {
    var o := s.threads[t].offer;
    forall x: Offer ensures Listed(s, x) ==> Listed(PushStep(s, t, o), x) {
      ListedAfterPush(s, t, o, x);
    }
    LiveUnder(s, PushStep(s, t, o), t);
  }

  lemma PushMaking(s: Locks, t: Thread)
    requires Good(s) && t in s.threads && s.threads[t].Indexing?
    ensures MakingListed(PushStep(s, t, s.threads[t].offer))
  {
    var o := s.threads[t].offer;
    var s' := PushStep(s, t, o);
    forall u | u in s'.threads && Making(s'.threads[u])
      ensures Listed(s', s'.threads[u].offer) <==> u == t || Listed(s, s'.threads[u].offer)
    {
      ListedAfterPush(s, t, o, s'.threads[u].offer);
    }
  }

  lemma PushTracked(s: Locks, t: Thread)
    requires Good(s) && t in s.threads && s.threads[t].Indexing?
    ensures Tracked(PushStep(s, t, s.threads[t].offer))
  {
    PushLive(s, t);
    PushMaking(s, t);
    var o := s.threads[t].offer;
    forall id | id in s.cut ensures id in s.made && !Listed(PushStep(s, t, o), s.made[id]) {
      ListedAfterPush(s, t, o, s.made[id]);
    }
  }

  lemma InsertTracked(s: Locks, t: Thread)
    requires Tracked(s) && t in s.threads && s.threads[t].Inserting?
    ensures Tracked(InsertStep(s, t, s.threads[t].offer))
  {
    LiveUnder(s, InsertStep(s, t, s.threads[t].offer), t);
  }

  lemma RemoveOwnTracked(s: Locks, t: Thread, o: Offer)
    requires Tracked(s) && Idle(s, t) && o.id in s.offers && s.offers[o.id] == o
    ensures Tracked(RemoveOwnStep(s, t, o))
  {
    LiveUnder(s, RemoveOwnStep(s, t, o), t);
  }

  lemma ListedAfterUnindex(s: Locks, t: Thread, x: Offer)
    requires t in s.threads && s.threads[t].Unindexing?
    ensures var s' := UnindexStep(s, t, s.threads[t].conn, s.threads[t].id);
            (Listed(s', x) ==> Listed(s, x)) && (Listed(s, x) && x.id != s.threads[t].id ==> Listed(s', x))
  {
    RetainMembers(Entry(s.index, s.threads[t].conn), s.threads[t].id);
  }

  lemma UnindexLive(s: Locks, t: Thread)
    requires LiveFindable(s) && t in s.threads && s.threads[t].Unindexing?
    requires forall x :: x in s.offers ==> s.offers[x].id != s.threads[t].id
    ensures LiveFindable(UnindexStep(s, t, s.threads[t].conn, s.threads[t].id))
  {
    var s' := UnindexStep(s, t, s.threads[t].conn, s.threads[t].id);
    forall x: Offer ensures Listed(s, x) && x.id != s.threads[t].id ==> Listed(s', x) {
      ListedAfterUnindex(s, t, x);
    }
    LiveUnder(s, s', t);
  }

  lemma UnindexMaking(s: Locks, t: Thread)
    requires MakingListed(s) && t in s.threads && s.threads[t].Unindexing?
    requires forall u :: u in s.threads && Making(s.threads[u]) ==> s.threads[u].offer.id != s.threads[t].id
    ensures MakingListed(UnindexStep(s, t, s.threads[t].conn, s.threads[t].id))
  {
    var s' := UnindexStep(s, t, s.threads[t].conn, s.threads[t].id);
    forall u | u in s'.threads && Making(s'.threads[u])
      ensures Listed(s', s'.threads[u].offer) <==> Listed(s, s'.threads[u].offer)
    {
      ListedAfterUnindex(s, t, s'.threads[u].offer);
    }
  }

  lemma UnindexCut(s: Locks, t: Thread)
    requires CutUnlisted(s) && t in s.threads && s.threads[t].Unindexing?
    ensures CutUnlisted(UnindexStep(s, t, s.threads[t].conn, s.threads[t].id))
  {
    var s' := UnindexStep(s, t, s.threads[t].conn, s.threads[t].id);
    forall id | id in s.cut ensures !Listed(s', s.made[id]) {
      ListedAfterUnindex(s, t, s.made[id]);
    }
  }

  lemma UnindexTracked(s: Locks, t: Thread)
    requires OnePlace(s) && Tracked(s) && t in s.threads && s.threads[t].Unindexing?
    ensures Tracked(UnindexStep(s, t, s.threads[t].conn, s.threads[t].id))
  {
    assert forall x :: x in s.offers ==> s.offers[x].id == x;
    UnindexLive(s, t);
    UnindexMaking(s, t);
    UnindexCut(s, t);
  }

  lemma ListedAfterTake(s: Locks, t: Thread, conn: ConnId, x: Offer)
    ensures Listed(TakeEntryStep(s, t, conn), x) <==> Listed(s, x) && x.conn != conn
  {
  }

  lemma TakeEntryLive(s: Locks, t: Thread, conn: ConnId)
    requires Good(s) && Idle(s, t)
    ensures LiveFindable(TakeEntryStep(s, t, conn))
  {
    var s' := TakeEntryStep(s, t, conn);
    forall x | x in s'.offers && x !in s'.cut ensures Listed(s', s'.offers[x]) || Doomed(s', s'.offers[x]) {
      if Doomed(s, s.offers[x]) {
        DoomedKept(s, s', t, s.offers[x]);
      } else if s.offers[x].conn == conn {
        assert t in s'.threads && s'.threads[t].Draining? && s.offers[x].id in s'.threads[t].ids;
      } else {
        ListedAfterTake(s, t, conn, s.offers[x]);
      }
    }
  }

  lemma TakeEntryMaking(s: Locks, t: Thread, conn: ConnId)
    requires OnePlace(s) && MakingListed(s) && Idle(s, t)
    ensures MakingListed(TakeEntryStep(s, t, conn))
  {
    var s' := TakeEntryStep(s, t, conn);
    forall u | u in s'.threads && Making(s'.threads[u])
      ensures u in s.threads && s.threads[u] == s'.threads[u]
      ensures Listed(s', s'.threads[u].offer) <==> Listed(s, s'.threads[u].offer) && s'.threads[u].offer.conn != conn
    {
      ListedAfterTake(s, t, conn, s'.threads[u].offer);
    }
  }

  lemma TakeEntryCut(s: Locks, t: Thread, conn: ConnId)
    requires OnePlace(s) && FiledRight(s) && CutUnlisted(s) && Idle(s, t)
    ensures CutUnlisted(TakeEntryStep(s, t, conn))
  {
    var s' := TakeEntryStep(s, t, conn);
    forall id | id in s'.cut ensures id in s'.made && !Listed(s', s'.made[id]) {
      ListedAfterTake(s, t, conn, s.made[id]);
    }
  }

  lemma TakeEntryTracked(s: Locks, t: Thread, conn: ConnId)
    requires Good(s) && Idle(s, t)
    ensures Tracked(TakeEntryStep(s, t, conn))
  {
    TakeEntryLive(s, t, conn);
    TakeEntryMaking(s, t, conn);
    TakeEntryCut(s, t, conn);
  }

  lemma RemoveTakenLive(s: Locks, t: Thread)
    requires LiveFindable(s) && t in s.threads && s.threads[t].Draining?
    requires forall x :: x in s.offers ==> s.offers[x].id == x
    ensures LiveFindable(RemoveTakenStep(s, t, s.threads[t].conn, s.threads[t].ids))
  {
    var s' := RemoveTakenStep(s, t, s.threads[t].conn, s.threads[t].ids);
    forall x | x in s'.offers && x !in s'.cut ensures Listed(s', s'.offers[x]) || Doomed(s', s'.offers[x]) {
      assert x !in s.threads[t].ids;
      if exists u :: u in s.threads && s.threads[u].Draining? && x in s.threads[u].ids {
        var u :| u in s.threads && s.threads[u].Draining? && x in s.threads[u].ids;
        assert u in s'.threads && s'.threads[u].Draining? && x in s'.threads[u].ids;
      } else if exists u :: u in s.threads && s.threads[u].Clearing? {
        var u :| u in s.threads && s.threads[u].Clearing?;
        assert u in s'.threads && s'.threads[u].Clearing?;
      }
    }
  }

  lemma RemoveTakenTracked(s: Locks, t: Thread)
    requires OnePlace(s) && Tracked(s) && t in s.threads && s.threads[t].Draining?
    ensures Tracked(RemoveTakenStep(s, t, s.threads[t].conn, s.threads[t].ids))
  {
    assert forall x :: x in s.offers ==> s.offers[x].id == x;
    RemoveTakenLive(s, t);
  }

  lemma ClearIndexMaking(s: Locks, t: Thread)
    requires OnePlace(s) && MakingListed(s) && Idle(s, t)
    ensures MakingListed(ClearIndexStep(s, t))
  {
    var s' := ClearIndexStep(s, t);
    assert forall u :: u in s'.threads && Making(s'.threads[u]) ==> u in s.threads && s.threads[u] == s'.threads[u];
  }

  lemma ClearIndexTracked(s: Locks, t: Thread)
    requires OnePlace(s) && Tracked(s) && Idle(s, t)
    ensures Tracked(ClearIndexStep(s, t))
  {
    ClearIndexMaking(s, t);
    var s' := ClearIndexStep(s, t);
    assert LiveFindable(s') by {
      assert t in s'.threads && s'.threads[t].Clearing?;
    }
  }

  lemma DrainAllTracked(s: Locks, t: Thread)
    requires Good(s) && t in s.threads && s.threads[t].Clearing?
    ensures Tracked(DrainAllStep(s, t))
  {
  }

  lemma OfferingTracked(s: Locks, step: Step)
    requires Good(s) && (step.Generate? || step.Push? || step.Insert?)
    ensures Tracked(Step1(s, step))
  {
    match step
    case Generate(t, id, conn) => if Idle(s, t) && id !in s.made { GenerateTracked(s, t, id, conn); }
    case Push(t) => if t in s.threads && s.threads[t].Indexing? { PushTracked(s, t); }
    case Insert(t) => if t in s.threads && s.threads[t].Inserting? { InsertTracked(s, t); }
  }

  lemma RemoveOwnNext(s: Locks, t: Thread, id: OfferId, conn: ConnId)
    requires Good(s)
    ensures Tracked(Step1(s, RemoveOwn(t, id, conn)))
  {
    if Idle(s, t) && id in s.offers && s.offers[id].id == id { RemoveOwnTracked(s, t, s.offers[id]); }
  }

  lemma UnindexNext(s: Locks, t: Thread)
    requires Good(s)
    ensures Tracked(Step1(s, Unindex(t)))
  {
    if t in s.threads && s.threads[t].Unindexing? { UnindexTracked(s, t); }
  }

  lemma TakeEntryNext(s: Locks, t: Thread, conn: ConnId)
    requires Good(s)
    ensures Tracked(Step1(s, TakeEntry(t, conn)))
  {
    if Idle(s, t) { TakeEntryTracked(s, t, conn); }
  }

  lemma RemoveTakenNext(s: Locks, t: Thread)
    requires Good(s)
    ensures Tracked(Step1(s, RemoveTaken(t)))
  {
    if t in s.threads && s.threads[t].Draining? { RemoveTakenTracked(s, t); }
  }

  lemma RevokingTracked(s: Locks, step: Step)
    requires Good(s) && (step.ClearIndex? || step.DrainAll?)
    ensures Tracked(Step1(s, step))
  {
    match step
    case ClearIndex(t) => if Idle(s, t) { ClearIndexTracked(s, t); }
    case DrainAll(t) => if t in s.threads && s.threads[t].Clearing? { DrainAllTracked(s, t); }
  }

  lemma TrackedStep(s: Locks, step: Step)
    requires Good(s)
    ensures Tracked(Step1(s, step))
  {
    if step.Generate? || step.Push? || step.Insert? { OfferingTracked(s, step); }
    else if step.RemoveOwn? { RemoveOwnNext(s, step.t, step.id, step.conn); }
    else if step.Unindex? { UnindexNext(s, step.t); }
    else if step.TakeEntry? { TakeEntryNext(s, step.t, step.conn); }
    else if step.RemoveTaken? { RemoveTakenNext(s, step.t); }
    else { RevokingTracked(s, step); }
  }

  lemma {:induction false} AlwaysGood(steps: seq<Step>)
    ensures Good(Run(steps))
  {
    if steps != [] {
      var p := steps[..|steps| - 1];
      AlwaysGood(p);
      OnePlaceStep(Run(p), steps[|steps| - 1]);
      FiledRightStep(Run(p), steps[|steps| - 1]);
      TrackedStep(Run(p), steps[|steps| - 1]);
    }
  }

  /** Once every method has returned, a live offer is missing from its connection's index entry,
      and so survives the connection, exactly when `remove_by_conn` or `revoke_all` took the entry
      away between the offer's push and its insert. */
  lemma StrandedExactly(steps: seq<Step>, id: OfferId)
    requires Run(steps).threads == map[]
    requires id in Run(steps).offers
    ensures Listed(Run(steps), Run(steps).offers[id]) <==> id !in Run(steps).cut
  {
    AlwaysGood(steps);
  }

  /** It does happen, from every state in which an offer has been pushed and not yet
      inserted: if its connection closes now, the offer ends up live with nothing to find it by. */
  lemma CloseDuringOfferStrands(s: Locks, t: Thread, u: Thread)
    requires t in s.threads && s.threads[t].Inserting? && Listed(s, s.threads[t].offer) && Idle(s, u)
    ensures var o := s.threads[t].offer;
            var s' := Step1(Step1(Step1(s, TakeEntry(u, o.conn)), RemoveTaken(u)), Insert(t));
            o.id in s'.offers && s'.offers[o.id] == o && !Listed(s', o) && s'.threads == s.threads - {t}
  {
    var o := s.threads[t].offer;
    var s1 := Step1(s, TakeEntry(u, o.conn));
    assert s1.threads == s.threads[u := Draining(o.conn, Entry(s.index, o.conn))];
    var s2 := Step1(s1, RemoveTaken(u));
    assert s2.threads == s.threads && s2.index == s.index - {o.conn};
  }

  /** Such a state is two steps away from the start. */
  lemma PushedOffer(t: Thread, id: OfferId, conn: ConnId)
    ensures var s := Run([Generate(t, id, conn), Push(t)]);
            t in s.threads && s.threads[t].Inserting? && Listed(s, s.threads[t].offer)
  {
    var one := [Generate(t, id, conn)];
    var two := [Generate(t, id, conn), Push(t)];
    assert one[..0] == [] && two[..1] == one;
    assert Run(one) == Step1(Start, Generate(t, id, conn));
  }
}
