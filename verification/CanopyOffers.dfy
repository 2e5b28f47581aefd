/** The registry of Canopy offers, with each method taken as one step.

    The source keeps a primary map, a per-connection index and a sequence counter. What they
    implement together is a list of live offers in registration order: this module proves that
    for every sequence of calls. The lock-level behaviour is in CanopyLocks. */
module CanopyOffers {
  import opened Common

  type OfferId = nat
  type ConnId = nat

  datatype Offer = Offer(id: OfferId, conn: ConnId, seqNo: nat)

  datatype State = State(offers: map<OfferId, Offer>, index: map<ConnId, seq<OfferId>>, nextSeq: nat)

  const Empty := State(map[], map[], 0)

  function Entry(index: map<ConnId, seq<OfferId>>, conn: ConnId): seq<OfferId> {
    if conn in index then index[conn] else []
  }

  function Offered(s: State, id: OfferId, conn: ConnId): State {
    State(s.offers[id := Offer(id, conn, s.nextSeq)],
          s.index[conn := Entry(s.index, conn) + [id]],
          s.nextSeq + 1)
  }

  function Retain(ids: seq<OfferId>, id: OfferId): seq<OfferId> {
    if ids == [] then []
    else Retain(ids[..|ids| - 1], id) + if ids[|ids| - 1] != id then [ids[|ids| - 1]] else []
  }

  function Unindexed(index: map<ConnId, seq<OfferId>>, conn: ConnId, id: OfferId): map<ConnId, seq<OfferId>> {
    if conn !in index then index
    else if Retain(index[conn], id) == [] then index - {conn}
    else index[conn := Retain(index[conn], id)]
  }

  function Withdrawn(s: State, id: OfferId, conn: ConnId): (State, bool) {
    if id in s.offers && s.offers[id].conn == conn then
      (s.(offers := s.offers - {id}, index := Unindexed(s.index, conn, id)), true)
    else (s, false)
  }

  /** Take the listed offers out of the map, giving back those that were there. */
  function TakeAll(offers: map<OfferId, Offer>, ids: seq<OfferId>): (map<OfferId, Offer>, seq<Offer>) {
    if ids == [] then (offers, [])
    else
      var (rest, taken) := TakeAll(offers, ids[..|ids| - 1]);
      var id := ids[|ids| - 1];
      if id in rest then (rest - {id}, taken + [rest[id]]) else (rest, taken)
  }

  function RemovedByConn(s: State, conn: ConnId): (State, seq<Offer>) {
    var (rest, taken) := TakeAll(s.offers, Entry(s.index, conn));
    (s.(offers := rest, index := s.index - {conn}), taken)
  }

  function RevokedAll(s: State): (State, set<Offer>) {
    (s.(offers := map[], index := map[]), s.offers.Values)
  }

  class CanopyState {
    var offers: map<OfferId, Offer>
    var index: map<ConnId, seq<OfferId>>
    var nextSeq: nat

    function View(): State
      reads this
    {
      State(offers, index, nextSeq)
    }

    constructor ()
      ensures View() == Empty
    {
      offers := map[];
      index := map[];
      nextSeq := 0;
    }

    /** `id` is the identifier generated by the call. */
    method MakeOffer(id: OfferId, conn: ConnId) returns (offer: Offer)
      modifies this
      ensures View() == Offered(old(View()), id, conn)
      ensures offer == Offer(id, conn, old(nextSeq))
    {
      offer := Offer(id, conn, nextSeq);
      nextSeq := nextSeq + 1;
      index := index[conn := Entry(index, conn) + [id]];
      offers := offers[id := offer];
    }

    method Unindex(conn: ConnId, id: OfferId)
      modifies this`index
      ensures index == Unindexed(old(index), conn, id)
    {
      if conn in index {
        var ids := index[conn];
        var kept := [];
        for i := 0 to |ids|
          invariant kept == Retain(ids[..i], id)
        {
          assert ids[..i + 1][..i] == ids[..i];
          if ids[i] != id {
            kept := kept + [ids[i]];
          }
        }
        assert ids[..|ids|] == ids;
        if kept == [] {
          index := index - {conn};
        } else {
          index := index[conn := kept];
        }
      }
    }

    method Withdraw(id: OfferId, conn: ConnId) returns (ended: bool)
      modifies this
      ensures (View(), ended) == Withdrawn(old(View()), id, conn)
    {
      if id in offers && offers[id].conn == conn {
        offers := offers - {id};
        Unindex(conn, id);
        return true;
      }
      return false;
    }

    method RemoveByConn(conn: ConnId) returns (ended: seq<Offer>)
      modifies this
      ensures (View(), ended) == RemovedByConn(old(View()), conn)
    {
      var ids := Entry(index, conn);
      index := index - {conn};
      ended := [];
      for i := 0 to |ids|
        invariant (offers, ended) == TakeAll(old(offers), ids[..i])
        invariant index == old(index) - {conn} && nextSeq == old(nextSeq)
      {
        assert ids[..i + 1][..i] == ids[..i];
        if ids[i] in offers {
          ended := ended + [offers[ids[i]]];
          offers := offers - {ids[i]};
        }
      }
      assert ids[..|ids|] == ids;
    }

    method RevokeAll() returns (ended: set<Offer>)
      modifies this
      ensures (View(), ended) == RevokedAll(old(View()))
    {
      index := map[];
      ended := offers.Values;
      offers := map[];
    }

    /** A live offer with the greatest sequence number. */
    method Current() returns (best: Option<Offer>)
      ensures best.None? <==> offers == map[]
      ensures best.Some? ==> best.value in offers.Values
      ensures best.Some? ==> forall id :: id in offers ==> offers[id].seqNo <= best.value.seqNo
    {
      best := None;
      var unread := offers.Keys;
      while unread != {}
        invariant unread <= offers.Keys
        invariant best.None? ==> unread == offers.Keys
        invariant best.Some? ==> best.value in offers.Values
        invariant best.Some? ==> forall id :: id in offers && id !in unread ==> offers[id].seqNo <= best.value.seqNo
        decreases |unread|
      {
        var id :| id in unread;
        unread := unread - {id};
        if best.None? || best.value.seqNo <= offers[id].seqNo {
          best := Some(offers[id]);
        }
      }
      assert best.None? ==> offers.Keys == {};
    }
  }

  // ---------------------------------------------------------------------
  // The simple form: live offers in registration order
  // ---------------------------------------------------------------------

  function Keep(live: seq<Offer>, f: Offer -> bool): seq<Offer> {
    if live == [] then []
    else Keep(live[..|live| - 1], f) + if f(live[|live| - 1]) then [live[|live| - 1]] else []
  }

  function IdIsNot(id: OfferId): Offer -> bool {
    (o: Offer) => o.id != id
  }

  function ConnIsNot(conn: ConnId): Offer -> bool {
    (o: Offer) => o.conn != conn
  }

  /** Oldest first, no two alike. */
  predicate Ordered(live: seq<Offer>) {
    forall i, j :: 0 <= i < j < |live| ==> live[i].seqNo < live[j].seqNo && live[i].id != live[j].id
  }

  /** Live ids, oldest first. */
  predicate Ascending(ids: seq<OfferId>, offers: map<OfferId, Offer>) {
    && (forall i :: 0 <= i < |ids| ==> ids[i] in offers)
    && (forall i, j :: 0 <= i < j < |ids| ==> offers[ids[i]].seqNo < offers[ids[j]].seqNo)
  }

  /** `ids` lists exactly the live offers of `conn`, oldest first. */
  ghost predicate Indexes(ids: seq<OfferId>, offers: map<OfferId, Offer>, conn: ConnId) {
    && (forall id :: id in ids <==> id in offers && offers[id].conn == conn)
    && Ascending(ids, offers)
  }

  /** What the three structures keep among themselves. */
  ghost predicate Valid(s: State) {
    && (forall id :: id in s.offers ==> s.offers[id].id == id && s.offers[id].seqNo < s.nextSeq)
    && (forall c :: Indexes(Entry(s.index, c), s.offers, c))
    && (forall c :: c in s.index ==> s.index[c] != [])
  }

  /** The map holds exactly the offers of the list. */
  ghost predicate Represents(s: State, live: seq<Offer>) {
    && Valid(s) && Ordered(live)
    && (forall o :: o in live <==> o.id in s.offers && s.offers[o.id] == o)
  }

  datatype Op =
    | DoOffer(id: OfferId, conn: ConnId)
    | DoWithdraw(id: OfferId, conn: ConnId)
    | DoRemoveByConn(conn: ConnId)
    | DoRevokeAll

  /** Identifiers are generated, so an offer never reuses a live one. */
  function Next(s: State, op: Op): State {
    match op
    case DoOffer(id, conn) => if id in s.offers then s else Offered(s, id, conn)
    case DoWithdraw(id, conn) => Withdrawn(s, id, conn).0
    case DoRemoveByConn(conn) => RemovedByConn(s, conn).0
    case DoRevokeAll => RevokedAll(s).0
  }

  ghost predicate Holds(live: seq<Offer>, id: OfferId) {
    exists o :: o in live && o.id == id
  }

  ghost predicate HoldsFor(live: seq<Offer>, id: OfferId, conn: ConnId) {
    exists o :: o in live && o.id == id && o.conn == conn
  }

  /** The same calls on the list. */
  ghost function NextLive(live: seq<Offer>, nextSeq: nat, op: Op): seq<Offer> {
    match op
    case DoOffer(id, conn) => if Holds(live, id) then live else live + [Offer(id, conn, nextSeq)]
    case DoWithdraw(id, conn) => if HoldsFor(live, id, conn) then Keep(live, IdIsNot(id)) else live
    case DoRemoveByConn(conn) => Keep(live, ConnIsNot(conn))
    case DoRevokeAll => []
  }

  function After(ops: seq<Op>): State {
    if ops == [] then Empty else Next(After(ops[..|ops| - 1]), ops[|ops| - 1])
  }

  ghost function LiveAfter(ops: seq<Op>): seq<Offer> {
    if ops == [] then []
    else NextLive(LiveAfter(ops[..|ops| - 1]), After(ops[..|ops| - 1]).nextSeq, ops[|ops| - 1])
  }

  // Lists

  lemma {:induction false} KeepMembers(live: seq<Offer>, f: Offer -> bool)
    ensures forall o :: o in Keep(live, f) <==> o in live && f(o)
  {
    if live != [] {
      KeepMembers(live[..|live| - 1], f);
      assert live == live[..|live| - 1] + [live[|live| - 1]];
    }
  }

  lemma {:induction false} KeepOrdered(live: seq<Offer>, f: Offer -> bool)
    requires Ordered(live)
    ensures Ordered(Keep(live, f))
  {
    if live != [] {
      var p := live[..|live| - 1];
      KeepOrdered(p, f);
      KeepMembers(p, f);
      var k := Keep(p, f);
      assert forall i :: 0 <= i < |k| ==> k[i] in p;
    }
  }

  lemma {:induction false} RetainMembers(ids: seq<OfferId>, id: OfferId)
    ensures forall x :: x in Retain(ids, id) <==> x in ids && x != id
  {
    if ids != [] {
      RetainMembers(ids[..|ids| - 1], id);
      assert ids == ids[..|ids| - 1] + [ids[|ids| - 1]];
    }
  }

  /** Sequence numbers still ascend along a list of ids some of which were dropped. */
  lemma {:induction false} RetainAscending(ids: seq<OfferId>, id: OfferId, offers: map<OfferId, Offer>)
    requires Ascending(ids, offers)
    ensures Ascending(Retain(ids, id), offers)
  {
    if ids != [] {
      var p := ids[..|ids| - 1];
      assert Ascending(p, offers);
      RetainAscending(p, id, offers);
      RetainMembers(p, id);
      var r := Retain(p, id);
      forall i | 0 <= i < |r| ensures offers[r[i]].seqNo < offers[ids[|ids| - 1]].seqNo {
        assert r[i] in p;
      }
    }
  }

  /** Taking offers by a list of distinct live ids takes exactly those, in order. */
  lemma {:induction false} TakeListed(offers: map<OfferId, Offer>, ids: seq<OfferId>)
    requires Distinct(ids) && forall i :: 0 <= i < |ids| ==> ids[i] in offers
    ensures var (rest, taken) := TakeAll(offers, ids);
            && rest == offers - Elements(ids)
            && |taken| == |ids| && forall i :: 0 <= i < |ids| ==> taken[i] == offers[ids[i]]
  {
    if ids != [] {
      var p := ids[..|ids| - 1];
      TakeListed(offers, p);
      assert ids == p + [ids[|ids| - 1]];
      assert Elements(ids) == Elements(p) + {ids[|ids| - 1]};
    }
  }

  // What each call keeps

  lemma OfferKeeps(s: State, id: OfferId, conn: ConnId)
    requires Valid(s) && id !in s.offers
    ensures Valid(Offered(s, id, conn))
  {
    var s' := Offered(s, id, conn);
    forall c ensures Indexes(Entry(s'.index, c), s'.offers, c) {
      var ids := Entry(s.index, c);
      assert Indexes(ids, s.offers, c);
      forall i | 0 <= i < |ids| ensures ids[i] in s.offers && ids[i] != id {
        assert ids[i] in ids;
      }
    }
  }

  lemma WithdrawIndexes(s: State, id: OfferId, c: ConnId)
    requires Valid(s) && id in s.offers
    ensures var s' := Withdrawn(s, id, s.offers[id].conn).0; Indexes(Entry(s'.index, c), s'.offers, c)
  {
    var conn := s.offers[id].conn;
    var s' := Withdrawn(s, id, conn).0;
    var ids := Entry(s.index, c);
    assert Indexes(ids, s.offers, c);
    forall i | 0 <= i < |ids| ensures ids[i] in s.offers {
      assert ids[i] in ids;
    }
    RetainMembers(ids, id);
    RetainAscending(ids, id, s.offers);
    if c == conn {
      var kept := Entry(s'.index, c);
      assert kept == Retain(ids, id);
      forall i | 0 <= i < |kept| ensures kept[i] in s'.offers {
        assert kept[i] in kept;
      }
    } else {
      assert forall i :: 0 <= i < |ids| ==> ids[i] != id;
    }
  }

  lemma WithdrawKeeps(s: State, id: OfferId)
    requires Valid(s) && id in s.offers
    ensures Valid(Withdrawn(s, id, s.offers[id].conn).0)
  {
    var s' := Withdrawn(s, id, s.offers[id].conn).0;
    forall c ensures Indexes(Entry(s'.index, c), s'.offers, c) {
      WithdrawIndexes(s, id, c);
    }
  }

  /** Closing a connection removes and returns exactly its offers, oldest first. */
  lemma RemoveKeeps(s: State, conn: ConnId)
    requires Valid(s)
    ensures Valid(RemovedByConn(s, conn).0)
    ensures forall id :: id in RemovedByConn(s, conn).0.offers <==> id in s.offers && s.offers[id].conn != conn
    ensures forall id :: id in RemovedByConn(s, conn).0.offers ==> RemovedByConn(s, conn).0.offers[id] == s.offers[id]
    ensures Ordered(RemovedByConn(s, conn).1)
    ensures forall o :: o in RemovedByConn(s, conn).1 <==> o.id in s.offers && s.offers[o.id] == o && o.conn == conn
  {
    var ids := Entry(s.index, conn);
    assert Indexes(ids, s.offers, conn);
    forall i | 0 <= i < |ids| ensures ids[i] in s.offers {
      assert ids[i] in ids;
    }
    TakeListed(s.offers, ids);
    var (s', taken) := RemovedByConn(s, conn);
    assert s'.offers == s.offers - Elements(ids);
    forall o: Offer | o.id in s.offers && s.offers[o.id] == o && o.conn == conn ensures o in taken {
      var i :| 0 <= i < |ids| && ids[i] == o.id;
      assert taken[i] == o;
    }
    forall c ensures Indexes(Entry(s'.index, c), s'.offers, c) {
      RemoveIndexes(s, s', conn, c);
    }
  }

  lemma RemoveIndexes(s: State, s': State, conn: ConnId, c: ConnId)
    requires Valid(s) && s'.offers == s.offers - Elements(Entry(s.index, conn))
    requires s'.index == s.index - {conn}
    ensures Indexes(Entry(s'.index, c), s'.offers, c)
  {
    var ids, gone := Entry(s.index, c), Entry(s.index, conn);
    assert Indexes(ids, s.offers, c) && Indexes(gone, s.offers, conn);
    forall i | 0 <= i < |ids| ensures c != conn ==> ids[i] in s'.offers {
      assert ids[i] in ids;
    }
  }

  lemma OfferRefines(s: State, live: seq<Offer>, id: OfferId, conn: ConnId)
    requires Represents(s, live) && id !in s.offers
    ensures Represents(Offered(s, id, conn), live + [Offer(id, conn, s.nextSeq)])
  {
    OfferKeeps(s, id, conn);
    assert forall i :: 0 <= i < |live| ==> live[i] in live;
  }

  lemma WithdrawRefines(s: State, live: seq<Offer>, id: OfferId)
    requires Represents(s, live) && id in s.offers
    ensures Represents(Withdrawn(s, id, s.offers[id].conn).0, Keep(live, IdIsNot(id)))
  {
    WithdrawKeeps(s, id);
    KeepMembers(live, IdIsNot(id));
    KeepOrdered(live, IdIsNot(id));
  }

  lemma RemoveRefines(s: State, live: seq<Offer>, conn: ConnId)
    requires Represents(s, live)
    ensures Represents(RemovedByConn(s, conn).0, Keep(live, ConnIsNot(conn)))
  {
    RemoveKeeps(s, conn);
    KeepMembers(live, ConnIsNot(conn));
    KeepOrdered(live, ConnIsNot(conn));
  }

  lemma NextRefines(s: State, live: seq<Offer>, op: Op)
    requires Represents(s, live)
    ensures Represents(Next(s, op), NextLive(live, s.nextSeq, op))
  {
    match op
    case DoOffer(id, conn) =>
      if id in s.offers {
        assert s.offers[id] in live;
      } else {
        OfferRefines(s, live, id, conn);
      }
    case DoWithdraw(id, conn) =>
      if id in s.offers {
        assert s.offers[id] in live;
        WithdrawRefines(s, live, id);
      }
    case DoRemoveByConn(conn) => RemoveRefines(s, live, conn);
    case DoRevokeAll =>
  }

  // ---------------------------------------------------------------------
  // Results, for every sequence of calls
  // ---------------------------------------------------------------------

  /** The map, the index and the counter always agree, and stand for the list of live offers. */
  lemma {:induction false} AlwaysRepresents(ops: seq<Op>)
    ensures Represents(After(ops), LiveAfter(ops))
  {
    if ops != [] {
      var p := ops[..|ops| - 1];
      AlwaysRepresents(p);
      NextRefines(After(p), LiveAfter(p), ops[|ops| - 1]);
    }
  }

  /** What `current` returns: a live offer no other live offer is newer than. */
  ghost predicate IsCurrent(s: State, o: Offer) {
    && o.id in s.offers && s.offers[o.id] == o
    && forall id :: id in s.offers ==> s.offers[id].seqNo <= o.seqNo
  }

  function Last(live: seq<Offer>): Option<Offer> {
    if live == [] then None else Some(live[|live| - 1])
  }

  lemma LastIsCurrent(s: State, live: seq<Offer>, o: Offer)
    requires Represents(s, live)
    ensures IsCurrent(s, o) <==> Last(live) == Some(o)
  {
    if live != [] {
      var last := live[|live| - 1];
      assert last in live;
      forall id | id in s.offers ensures s.offers[id].seqNo <= last.seqNo {
        assert s.offers[id] in live;
      }
      if IsCurrent(s, o) {
        assert o in live && last.seqNo <= o.seqNo;
      }
    }
  }

  /** The serving offer is the last one registered of those still live. */
  lemma CurrentIsLast(ops: seq<Op>, o: Offer)
    ensures IsCurrent(After(ops), o) <==> Last(LiveAfter(ops)) == Some(o)
  {
    AlwaysRepresents(ops);
    LastIsCurrent(After(ops), LiveAfter(ops), o);
  }

  lemma {:induction false} KeepAll(live: seq<Offer>, f: Offer -> bool)
    requires forall o :: o in live ==> f(o)
    ensures Keep(live, f) == live
  {
    if live != [] {
      assert live[|live| - 1] in live;
      KeepAll(live[..|live| - 1], f);
    }
  }

  /** When the serving offer ends, the newest of the others serves: all the others if it is withdrawn,
      those of other connections if its connection closes. */
  lemma NextNewestTakesOver(ops: seq<Op>, rest: seq<Offer>, o: Offer)
    requires LiveAfter(ops) == rest + [o]
    ensures LiveAfter(ops + [DoWithdraw(o.id, o.conn)]) == rest
    ensures LiveAfter(ops + [DoRemoveByConn(o.conn)]) == Keep(rest, ConnIsNot(o.conn))
  {
    assert (ops + [DoWithdraw(o.id, o.conn)])[..|ops|] == ops;
    assert (ops + [DoRemoveByConn(o.conn)])[..|ops|] == ops;
    AlwaysRepresents(ops);
    var live := rest + [o];
    assert live[..|live| - 1] == rest && o in live;
    assert forall i :: 0 <= i < |rest| ==> live[i] == rest[i];
    KeepAll(rest, IdIsNot(o.id));
  }

  /** A withdrawal succeeds exactly for a live offer of the connection that asks; closing a
      connection ends exactly its live offers; revoking ends them all. */
  lemma EndsExactly(ops: seq<Op>, id: OfferId, conn: ConnId)
    ensures Withdrawn(After(ops), id, conn).1 <==> HoldsFor(LiveAfter(ops), id, conn)
    ensures forall o :: o in RemovedByConn(After(ops), conn).1 <==> o in LiveAfter(ops) && o.conn == conn
    ensures forall o :: o in RevokedAll(After(ops)).1 <==> o in LiveAfter(ops)
  {
    AlwaysRepresents(ops);
    RemoveKeeps(After(ops), conn);
    var s, live := After(ops), LiveAfter(ops);
    if id in s.offers {
      assert s.offers[id] in live;
    }
    forall o | o in RevokedAll(s).1 ensures o in live {
      var k :| k in s.offers && s.offers[k] == o;
    }
  }
}
