/** Rendezvous of daemon streams with the callers that asked for them.

    A stream may arrive before or after its caller registers. Each locked method is one step;
    callers are told apart by a ticket standing for their oneshot channel. */
module UniRouter {
  import opened Common

  type StreamId = nat
  type Ticket = nat
  type Stream = nat

  /** `stream` was sent to `ticket` for `id`. */
  datatype Handover = Handover(id: StreamId, ticket: Ticket, stream: Stream)

  /** `gone` are the callers that dropped their receiver while waiting. A stream sent to one of them
      is `lost`; the others were `handed` over. */
  datatype State = State(
    waiting: map<StreamId, Ticket>, parked: map<StreamId, Stream>, gone: set<Ticket>,
    handed: set<Handover>, lost: set<Handover>)

  function Sent(s: State): set<Handover> {
    s.handed + s.lost
  }

  function Registered(s: State, id: StreamId, ticket: Ticket): State {
    if id in s.parked then s.(parked := s.parked - {id}, handed := s.handed + {Handover(id, ticket, s.parked[id])})
    else s.(waiting := s.waiting[id := ticket])
  }

  function Delivered(s: State, id: StreamId, stream: Stream): State {
    if id !in s.waiting then s.(parked := s.parked[id := stream])
    else
      var h := Handover(id, s.waiting[id], stream);
      if s.waiting[id] in s.gone then s.(waiting := s.waiting - {id}, lost := s.lost + {h})
      else s.(waiting := s.waiting - {id}, handed := s.handed + {h})
  }

  function Cancelled(s: State): State {
    s.(waiting := map[], parked := map[])
  }

  class Router {
    var waiting: map<StreamId, Ticket>
    var parked: map<StreamId, Stream>
    /** What became of the oneshot channels so far. */
    ghost var gone: set<Ticket>
    ghost var handed: set<Handover>
    ghost var lost: set<Handover>

    ghost function View(): State
      reads this
    {
      State(waiting, parked, gone, handed, lost)
    }

    constructor ()
      ensures View() == Init
    {
      waiting := map[];
      parked := map[];
      gone, handed, lost := {}, {}, {};
    }

    /** The stream, when it was already parked. */
    method Register(id: StreamId, ticket: Ticket) returns (ready: Option<Stream>)
      modifies this
      ensures View() == Registered(old(View()), id, ticket)
      ensures ready == if id in old(parked) then Some(old(parked)[id]) else None
    {
      if id in parked {
        ready := Some(parked[id]);
        handed := handed + {Handover(id, ticket, parked[id])};
        parked := parked - {id};
      } else {
        ready := None;
        waiting := waiting[id := ticket];
      }
    }

    /** A caller drops its receiver; the router is not told. */
    ghost method Drop(ticket: Ticket)
      modifies this`gone
      ensures View() == old(View()).(gone := old(gone) + {ticket})
    {
      gone := gone + {ticket};
    }

    /** The ticket the stream was sent to, when someone was waiting. */
    method Deliver(id: StreamId, stream: Stream) returns (receiver: Option<Ticket>)
      modifies this
      ensures View() == Delivered(old(View()), id, stream)
      ensures receiver == if id in old(waiting) then Some(old(waiting)[id]) else None
    {
      if id in waiting {
        receiver := Some(waiting[id]);
        if waiting[id] in gone {
          lost := lost + {Handover(id, waiting[id], stream)};
        } else {
          handed := handed + {Handover(id, waiting[id], stream)};
        }
        waiting := waiting - {id};
      } else {
        receiver := None;
        parked := parked[id := stream];
      }
    }

    method CancelAll()
      modifies this
      ensures View() == Cancelled(old(View()))
    {
      waiting := map[];
      parked := map[];
    }
  }

  // ---------------------------------------------------------------------
  // Runs
  // ---------------------------------------------------------------------

  datatype Op =
    | Register(id: StreamId, ticket: Ticket)
    | Deliver(id: StreamId, stream: Stream)
    | Drop(ticket: Ticket)
    | CancelAll

  const Init := State(map[], map[], {}, {}, {})

  function Next(s: State, op: Op): State {
    match op
    case Register(id, ticket) => Registered(s, id, ticket)
    case Deliver(id, stream) => Delivered(s, id, stream)
    case Drop(ticket) => s.(gone := s.gone + {ticket})
    case CancelAll => Cancelled(s)
  }

  function After(ops: seq<Op>): State {
    if ops == [] then Init else Next(After(ops[..|ops| - 1]), ops[|ops| - 1])
  }

  /** No stream waits with its caller waiting too, in any run at all. */
  lemma {:induction false} WaitingParkedDisjoint(ops: seq<Op>)
    ensures After(ops).waiting.Keys !! After(ops).parked.Keys
  {
    if ops != [] {
      WaitingParkedDisjoint(ops[..|ops| - 1]);
    }
  }

  /** One epoch of one connection: each stream id is registered at most once and, ids being
      unique on a connection, delivered at most once. */
  predicate Epoch(ops: seq<Op>) {
    && (forall i :: 0 <= i < |ops| ==> !ops[i].CancelAll?)
    && (forall i, j :: 0 <= i < j < |ops| && ops[i].Register? && ops[j].Register? ==> ops[i].id != ops[j].id)
    && (forall i, j :: 0 <= i < j < |ops| && ops[i].Deliver? && ops[j].Deliver? ==> ops[i].id != ops[j].id)
  }

  ghost predicate HasRegister(ops: seq<Op>, id: StreamId) {
    exists t :: Register(id, t) in ops
  }

  ghost predicate HasDeliver(ops: seq<Op>, id: StreamId) {
    exists x :: Deliver(id, x) in ops
  }

  /** The state, said without any order: callers without a stream wait, streams without a caller
      are parked, and a stream whose id was registered was sent to the caller that registered it. */
  ghost predicate Matched(s: State, ops: seq<Op>) {
    && (forall id, t :: id in s.waiting && s.waiting[id] == t <==> Register(id, t) in ops && !HasDeliver(ops, id))
    && (forall id, x :: id in s.parked && s.parked[id] == x <==> Deliver(id, x) in ops && !HasRegister(ops, id))
    && (forall id, t, x :: Handover(id, t, x) in Sent(s) <==> Register(id, t) in ops && Deliver(id, x) in ops)
  }

  lemma NotYet(ops: seq<Op>, op: Op)
    requires Epoch(ops + [op])
    ensures op.Register? ==> !HasRegister(ops, op.id)
    ensures op.Deliver? ==> !HasDeliver(ops, op.id)
  {
    var all := ops + [op];
    forall o | o in ops ensures (o.Register? && op.Register?) || (o.Deliver? && op.Deliver?) ==> o.id != op.id {
      var i :| 0 <= i < |ops| && ops[i] == o;
      assert all[i] == o && all[|ops|] == op;
    }
  }

  lemma MatchedNext(s: State, ops: seq<Op>, op: Op)
    requires Epoch(ops + [op]) && Matched(s, ops)
    ensures Matched(Next(s, op), ops + [op])
  {
    var all := ops + [op];
    assert forall o :: o in all <==> o in ops || o == op;
    assert all[|ops|] == op;
    NotYet(ops, op);
    forall id ensures HasDeliver(all, id) <==> HasDeliver(ops, id) || (op.Deliver? && op.id == id) {
      if op.Deliver? && op.id == id { assert Deliver(id, op.stream) in all; }
    }
    forall id ensures HasRegister(all, id) <==> HasRegister(ops, id) || (op.Register? && op.id == id) {
      if op.Register? && op.id == id { assert Register(id, op.ticket) in all; }
    }
    if op.Register? {
      assert op.id in s.parked ==> Deliver(op.id, s.parked[op.id]) in ops;
      assert forall x :: Deliver(op.id, x) in ops ==> op.id in s.parked;
    } else if op.Deliver? {
      assert op.id in s.waiting ==> Register(op.id, s.waiting[op.id]) in ops;
      assert forall t :: Register(op.id, t) in ops ==> op.id in s.waiting;
    }
  }

  lemma {:induction false} EpochMatched(ops: seq<Op>)
    requires Epoch(ops)
    ensures Matched(After(ops), ops)
  {
    if ops != [] {
      var n := |ops| - 1;
      assert ops == ops[..n] + [ops[n]];
      EpochMatched(ops[..n]);
      MatchedNext(After(ops[..n]), ops[..n], ops[n]);
    }
  }

  /** Where each stream goes does not depend on who came first: within an epoch, the same calls in any
      two orders leave the same callers waiting and streams parked, and send the same streams to the
      same callers. */
  lemma OrderIrrelevant(ops: seq<Op>, ops': seq<Op>)
    requires Epoch(ops) && Epoch(ops')
    requires multiset(ops) == multiset(ops')
    ensures var s, s' := After(ops), After(ops');
            s.waiting == s'.waiting && s.parked == s'.parked && Sent(s) == Sent(s')
  {
    EpochMatched(ops);
    EpochMatched(ops');
    assert forall o :: o in ops <==> o in multiset(ops);
    assert forall o :: o in ops' <==> o in multiset(ops');
    assert forall id :: HasDeliver(ops, id) <==> HasDeliver(ops', id);
    assert forall id :: HasRegister(ops, id) <==> HasRegister(ops', id);
    var s, s' := After(ops), After(ops');
    SameWaiting(s, s', ops, ops');
    SameParked(s, s', ops, ops');
    forall h ensures h in Sent(s) <==> h in Sent(s') {
      assert h == Handover(h.id, h.ticket, h.stream);
    }
  }

  lemma SameWaiting(s: State, s': State, ops: seq<Op>, ops': seq<Op>)
    requires Matched(s, ops) && Matched(s', ops')
    requires forall o :: o in ops <==> o in ops'
    requires forall id :: HasDeliver(ops, id) <==> HasDeliver(ops', id)
    ensures s.waiting == s'.waiting
  {
    forall id | id in s.waiting ensures id in s'.waiting && s'.waiting[id] == s.waiting[id] {
      assert Register(id, s.waiting[id]) in ops';
    }
    forall id | id in s'.waiting ensures id in s.waiting {
      assert Register(id, s'.waiting[id]) in ops;
    }
  }

  lemma SameParked(s: State, s': State, ops: seq<Op>, ops': seq<Op>)
    requires Matched(s, ops) && Matched(s', ops')
    requires forall o :: o in ops <==> o in ops'
    requires forall id :: HasRegister(ops, id) <==> HasRegister(ops', id)
    ensures s.parked == s'.parked
  {
    forall id | id in s.parked ensures id in s'.parked && s'.parked[id] == s.parked[id] {
      assert Deliver(id, s.parked[id]) in ops';
    }
    forall id | id in s'.parked ensures id in s.parked {
      assert Deliver(id, s'.parked[id]) in ops;
    }
  }

  /** What an operation sends depends on who waits and what is parked, not on what was sent before. */
  lemma SentNext(s: State, t: State, earlier: set<Handover>, op: Op)
    requires s.waiting == t.waiting && s.parked == t.parked && Sent(s) == earlier + Sent(t) && !op.CancelAll?
    ensures var s', t' := Next(s, op), Next(t, op);
            s'.waiting == t'.waiting && s'.parked == t'.parked && Sent(s') == earlier + Sent(t')
  {
    match op
    case Register(id, ticket) =>
      if id in s.parked { assert Sent(Next(s, op)) == Sent(s) + {Handover(id, ticket, s.parked[id])}; }
    case Deliver(id, stream) =>
      if id in s.waiting { assert Sent(Next(s, op)) == Sent(s) + {Handover(id, s.waiting[id], stream)}; }
    case Drop(_) =>
  }

  /** Cancelling starts over: what came before leaves only the handovers already made. */
  lemma {:induction false} CancelStartsOver(before: seq<Op>, ops: seq<Op>)
    ensures var s := After(before + [CancelAll] + ops);
            && s.waiting == After(ops).waiting && s.parked == After(ops).parked
            && Sent(s) == Sent(After(before)) + Sent(After(ops))
  {
    var all := before + [CancelAll] + ops;
    if ops == [] {
      assert all == before + [CancelAll];
      assert all[..|all| - 1] == before;
    } else {
      var n := |ops| - 1;
      assert all[..|all| - 1] == before + [CancelAll] + ops[..n];
      CancelStartsOver(before, ops[..n]);
      if !ops[n].CancelAll? {
        SentNext(After(all[..|all| - 1]), After(ops[..n]), Sent(After(before)), ops[n]);
      }
    }
  }

  /** The caller had registered and dropped its receiver by the time of the delivery at `k`. */
  predicate DroppedBy(ops: seq<Op>, k: nat, h: Handover)
    requires k < |ops|
  {
    ops[k] == Deliver(h.id, h.stream) && Register(h.id, h.ticket) in ops[..k] && Drop(h.ticket) in ops[..k]
  }

  lemma {:induction false} GoneDropped(ops: seq<Op>, ticket: Ticket)
    ensures ticket in After(ops).gone <==> Drop(ticket) in ops
  {
    if ops != [] {
      var n := |ops| - 1;
      GoneDropped(ops[..n], ticket);
      assert ops == ops[..n] + [ops[n]];
    }
  }

  lemma LostByDelivery(s: State, h: Handover)
    ensures h in Delivered(s, h.id, h.stream).lost <==>
            h in s.lost || (h.id in s.waiting && s.waiting[h.id] == h.ticket && h.ticket in s.gone)
  {
    assert h == Handover(h.id, h.ticket, h.stream);
  }

  lemma LostByOther(s: State, op: Op, h: Handover)
    requires op != Deliver(h.id, h.stream)
    ensures h in Next(s, op).lost <==> h in s.lost
  {
  }

  lemma LostNext(s: State, ops: seq<Op>, op: Op, h: Handover)
    requires Epoch(ops + [op]) && Matched(s, ops) && s.gone == After(ops).gone
    ensures h in Next(s, op).lost <==> h in s.lost || DroppedBy(ops + [op], |ops|, h)
  {
    var all := ops + [op];
    assert all[..|ops|] == ops && all[|ops|] == op;
    GoneDropped(ops, h.ticket);
    if op == Deliver(h.id, h.stream) {
      NotYet(ops, op);
      assert h.id in s.waiting && s.waiting[h.id] == h.ticket <==> Register(h.id, h.ticket) in ops;
      LostByDelivery(s, h);
    } else {
      LostByOther(s, op, h);
    }
  }

  /** A stream is lost exactly when its caller had dropped its receiver before the delivery. */
  lemma {:induction false} LostExactly(ops: seq<Op>, h: Handover)
    requires Epoch(ops)
    ensures h in After(ops).lost <==> exists k :: 0 <= k < |ops| && DroppedBy(ops, k, h)
  {
    if ops != [] {
      var n := |ops| - 1;
      var p := ops[..n];
      assert ops == p + [ops[n]];
      LostExactly(p, h);
      EpochMatched(p);
      LostNext(After(p), p, ops[n], h);
      forall k | 0 <= k < n ensures DroppedBy(p, k, h) == DroppedBy(ops, k, h) {
        assert p[..k] == ops[..k];
      }
    }
  }
}
