/** Event fan-out to browser clients.

    A publisher appends its line to the bounded cache under the lock, and sends it on the
    broadcast channel after unlocking. A client copies the cache and subscribes under the same
    lock, writes the copy, then relays what the channel gives it. The model interleaves any
    number of publishers with one client in every way the lock allows; clients do not affect
    the broker or one another, so one stands for all. */
module EventBroker {
  import opened Common

  const CACHE_SIZE := 200
  const BROADCAST_CAPACITY := 512

  /** One `publish` call. Events are told apart by call, not by text. */
  datatype Event = Event(publisher: nat, serial: nat)

  /** The last `n` elements, or all of them. */
  function Tail<T>(s: seq<T>, n: nat): seq<T> {
    if |s| <= n then s else s[|s| - n..]
  }

  /** The cache after one more line. */
  function Remembered(recent: seq<Event>, line: Event): seq<Event> {
    (if |recent| >= CACHE_SIZE then recent[1..] else recent) + [line]
  }

  /** The channel after one more line. */
  function Broadcast(channel: seq<Event>, line: Event): seq<Event> {
    channel + [line]
  }

  /** What a client takes under the lock: a copy of the cache, and the end of the channel to read from. */
  function Subscription(recent: seq<Event>, channel: seq<Event>): (seq<Event>, nat) {
    (recent, |channel|)
  }

  /** What a subscriber at `position` of the channel gets next. The channel retains the last
      BROADCAST_CAPACITY messages; one that fell further behind is told how many it missed. */
  datatype Received = Line(event: Event) | Lagged(missed: nat)

  function Receive(channel: seq<Event>, position: nat): (r: Received)
    requires position < |channel|
    ensures r.Lagged? <==> |channel| - position > BROADCAST_CAPACITY
  {
    if |channel| - position > BROADCAST_CAPACITY then Lagged(|channel| - BROADCAST_CAPACITY - position)
    else Line(channel[position])
  }

  class Broker {
    /** The cache, under the lock. */
    var recent: seq<Event>
    /** Every message ever sent on the channel. */
    var channel: seq<Event>

    constructor ()
      ensures recent == [] && channel == []
    {
      recent := [];
      channel := [];
    }

    /** The locked half of `publish`. */
    method Append(line: Event)
      modifies this`recent
      ensures recent == Remembered(old(recent), line)
    {
      if |recent| >= CACHE_SIZE {
        recent := recent[1..];
      }
      recent := recent + [line];
    }

    /** The unlocked half of `publish`. */
    method Send(line: Event)
      modifies this`channel
      ensures channel == Broadcast(old(channel), line)
    {
      channel := channel + [line];
    }

    /** The locked block at the head of `serve_client`. */
    method SnapshotAndSubscribe() returns (cached: seq<Event>, position: nat)
      ensures (cached, position) == Subscription(recent, channel)
    {
      cached := recent;
      position := |channel|;
    }
  }

  /** The rest of `serve_client`, for a client that starts reading once `channel` is complete:
      the copy, then the retained part of the backlog, with the loss reported exactly. */
  method ServeClient(cached: seq<Event>, channel: seq<Event>, subscribed: nat)
    returns (written: seq<Event>, skipped: nat)
    requires subscribed <= |channel|
    ensures written == cached + Tail(channel[subscribed..], BROADCAST_CAPACITY)
    ensures |written| + skipped == |cached| + |channel| - subscribed
  {
    written := [];
    skipped := 0;
    for i := 0 to |cached|
      invariant written == cached[..i]
    {
      written := written + [cached[i]];
    }
    assert written == cached;
    var position := subscribed;
    ghost var base := |channel| - |Tail(channel[subscribed..], BROADCAST_CAPACITY)|;
    assert Tail(channel[subscribed..], BROADCAST_CAPACITY) == channel[base..];
    while position < |channel|
      invariant position == subscribed || base <= position <= |channel|
      invariant |written| + skipped == |cached| + position - subscribed
      invariant written == cached + if position < base then [] else channel[base..position]
    {
      match Receive(channel, position)
      case Line(event) =>
        assert channel[base..position + 1] == channel[base..position] + [event];
        written := written + [event];
        position := position + 1;
      case Lagged(missed) =>
        skipped := skipped + missed;
        position := position + missed;
    }
  }

  // ---------------------------------------------------------------------
  // Interleavings
  // ---------------------------------------------------------------------

  /** A connected client: its copy of the cache, where it subscribed, what it has written. */
  datatype Client = Client(
    snapshot: seq<Event>, wrote: nat,
    subscribed: nat, position: nat, live: seq<Event>, skipped: nat,
    appendedBefore: nat)

  /** `appended` is the history of cache appends; `inFlight` holds the publishers between their
      append and their send. */
  datatype State = State(
    recent: seq<Event>, channel: seq<Event>, inFlight: map<nat, Event>,
    appended: seq<Event>, client: Option<Client>)

  datatype Step =
    | Append(event: Event)
    | Send(publisher: nat)
    | Join
    | WriteCached
    | Recv

  const Init := State([], [], map[], [], None)

  function Appended(s: State, e: Event): State {
    s.(recent := Remembered(s.recent, e), appended := s.appended + [e], inFlight := s.inFlight[e.publisher := e])
  }

  function Sent(s: State, p: nat): State
    requires p in s.inFlight
  {
    s.(channel := Broadcast(s.channel, s.inFlight[p]), inFlight := s.inFlight - {p})
  }

  /** One step of the interleaving; a step that is not enabled changes nothing. */
  function Next(s: State, step: Step): State {
    match step
    case Append(e) =>
      if e.publisher in s.inFlight || e in s.appended then s else Appended(s, e)
    case Send(p) =>
      if p !in s.inFlight then s else Sent(s, p)
    case Join =>
      if s.client.Some? then s
      else
        var (cached, position) := Subscription(s.recent, s.channel);
        s.(client := Some(Client(cached, 0, position, position, [], 0, |s.appended|)))
    case WriteCached =>
      if s.client.None? || s.client.value.wrote >= |s.client.value.snapshot| then s
      else s.(client := Some(s.client.value.(wrote := s.client.value.wrote + 1)))
    case Recv =>
      if !CanReceive(s) then s
      else s.(client := Some(AfterReceive(s.client.value, s.channel)))
  }

  /** The client has written its copy and a message is waiting. */
  predicate CanReceive(s: State) {
    s.client.Some? && s.client.value.wrote >= |s.client.value.snapshot| && s.client.value.position < |s.channel|
  }

  function AfterReceive(c: Client, channel: seq<Event>): Client
    requires c.position < |channel|
  {
    match Receive(channel, c.position)
    case Line(e) => c.(live := c.live + [e], position := c.position + 1)
    case Lagged(missed) => c.(skipped := c.skipped + missed, position := c.position + missed)
  }

  predicate InBounds(s: State) {
    s.client.Some? ==>
      && s.client.value.wrote <= |s.client.value.snapshot|
      && s.client.value.subscribed <= s.client.value.position <= |s.channel|
      && s.client.value.appendedBefore <= |s.appended|
  }

  function After(steps: seq<Step>): (s: State)
    ensures InBounds(s)
  {
    if steps == [] then Init else Next(After(steps[..|steps| - 1]), steps[|steps| - 1])
  }

  /** The events of one publisher, in order. */
  function By(s: seq<Event>, p: nat): seq<Event> {
    if s == [] then []
    else By(s[..|s| - 1], p) + if s[|s| - 1].publisher == p then [s[|s| - 1]] else []
  }

  function Flying(s: State, p: nat): seq<Event> {
    if p in s.inFlight then [s.inFlight[p]] else []
  }

  lemma BySnoc(s: seq<Event>, e: Event, p: nat)
    ensures By(s + [e], p) == By(s, p) + if e.publisher == p then [e] else []
  {
    assert (s + [e])[..|s|] == s;
  }

  ghost predicate BrokerInv(s: State) {
    && Distinct(s.appended) && Distinct(s.channel)
    && s.recent == Tail(s.appended, CACHE_SIZE)
    && (forall p :: p in s.inFlight ==> s.inFlight[p].publisher == p && s.inFlight[p] !in s.channel)
    && (forall e :: e in s.appended <==> e in s.channel || e in Flying(s, e.publisher))
  }

  ghost predicate ClientInv(s: State, c: Client) {
    && InBounds(s) && s.client == Some(c)
    && c.snapshot == Tail(s.appended[..c.appendedBefore], CACHE_SIZE)
    && |c.live| + c.skipped == c.position - c.subscribed
    && (c.skipped == 0 ==> c.live == s.channel[c.subscribed..c.position])
    && (forall e :: e in s.channel[..c.subscribed] ==> e in s.appended[..c.appendedBefore])
  }

  lemma TailSnoc(s: seq<Event>, e: Event)
    ensures Remembered(Tail(s, CACHE_SIZE), e) == Tail(s + [e], CACHE_SIZE)
  {
  }

  lemma DistinctSnoc(s: seq<Event>, e: Event)
    requires Distinct(s) && e !in s
    ensures Distinct(s + [e])
  {
  }

  lemma BrokerInvAppend(s: State, e: Event)
    requires BrokerInv(s) && e.publisher !in s.inFlight && e !in s.appended
    ensures BrokerInv(Appended(s, e))
  {
    var s' := Appended(s, e);
    DistinctSnoc(s.appended, e);
    TailSnoc(s.appended, e);
    assert e !in s.channel;
    forall x ensures x in s'.appended <==> x in s'.channel || x in Flying(s', x.publisher) {
      assert x in s.appended <==> x in s.channel || x in Flying(s, x.publisher);
    }
  }

  lemma BrokerInvSend(s: State, p: nat)
    requires BrokerInv(s) && p in s.inFlight
    ensures BrokerInv(Sent(s, p))
  {
    var s' := Sent(s, p);
    DistinctSnoc(s.channel, s.inFlight[p]);
    forall x ensures x in s'.appended <==> x in s'.channel || x in Flying(s', x.publisher) {
      assert x in s.appended <==> x in s.channel || x in Flying(s, x.publisher);
    }
  }

  lemma BrokerInvNext(s: State, step: Step)
    requires BrokerInv(s)
    ensures BrokerInv(Next(s, step))
  {
    match step
    case Append(e) => if e.publisher !in s.inFlight && e !in s.appended { BrokerInvAppend(s, e); }
    case Send(p) => if p in s.inFlight { BrokerInvSend(s, p); }
    case _ => assert forall q :: Flying(Next(s, step), q) == Flying(s, q);
  }

  /** A client is not affected by what is appended and sent. */
  lemma ClientInvGrow(s: State, s': State, c: Client)
    requires ClientInv(s, c) && s'.client == Some(c)
    requires s.appended <= s'.appended && s.channel <= s'.channel
    ensures ClientInv(s', c)
  {
    assert s'.appended[..c.appendedBefore] == s.appended[..c.appendedBefore];
    assert s'.channel[..c.subscribed] == s.channel[..c.subscribed];
    assert s'.channel[c.subscribed..c.position] == s.channel[c.subscribed..c.position];
  }

  lemma ClientInvReceive(s: State, c: Client)
    requires ClientInv(s, c) && CanReceive(s)
    ensures ClientInv(Next(s, Recv), AfterReceive(c, s.channel))
  {
    assert s.channel[c.subscribed..c.position + 1] == s.channel[c.subscribed..c.position] + [s.channel[c.position]];
  }

  lemma ClientInvJoin(s: State)
    requires BrokerInv(s) && s.client.None?
    ensures var s' := Next(s, Join); ClientInv(s', s'.client.value)
  {
    assert s.appended[..|s.appended|] == s.appended;
    assert s.channel[..|s.channel|] == s.channel;
  }

  lemma ClientInvNext(s: State, step: Step)
    requires BrokerInv(s)
    requires s.client.Some? ==> ClientInv(s, s.client.value)
    ensures var s' := Next(s, step); s'.client.Some? ==> ClientInv(s', s'.client.value)
  {
    match step
    case Append(_) => if s.client.Some? { ClientInvGrow(s, Next(s, step), s.client.value); }
    case Send(_) => if s.client.Some? { ClientInvGrow(s, Next(s, step), s.client.value); }
    case Join => if s.client.None? { ClientInvJoin(s); }
    case WriteCached =>
    case Recv => if CanReceive(s) { ClientInvReceive(s, s.client.value); }
  }

  lemma {:induction false} Reachable(steps: seq<Step>)
    ensures var s := After(steps); BrokerInv(s) && (s.client.Some? ==> ClientInv(s, s.client.value))
  {
    if steps != [] {
      var p := steps[..|steps| - 1];
      Reachable(p);
      BrokerInvNext(After(p), steps[|steps| - 1]);
      ClientInvNext(After(p), steps[|steps| - 1]);
    }
  }

  // ---------------------------------------------------------------------
  // Results
  // ---------------------------------------------------------------------

  /** What the client has put on its stream so far. */
  function Output(c: Client): seq<Event>
    requires c.wrote <= |c.snapshot|
  {
    c.snapshot[..c.wrote] + c.live
  }

  /** Nothing is left to do for this client: no publisher is between append and send, and the
      client has written its copy and everything on the channel. */
  predicate Drained(s: State) {
    && s.client.Some? && s.inFlight == map[]
    && s.client.value.wrote == |s.client.value.snapshot|
    && s.client.value.position == |s.channel|
  }

  lemma InTail(s: seq<Event>, i: nat, n: nat)
    requires |s| - n <= i < |s|
    ensures s[i] in Tail(s, n)
  {
    if |s| > n { assert s[|s| - n..][i - (|s| - n)] == s[i]; }
  }

  /** No gap, at any moment of any interleaving: absent lag, an event that was in the cache at the
      snapshot, or was appended later, has reached the client or is still on its way to it. */
  lemma NoGap(steps: seq<Step>, i: nat)
    requires var s := After(steps);
             s.client.Some? && s.client.value.skipped == 0 &&
             s.client.value.appendedBefore - CACHE_SIZE <= i < |s.appended|
    ensures var s := After(steps); var c := s.client.value; var e := s.appended[i];
            || e in Output(c)
            || e in c.snapshot[c.wrote..]
            || e in s.channel[c.position..]
            || e in s.inFlight.Values
  {
    Reachable(steps);
    var s := After(steps);
    var c := s.client.value;
    var e := s.appended[i];
    if i < c.appendedBefore {
      var before := s.appended[..c.appendedBefore];
      InTail(before, i, CACHE_SIZE);
      assert c.snapshot == c.snapshot[..c.wrote] + c.snapshot[c.wrote..];
    } else {
      assert e !in s.appended[..c.appendedBefore];
      if e in s.channel {
        assert s.channel == s.channel[..c.subscribed] + s.channel[c.subscribed..c.position] + s.channel[c.position..];
      } else {
        assert e in Flying(s, e.publisher);
      }
    }
  }

  /** In a duplicate-free sequence an element of `s` is after position `k` once, unless before it. */
  lemma CountFrom(s: seq<Event>, k: nat, e: Event)
    requires Distinct(s) && k <= |s| && e in s
    ensures multiset(s[k..])[e] == if e in s[..k] then 0 else 1
  {
    assert s == s[..k] + s[k..];
    DistinctCount(s[k..], e);
  }

  lemma CountInTail(s: seq<Event>, n: nat, e: Event)
    requires Distinct(s)
    ensures multiset(Tail(s, n))[e] == if e in Tail(s, n) then 1 else 0
  {
    DistinctCount(Tail(s, n), e);
  }

  lemma DeliveredAt(s: State, c: Client, e: Event)
    requires BrokerInv(s) && ClientInv(s, c) && Drained(s) && c.skipped == 0
    requires e in s.appended
    ensures multiset(Output(c))[e] ==
            (if e in c.snapshot then 1 else 0) + (if e in s.channel[..c.subscribed] then 0 else 1)
  {
    var before := s.appended[..c.appendedBefore];
    assert Distinct(before);
    CountInTail(before, CACHE_SIZE, e);
    assert e in s.channel || e in Flying(s, e.publisher);
    CountFrom(s.channel, c.subscribed, e);
    assert c.live == s.channel[c.subscribed..];
    assert Output(c) == c.snapshot + c.live;
  }

  /** Exact multiplicities once everything has drained: one copy from the cache if it was there
      at the snapshot, one from the channel unless it had been sent by then. */
  lemma DeliveredExactly(steps: seq<Step>, e: Event)
    requires Drained(After(steps)) && After(steps).client.value.skipped == 0
    requires e in After(steps).appended
    ensures var s := After(steps); var c := s.client.value;
            multiset(Output(c))[e] ==
            (if e in c.snapshot then 1 else 0) + (if e in s.channel[..c.subscribed] then 0 else 1)
  {
    Reachable(steps);
    DeliveredAt(After(steps), After(steps).client.value, e);
  }

  /** An event arrives twice exactly when the snapshot fell between its append and its send (and
      found it still cached), and not at all exactly when it was sent and evicted before. */
  lemma TwiceOrNever(steps: seq<Step>, e: Event)
    requires Drained(After(steps)) && After(steps).client.value.skipped == 0
    requires e in After(steps).appended
    ensures var s := After(steps); var c := s.client.value;
            && (multiset(Output(c))[e] == 2 <==> e in c.snapshot && e !in s.channel[..c.subscribed])
            && (multiset(Output(c))[e] == 0 <==> e !in c.snapshot && e in s.channel[..c.subscribed])
            && (e !in s.appended[..c.appendedBefore] ==> multiset(Output(c))[e] == 1)
  {
    DeliveredExactly(steps, e);
    Reachable(steps);
    var s := After(steps);
    var c := s.client.value;
    if e in c.snapshot {
      assert e in s.appended[..c.appendedBefore];
    }
  }

  ghost predicate InOrder(s: State, p: nat) {
    By(s.appended, p) == By(s.channel, p) + Flying(s, p)
  }

  lemma AppendInOrder(s: State, e: Event, p: nat)
    requires InOrder(s, p) && e.publisher !in s.inFlight
    ensures InOrder(Appended(s, e), p)
  {
    BySnoc(s.appended, e, p);
    assert Flying(Appended(s, e), p) == if e.publisher == p then [e] else Flying(s, p);
    if e.publisher == p { assert Flying(s, p) == []; }
  }

  lemma SendInOrder(s: State, q: nat, p: nat)
    requires InOrder(s, p) && q in s.inFlight && s.inFlight[q].publisher == q
    ensures InOrder(Sent(s, q), p)
  {
    BySnoc(s.channel, s.inFlight[q], p);
    assert Flying(Sent(s, q), p) == if q == p then [] else Flying(s, p);
    if q != p { assert By(s.channel, p) + [] == By(s.channel, p); }
  }

  lemma PublisherOrderNext(s: State, step: Step, p: nat)
    requires forall q :: q in s.inFlight ==> s.inFlight[q].publisher == q
    requires InOrder(s, p)
    ensures InOrder(Next(s, step), p)
  {
    match step
    case Append(e) => if e.publisher !in s.inFlight { AppendInOrder(s, e, p); }
    case Send(q) => if q in s.inFlight { SendInOrder(s, q, p); }
    case _ =>
  }

  /** Each publisher's lines go out on the channel in the order it published them, whatever the
      other publishers do. */
  lemma {:induction false} PublisherOrder(steps: seq<Step>, p: nat)
    ensures InOrder(After(steps), p)
  {
    if steps != [] {
      var prev := steps[..|steps| - 1];
      PublisherOrder(prev, p);
      Reachable(prev);
      PublisherOrderNext(After(prev), steps[|steps| - 1], p);
    }
  }

  /** Every receive of the run found at most BROADCAST_CAPACITY messages waiting. */
  predicate KeptUp(steps: seq<Step>) {
    steps == [] ||
    var s := After(steps[..|steps| - 1]);
    && KeptUp(steps[..|steps| - 1])
    && (steps[|steps| - 1] == Recv && CanReceive(s) ==>
          |s.channel| - s.client.value.position <= BROADCAST_CAPACITY)
  }

  /** Events are skipped only by falling more than BROADCAST_CAPACITY behind. */
  lemma {:induction false} SkipsExactly(steps: seq<Step>)
    ensures KeptUp(steps) <==> (After(steps).client.Some? ==> After(steps).client.value.skipped == 0)
  {
    if steps != [] {
      SkipsExactly(steps[..|steps| - 1]);
    }
  }

  /** Every skipped event is reported: what was written live, what was reported skipped and what
      is waiting add up to what was sent since the client subscribed. */
  lemma LagConserved(steps: seq<Step>)
    requires After(steps).client.Some?
    ensures var s := After(steps); var c := s.client.value;
            |c.live| + c.skipped + |s.channel[c.position..]| == |s.channel[c.subscribed..]|
  {
    Reachable(steps);
  }

  // ---------------------------------------------------------------------
  // What a lagging client gets
  // ---------------------------------------------------------------------

  /** Some receive of the run found message `k` still ahead of the client and more than
      BROADCAST_CAPACITY from the end of the channel. */
  predicate Overtaken(steps: seq<Step>, k: nat) {
    steps != [] &&
    (Overtaken(steps[..|steps| - 1], k) || OvertakenAt(After(steps[..|steps| - 1]), steps[|steps| - 1], k))
  }

  predicate OvertakenAt(s: State, step: Step, k: nat) {
    step == Recv && CanReceive(s) && s.client.value.position <= k && |s.channel| - k > BROADCAST_CAPACITY
  }

  /** The messages in a stretch of the channel that were not overtaken, in order. */
  function Survivors(channel: seq<Event>, lost: nat -> bool, lo: nat, hi: nat): seq<Event>
    requires lo <= hi <= |channel|
  {
    if lo == hi then []
    else Survivors(channel, lost, lo, hi - 1) + if lost(hi - 1) then [] else [channel[hi - 1]]
  }

  lemma {:induction false} SameSurvivors(
    channel: seq<Event>, longer: seq<Event>, lost: nat -> bool, lost': nat -> bool, lo: nat, hi: nat)
    requires lo <= hi <= |channel| && channel <= longer
    requires forall k: nat :: lo <= k < hi ==> lost(k) == lost'(k)
    ensures Survivors(channel, lost, lo, hi) == Survivors(longer, lost', lo, hi)
  {
    if lo < hi { SameSurvivors(channel, longer, lost, lost', lo, hi - 1); }
  }

  lemma {:induction false} NoneSurvive(channel: seq<Event>, lost: nat -> bool, lo: nat, mid: nat, hi: nat)
    requires lo <= mid <= hi <= |channel|
    requires forall k: nat :: mid <= k < hi ==> lost(k)
    ensures Survivors(channel, lost, lo, hi) == Survivors(channel, lost, lo, mid)
  {
    if mid < hi { NoneSurvive(channel, lost, lo, mid, hi - 1); }
  }

  /** What the client has received is what was not overtaken, and nothing ahead of it is. */
  ghost predicate GotSurvivors(s: State, lost: nat -> bool) {
    s.client.Some? ==>
      var c := s.client.value;
      && c.subscribed <= c.position <= |s.channel|
      && c.live == Survivors(s.channel, lost, c.subscribed, c.position)
      && (forall k: nat :: c.position <= k ==> !lost(k))
  }

  lemma SurvivorsRecv(s: State, lost: nat -> bool, lost': nat -> bool)
    requires GotSurvivors(s, lost) && CanReceive(s)
    requires forall k: nat :: lost'(k) == (lost(k) || OvertakenAt(s, Recv, k))
    ensures GotSurvivors(Next(s, Recv), lost')
  {
    var c := s.client.value;
    SameSurvivors(s.channel, s.channel, lost, lost', c.subscribed, c.position);
    match Receive(s.channel, c.position)
    case Line(_) =>
      assert !lost'(c.position);
    case Lagged(missed) =>
      NoneSurvive(s.channel, lost', c.subscribed, c.position, c.position + missed);
  }

  lemma SurvivorsGrow(s: State, s': State, lost: nat -> bool, lost': nat -> bool)
    requires GotSurvivors(s, lost) && s.channel <= s'.channel && (forall k: nat :: lost'(k) == lost(k))
    requires s'.client.Some? ==>
      && s.client.Some? && s'.client.value.live == s.client.value.live
      && s'.client.value.subscribed == s.client.value.subscribed && s'.client.value.position == s.client.value.position
    ensures GotSurvivors(s', lost')
  {
    if s'.client.Some? {
      SameSurvivors(s.channel, s'.channel, lost, lost', s.client.value.subscribed, s.client.value.position);
    }
  }

  lemma {:induction false} NotOvertakenYet(steps: seq<Step>, k: nat)
    requires After(steps).client.None?
    ensures !Overtaken(steps, k)
  {
    if steps != [] { NotOvertakenYet(steps[..|steps| - 1], k); }
  }

  function Lost(steps: seq<Step>): nat -> bool {
    (k: nat) => Overtaken(steps, k)
  }

  lemma SurvivorsJoin(s: State, lost: nat -> bool)
    requires s.client.None? && forall k: nat :: !lost(k)
    ensures GotSurvivors(Next(s, Join), lost)
  {
  }

  lemma SurvivorsOther(s: State, step: Step, lost: nat -> bool, lost': nat -> bool)
    requires GotSurvivors(s, lost) && (forall k: nat :: lost'(k) == lost(k))
    requires !(step == Recv && CanReceive(s)) && !(step == Join && s.client.None?)
    ensures GotSurvivors(Next(s, step), lost')
  {
    SurvivorsGrow(s, Next(s, step), lost, lost');
  }

  /** Lagging or not, a client gets exactly the messages sent since it subscribed that were never
      more than BROADCAST_CAPACITY from the end of the channel at a receive of its own, in order. */
  lemma {:induction false} SurvivorsExactly(steps: seq<Step>)
    ensures GotSurvivors(After(steps), Lost(steps))
  {
    if steps != [] {
      var p, step := steps[..|steps| - 1], steps[|steps| - 1];
      var s := After(p);
      SurvivorsExactly(p);
      if step == Recv && CanReceive(s) {
        SurvivorsRecv(s, Lost(p), Lost(steps));
      } else if step == Join && s.client.None? {
        forall k: nat ensures !Lost(steps)(k) {
          NotOvertakenYet(p, k);
        }
        SurvivorsJoin(s, Lost(steps));
      } else {
        SurvivorsOther(s, step, Lost(p), Lost(steps));
      }
    }
  }
}
