/** The single-use tokens that bridge `POST /connect` and the WebTransport handshake.

    Issuing a token also prunes the map. The model proves the pruning invisible and
    gives the answer of every consume as a property of the history alone. */
module WtTokens {
  import opened Common

  const WT_TOKEN_LIFETIME := 30

  type Token = string
  type Actor = string

  datatype Entry = Entry(actor: Actor, expires: int, used: bool)

  type Tokens = map<Token, Entry>

  /** Entries a later consume could still accept. */
  function Pruned(m: Tokens, now: int): Tokens {
    map t | t in m && !m[t].used && m[t].expires > now :: m[t]
  }

  /** `issuedAt` is read before the lock is taken, `now` while it is held. */
  function Issued(m: Tokens, token: Token, actor: Actor, issuedAt: int, now: int): Tokens {
    Pruned(m, now)[token := Entry(actor, issuedAt + WT_TOKEN_LIFETIME, false)]
  }

  function Consumed(m: Tokens, token: Token, now: int): (Tokens, Option<Actor>) {
    if token !in m || m[token].used || m[token].expires <= now then (m, None)
    else (m[token := m[token].(used := true)], Some(m[token].actor))
  }

  class WtTokenMap {
    var entries: Tokens

    constructor ()
      ensures entries == map[]
    {
      entries := map[];
    }

    /** `token` is the UUID drawn by the call. */
    method Issue(token: Token, actor: Actor, issuedAt: int, now: int)
      modifies this
      ensures entries == Issued(old(entries), token, actor, issuedAt, now)
    {
      var expires := issuedAt + WT_TOKEN_LIFETIME;
      entries := map t | t in entries && !entries[t].used && entries[t].expires > now :: entries[t];
      entries := entries[token := Entry(actor, expires, false)];
    }

    method Consume(token: Token, now: int) returns (actor: Option<Actor>)
      modifies this
      ensures (entries, actor) == Consumed(old(entries), token, now)
    {
      if token !in entries {
        return None;
      }
      var entry := entries[token];
      if entry.used || entry.expires <= now {
        return None;
      }
      entries := entries[token := entry.(used := true)];
      return Some(entry.actor);
    }
  }

  // ---------------------------------------------------------------------
  // Histories
  // ---------------------------------------------------------------------

  /** One locked call; `at` is the time read under the lock. */
  datatype Op =
    | Issue(token: Token, actor: Actor, issuedAt: int, at: int)
    | Consume(token: Token, at: int)

  /** Lock acquisitions see a clock that does not go back. */
  predicate Timed(ops: seq<Op>) {
    forall i, j :: 0 <= i < j < |ops| ==> ops[i].at <= ops[j].at
  }

  /** Every issued token is a fresh UUID. */
  predicate Fresh(ops: seq<Op>) {
    forall i, j :: 0 <= i < j < |ops| && ops[i].Issue? && ops[j].Issue? ==> ops[i].token != ops[j].token
  }

  function Step(m: Tokens, op: Op): (Tokens, Option<Actor>) {
    match op
    case Issue(token, actor, issuedAt, at) => (Issued(m, token, actor, issuedAt, at), None)
    case Consume(token, at) => Consumed(m, token, at)
  }

  function MapAfter(ops: seq<Op>): Tokens {
    if ops == [] then map[] else Step(MapAfter(ops[..|ops| - 1]), ops[|ops| - 1]).0
  }

  /** What call `i` of the history answers. */
  function Answer(ops: seq<Op>, i: nat): Option<Actor>
    requires i < |ops|
  {
    Step(MapAfter(ops[..i]), ops[i]).1
  }

  /** The same map without the pruning: it only ever grows. */
  function StepKeepAll(m: Tokens, op: Op): (Tokens, Option<Actor>) {
    match op
    case Issue(token, actor, issuedAt, _) => (m[token := Entry(actor, issuedAt + WT_TOKEN_LIFETIME, false)], None)
    case Consume(token, at) => Consumed(m, token, at)
  }

  function KeepAllAfter(ops: seq<Op>): Tokens {
    if ops == [] then map[] else StepKeepAll(KeepAllAfter(ops[..|ops| - 1]), ops[|ops| - 1]).0
  }

  function KeepAllAnswer(ops: seq<Op>, i: nat): Option<Actor>
    requires i < |ops|
  {
    StepKeepAll(KeepAllAfter(ops[..i]), ops[i]).1
  }

  /** The pruned map lacks only entries that can never be accepted again. */
  predicate SameLive(m: Tokens, all: Tokens, now: int) {
    && (forall t :: t in m ==> t in all && all[t] == m[t])
    && (forall t :: t in all && t !in m ==> all[t].used || all[t].expires <= now)
  }

  lemma {:induction false} PrunedKeepsLive(ops: seq<Op>, now: int)
    requires Timed(ops)
    requires forall i :: 0 <= i < |ops| ==> ops[i].at <= now
    ensures SameLive(MapAfter(ops), KeepAllAfter(ops), now)
  {
    if ops != [] {
      var n := |ops| - 1;
      PrunedKeepsLive(ops[..n], ops[n].at);
    }
  }

  /** Pruning is invisible: every call is answered as if nothing were ever forgotten. */
  lemma PruningInvisible(ops: seq<Op>, i: nat)
    requires Timed(ops)
    requires i < |ops|
    ensures Answer(ops, i) == KeepAllAnswer(ops, i)
  {
    PrunedKeepsLive(ops[..i], ops[i].at);
  }

  /** Call `j` issued the token presented by call `i`, which is the first to present it and
      does so within the lifetime. */
  predicate Redeems(ops: seq<Op>, j: nat, i: nat) {
    && j < i < |ops|
    && ops[j].Issue? && ops[i].Consume? && ops[j].token == ops[i].token
    && ops[i].at < ops[j].issuedAt + WT_TOKEN_LIFETIME
    && forall k :: j < k < i ==> !(ops[k].Consume? && ops[k].token == ops[i].token)
  }

  /** The entry of a token once issued by call `j` of `ops`. */
  predicate Tracks(ops: seq<Op>, j: nat, m: Tokens) {
    && j < |ops| && ops[j].Issue?
    && var t := ops[j].token;
    && t in m
    && m[t].actor == ops[j].actor
    && m[t].expires == ops[j].issuedAt + WT_TOKEN_LIFETIME
    && (m[t].used <==> exists k :: j < k < |ops| && ops[k].Consume? && ops[k].token == t && ops[k].at < m[t].expires)
  }

  lemma {:induction false} IssuedTracked(ops: seq<Op>, j: nat)
    requires Fresh(ops)
    requires j < |ops| && ops[j].Issue?
    ensures Tracks(ops, j, KeepAllAfter(ops))
  {
    var n := |ops| - 1;
    var p := ops[..n];
    assert Fresh(p);
    if j < n {
      IssuedTracked(p, j);
      var t := ops[j].token;
      var m := KeepAllAfter(p);
      var m' := KeepAllAfter(ops);
      if m[t].used {
        var k :| j < k < |p| && p[k].Consume? && p[k].token == t && p[k].at < m[t].expires;
        assert ops[k] == p[k];
      }
      if exists k :: j < k < |ops| && ops[k].Consume? && ops[k].token == t && ops[k].at < m[t].expires {
        var k :| j < k < |ops| && ops[k].Consume? && ops[k].token == t && ops[k].at < m[t].expires;
        if k < n {
          assert p[k] == ops[k];
        }
      }
      if m'[t].used && !m[t].used {
        assert ops[n].Consume? && ops[n].token == t && ops[n].at < m[t].expires;
      }
    }
  }

  lemma {:induction false} OnlyIssuedKnown(ops: seq<Op>, t: Token)
    requires t in KeepAllAfter(ops)
    ensures exists j :: 0 <= j < |ops| && ops[j].Issue? && ops[j].token == t
  {
    var n := |ops| - 1;
    if ops[n].Issue? && ops[n].token == t {
    } else {
      OnlyIssuedKnown(ops[..n], t);
      var j :| 0 <= j < n && ops[..n][j].Issue? && ops[..n][j].token == t;
      assert ops[j].Issue?;
    }
  }

  /** A consume yields an actor exactly when it redeems a token, and then yields the actor the
      token was issued to. */
  lemma ConsumeAnswers(ops: seq<Op>, i: nat)
    requires Timed(ops) && Fresh(ops)
    requires i < |ops| && ops[i].Consume?
    ensures Answer(ops, i).Some? <==> exists j: nat :: Redeems(ops, j, i)
    ensures forall j: nat :: Redeems(ops, j, i) ==> Answer(ops, i) == Some(ops[j].actor)
  {
    PruningInvisible(ops, i);
    var p := ops[..i];
    assert Fresh(p);
    var t := ops[i].token;
    forall j: nat | Redeems(ops, j, i)
      ensures Answer(ops, i) == Some(ops[j].actor)
    {
      IssuedTracked(p, j);
      assert p[j] == ops[j];
      assert forall k :: j < k < i ==> p[k] == ops[k];
    }
    if Answer(ops, i).Some? {
      OnlyIssuedKnown(p, t);
      var j :| 0 <= j < i && p[j].Issue? && p[j].token == t;
      IssuedTracked(p, j);
      var m := KeepAllAfter(p);
      forall k | j < k < i
        ensures !(ops[k].Consume? && ops[k].token == t)
      {
        assert p[k] == ops[k];
        assert ops[k].at <= ops[i].at;
      }
      assert Redeems(ops, j, i);
    }
  }

  /** Each token yields its actor at most once, however often and however late it is presented. */
  lemma YieldsAtMostOnce(ops: seq<Op>, i: nat, i': nat)
    requires Timed(ops) && Fresh(ops)
    requires i < i' < |ops| && ops[i].Consume? && ops[i'].Consume? && ops[i].token == ops[i'].token
    requires Answer(ops, i).Some?
    ensures Answer(ops, i').None?
  {
    ConsumeAnswers(ops, i);
    ConsumeAnswers(ops, i');
    var j: nat :| Redeems(ops, j, i);
  }
}
