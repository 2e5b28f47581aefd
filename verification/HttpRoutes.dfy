/** HTTP route declarations on a service, and the pod bindings that use them.

    An app script declares prefixes, binds pods to them, turns them into redirects and sets proxy
    options on them, in any order. The model follows the builders call by call: each is accepted
    or refused, and acceptance must keep "redirected or proxied, never both" whichever was written
    first. */
module HttpRoutes {
  import opened Common

  // ---------------------------------------------------------------------
  // Prefixes
  // ---------------------------------------------------------------------

  /** Normal spelling: no trailing slash, except for the root itself. */
  predicate IsNormal(p: string) {
    p == "/" || (|p| > 0 && p[0] == '/' && p[|p| - 1] != '/')
  }

  type Prefix = p: string | IsNormal(p) witness "/"

  lemma {:induction false} TrimKeepsHead(p: string)
    ensures TrimSlashes(p) <= p
    ensures TrimSlashes(p) != [] ==> TrimSlashes(p)[|TrimSlashes(p)| - 1] != '/'
  {
    if p != [] && p[|p| - 1] == '/' {
      TrimKeepsHead(p[..|p| - 1]);
    }
  }

  function Normalised(p: string): (r: Prefix)
    requires |p| > 0 && p[0] == '/'
  {
    TrimKeepsHead(p);
    if TrimSlashes(p) == [] then "/" else TrimSlashes(p)
  }

  function Slashes(n: nat): string {
    seq(n, _ => '/')
  }

  lemma {:induction false} TrimAppended(p: string, n: nat)
    ensures TrimSlashes(p + Slashes(n)) == TrimSlashes(p)
  {
    var q := p + Slashes(n);
    if n == 0 {
      assert q == p;
    } else {
      assert q[..|q| - 1] == p + Slashes(n - 1);
      TrimAppended(p, n - 1);
    }
  }

  lemma {:induction false} TrimRestored(p: string)
    ensures p == TrimSlashes(p) + Slashes(|p| - |TrimSlashes(p)|)
  {
    TrimKeepsHead(p);
    if p != [] && p[|p| - 1] == '/' {
      TrimRestored(p[..|p| - 1]);
    }
  }

  lemma SlashesAdd(t: string, m: nat, n: nat)
    ensures t + Slashes(m) + Slashes(n) == t + Slashes(m + n)
  {
  }

  /** Two spellings name the same route exactly when they differ in trailing slashes only. */
  lemma NormalisedExactly(p: string, q: string)
    requires |p| > 0 && p[0] == '/' && |q| > 0 && q[0] == '/'
    ensures Normalised(p) == Normalised(q) <==> exists m: nat, n: nat :: p + Slashes(m) == q + Slashes(n)
  {
    TrimKeepsHead(p);
    TrimKeepsHead(q);
    if Normalised(p) == Normalised(q) {
      var t := TrimSlashes(p);
      var m, n := |p| - |t|, |q| - |t|;
      TrimRestored(p);
      TrimRestored(q);
      SlashesAdd(t, m, n);
      SlashesAdd(t, n, m);
      assert p + Slashes(n) == q + Slashes(m);
    }
    if m: nat, n: nat :| p + Slashes(m) == q + Slashes(n) {
      TrimAppended(p, m);
      TrimAppended(q, n);
    }
  }

  /** A normal spelling is its own. */
  lemma NormalStays(p: Prefix)
    ensures Normalised(p) == p
  {
  }

  // ---------------------------------------------------------------------
  // Settings
  // ---------------------------------------------------------------------

  /** Header names compare without regard to ASCII case. */
  function Fold(name: string): string {
    seq(|name|, i requires 0 <= i < |name| => if 'A' <= name[i] <= 'Z' then name[i] + 32 as char else name[i])
  }

  datatype HeaderOp =
    | Replace(spelling: string, values: seq<string>)
    | Add(spelling: string, values: seq<string>)
    | Remove(spelling: string)

  /** Operations keyed by folded name; each keeps the spelling it was declared with. */
  type HeaderRules = map<string, HeaderOp>

  const REDIRECT_OWNED_HEADER := "Location"

  predicate Names(rules: HeaderRules, name: string) {
    Fold(name) in rules
  }

  datatype Headers = Headers(request: HeaderRules, response: HeaderRules)

  /** Per name, the later call wins. */
  function Layered(earlier: Headers, later: Headers): Headers {
    Headers(earlier.request + later.request, earlier.response + later.response)
  }

  datatype Switch = Disabled | Enabled(settings: string)

  datatype Balance = Balance(policy: Option<string>, tryDuration: Option<real>, interval: Option<real>)

  const DEFAULT_BALANCE := Balance(None, None, None)

  datatype Settings = Settings(compress: Option<Switch>, balance: Balance, rateLimit: Option<Switch>, headers: Headers)

  const NO_SETTINGS := Settings(None, DEFAULT_BALANCE, None, Headers(map[], map[]))

  datatype Change =
    | SetCompress(decl: Switch)
    | SetBalance(balance: Balance)
    | SetRateLimit(limit: Switch)
    | LayerHeaders(headers: Headers)

  function Changed(s: Settings, c: Change): Settings {
    match c
    case SetCompress(decl) => s.(compress := Some(decl))
    case SetBalance(balance) => s.(balance := balance)
    case SetRateLimit(limit) => s.(rateLimit := Some(limit))
    case LayerHeaders(headers) => s.(headers := Layered(s.headers, headers))
  }

  /** Header operations a redirect has something to do with. */
  predicate RedirectTakes(h: Headers) {
    h.request == map[] && !Names(h.response, REDIRECT_OWNED_HEADER)
  }

  /** Everything here acts on a response a redirect serves. */
  predicate UsableOnRedirect(s: Settings) {
    && s.compress.None? && s.balance == DEFAULT_BALANCE && s.rateLimit.None?
    && RedirectTakes(s.headers)
  }

  // ---------------------------------------------------------------------
  // Routes
  // ---------------------------------------------------------------------

  datatype Kind = Proxied(bound: bool) | Redirect(to: string)

  datatype Decl = Decl(settings: Settings, kind: Kind)

  const DEFAULT_DECL := Decl(NO_SETTINGS, Proxied(false))

  type Routes = map<Prefix, Decl>

  function Declared(routes: Routes, p: Prefix): Decl {
    if p in routes then routes[p] else DEFAULT_DECL
  }

  function Registered(routes: Routes, p: Prefix): Routes {
    routes[p := Declared(routes, p)]
  }

  /** The map after a pod asks for the prefix, and whether it may have it. */
  function Bound(routes: Routes, p: Prefix): (Routes, bool) {
    var d := Declared(routes, p);
    if d.kind.Redirect? then (routes[p := d], false) else (routes[p := d.(kind := Proxied(true))], true)
  }

  function Redirected(routes: Routes, p: Prefix, to: string, frozen: bool): (Routes, bool) {
    var d := Declared(routes, p);
    if p == "/" || frozen then (routes, false)
    else if d.kind == Proxied(true) || !UsableOnRedirect(d.settings) then (routes[p := d], false)
    else (routes[p := d.(kind := Redirect(to))], true)
  }

  function Adjusted(routes: Routes, p: Prefix, c: Change, frozen: bool): (Routes, bool) {
    var d := Declared(routes, p);
    if c.LayerHeaders? && p in routes && routes[p].kind.Redirect? && !RedirectTakes(c.headers) then (routes, false)
    else if frozen then (routes, false)
    else if d.kind.Redirect? && !c.LayerHeaders? then (routes[p := d], false)
    else (routes[p := d.(settings := Changed(d.settings, c))], true)
  }

  /** The HTTP surface of one service. `frozen` says whether the service handle is frozen at the
      time of the call, which an external service's never is. */
  class HttpServiceDef {
    var routes: Routes

    constructor ()
      ensures routes == map[]
    {
      routes := map[];
    }

    method RegisterRoute(p: Prefix)
      modifies this
      ensures routes == Registered(old(routes), p)
    {
      if p !in routes {
        routes := routes[p := DEFAULT_DECL];
      }
      assert routes == routes[p := routes[p]];
    }

    method RecordBinding(p: Prefix) returns (ok: bool)
      modifies this
      ensures (routes, ok) == Bound(old(routes), p)
    {
      RegisterRoute(p);
      match routes[p].kind {
        case Proxied(_) =>
          routes := routes[p := routes[p].(kind := Proxied(true))];
          assert routes == old(routes)[p := routes[p]];
          ok := true;
        case Redirect(_) =>
          ok := false;
      }
    }

    method DeclareRedirect(p: Prefix, to: string, frozen: bool) returns (ok: bool)
      modifies this
      ensures (routes, ok) == Redirected(old(routes), p, to, frozen)
    {
      if p == "/" {
        return false;
      }
      if frozen {
        return false;
      }
      RegisterRoute(p);
      if routes[p].kind == Proxied(true) {
        return false;
      }
      if !UsableOnRedirect(routes[p].settings) {
        return false;
      }
      routes := routes[p := routes[p].(kind := Redirect(to))];
      assert routes == old(routes)[p := routes[p]];
      return true;
    }

    method AdjustRoute(p: Prefix, c: Change, frozen: bool) returns (ok: bool)
      modifies this
      ensures (routes, ok) == Adjusted(old(routes), p, c, frozen)
    {
      if c.LayerHeaders? && p in routes && routes[p].kind.Redirect? {
        if c.headers.request != map[] {
          return false;
        }
        if Names(c.headers.response, REDIRECT_OWNED_HEADER) {
          return false;
        }
      }
      if frozen {
        return false;
      }
      RegisterRoute(p);
      if routes[p].kind.Redirect? && !c.LayerHeaders? {
        return false;
      }
      routes := routes[p := routes[p].(settings := Changed(routes[p].settings, c))];
      assert routes == old(routes)[p := routes[p]];
      return true;
    }
  }

  // ---------------------------------------------------------------------
  // Scripts
  // ---------------------------------------------------------------------

  datatype Binding = Binding(port: int, prefix: Prefix)

  /** The service's routes and the HTTP bindings its pods hold on it. */
  datatype State = State(routes: Routes, bindings: seq<Binding>)

  datatype Call =
    | Route(spelling: string)
    | BindRoute(prefix: Prefix, port: int, podFrozen: bool)
    | BindService(port: int, podFrozen: bool)
    | DoRedirect(prefix: Prefix, to: string, frozen: bool)
    | Adjust(prefix: Prefix, change: Change, frozen: bool)

  predicate ValidPort(port: int) {
    1 <= port <= 65535
  }

  function Step(s: State, c: Call): (State, bool) {
    match c
    case Route(spelling) =>
      if spelling == [] || spelling[0] != '/' then (s, false)
      else (s.(routes := Registered(s.routes, Normalised(spelling))), true)
    case BindRoute(p, port, podFrozen) =>
      if podFrozen || !ValidPort(port) then (s, false) else PodBound(s, s.routes, port, p)
    case BindService(port, podFrozen) =>
      if podFrozen || !ValidPort(port) then (s, false) else PodBound(s, Registered(s.routes, "/"), port, "/")
    case DoRedirect(p, to, frozen) =>
      var (routes, ok) := Redirected(s.routes, p, to, frozen);
      (s.(routes := routes), ok)
    case Adjust(p, change, frozen) =>
      var (routes, ok) := Adjusted(s.routes, p, change, frozen);
      (s.(routes := routes), ok)
  }

  /** The binding is recorded on the service first and kept by the pod only if that worked. */
  function PodBound(s: State, routes: Routes, port: int, p: Prefix): (State, bool) {
    var (routes', ok) := Bound(routes, p);
    (State(routes', if ok then s.bindings + [Binding(port, p)] else s.bindings), ok)
  }

  const Empty := State(map[], [])

  function After(calls: seq<Call>): State {
    if calls == [] then Empty else Step(After(calls[..|calls| - 1]), calls[|calls| - 1]).0
  }

  /** Whether call `i` of the script is accepted. */
  predicate Accepted(calls: seq<Call>, i: nat)
    requires i < |calls|
  {
    Step(After(calls[..i]), calls[i]).1
  }

  /** Which prefix a call is about. */
  function About(c: Call): Option<Prefix> {
    match c
    case Route(spelling) => if spelling == [] || spelling[0] != '/' then None else Some(Normalised(spelling))
    case BindRoute(p, _, _) => Some(p)
    case BindService(_, _) => Some("/")
    case DoRedirect(p, _, _) => Some(p)
    case Adjust(p, _, _) => Some(p)
  }

  /** What every script keeps. */
  ghost predicate Consistent(s: State) {
    && (forall p :: p in s.routes && s.routes[p].kind.Redirect? ==> p != "/" && UsableOnRedirect(s.routes[p].settings))
    && (forall b :: b in s.bindings ==> b.prefix in s.routes && s.routes[b.prefix].kind == Proxied(true))
    && (forall p :: p in s.routes && s.routes[p].kind == Proxied(true) ==> exists b :: b in s.bindings && b.prefix == p)
  }

  lemma LayeredOnRedirect(earlier: Headers, later: Headers)
    requires RedirectTakes(earlier) && RedirectTakes(later)
    ensures RedirectTakes(Layered(earlier, later))
  {
  }

  lemma PodBoundConsistent(s: State, routes: Routes, port: int, p: Prefix)
    requires Consistent(s) && (routes == s.routes || (p == "/" && routes == Registered(s.routes, p)))
    ensures Consistent(PodBound(s, routes, port, p).0)
  {
    var (s', ok) := PodBound(s, routes, port, p);
    forall q | q in s'.routes && s'.routes[q].kind == Proxied(true)
      ensures exists b :: b in s'.bindings && b.prefix == q
    {
      if q == p {
        assert ok && Binding(port, p) in s'.bindings;
      } else {
        var b :| b in s.bindings && b.prefix == q;
        assert b in s'.bindings;
      }
    }
  }

  lemma RouteConsistent(s: State, c: Call)
    requires Consistent(s) && c.Route?
    ensures Consistent(Step(s, c).0)
  {
    assert Step(s, c).0.bindings == s.bindings;
  }

  lemma RedirectConsistent(s: State, c: Call)
    requires Consistent(s) && c.DoRedirect?
    ensures Consistent(Step(s, c).0)
  {
    assert Step(s, c).0.bindings == s.bindings;
  }

  lemma AdjustConsistent(s: State, c: Call)
    requires Consistent(s) && c.Adjust?
    ensures Consistent(Step(s, c).0)
  {
    assert Step(s, c).0.bindings == s.bindings;
    if c.change.LayerHeaders? && c.prefix in s.routes && s.routes[c.prefix].kind.Redirect? &&
       RedirectTakes(c.change.headers) {
      LayeredOnRedirect(s.routes[c.prefix].settings.headers, c.change.headers);
    }
  }

  lemma RoutesConsistent(s: State, c: Call)
    requires Consistent(s)
    requires c.Route? || c.DoRedirect? || c.Adjust?
    ensures Consistent(Step(s, c).0)
  {
    if c.Route? { RouteConsistent(s, c); }
    else if c.DoRedirect? { RedirectConsistent(s, c); }
    else { AdjustConsistent(s, c); }
  }

  lemma StepConsistent(s: State, c: Call)
    requires Consistent(s)
    ensures Consistent(Step(s, c).0)
  {
    match c
    case BindRoute(p, port, podFrozen) => PodBoundConsistent(s, s.routes, port, p);
    case BindService(port, podFrozen) => PodBoundConsistent(s, Registered(s.routes, "/"), port, "/");
    case _ => RoutesConsistent(s, c);
  }

  /** After every script: `/` is never a redirect, a redirect holds no setting it cannot use, and the
      prefixes with a bound proxied entry are exactly those the pods hold a binding on. */
  lemma {:induction false} AlwaysConsistent(calls: seq<Call>)
    ensures Consistent(After(calls))
  {
    if calls != [] {
      AlwaysConsistent(calls[..|calls| - 1]);
      StepConsistent(After(calls[..|calls| - 1]), calls[|calls| - 1]);
    }
  }

  /** A refused call changes nothing, though every builder creates the entry before it decides. */
  lemma RefusedChangesNothing(calls: seq<Call>, c: Call)
    requires !Step(After(calls), c).1
    ensures Step(After(calls), c).0 == After(calls)
  {
    AlwaysConsistent(calls);
    var s := After(calls);
    assert forall p :: p in s.routes ==> s.routes[p := s.routes[p]] == s.routes;
  }

  /** What a call does, as a function of the entry of its own prefix alone: the entry after it, the
      bindings it adds, and whether it is accepted. */
  function Effect(d: Option<Decl>, c: Call): (Option<Decl>, seq<Binding>, bool) {
    match About(c)
    case None => (d, [], false)
    case Some(p) =>
      var alone := State(if d.Some? then map[p := d.value] else map[], []);
      var (s, ok) := Step(alone, c);
      (EntryOf(s, Some(p)), s.bindings, ok)
  }

  function EntryOf(s: State, p: Option<Prefix>): Option<Decl> {
    if p.Some? && p.value in s.routes then Some(s.routes[p.value]) else None
  }

  lemma StepLocal(s: State, c: Call)
    ensures var (d, bs, ok) := Effect(EntryOf(s, About(c)), c);
            && Step(s, c).1 == ok
            && Step(s, c).0.bindings == s.bindings + bs
            && EntryOf(Step(s, c).0, About(c)) == d
    ensures forall q: Prefix :: Some(q) != About(c) ==> EntryOf(Step(s, c).0, Some(q)) == EntryOf(s, Some(q))
  {
  }

  lemma SameEntries(s: State, s': State)
    requires forall q: Prefix :: EntryOf(s, Some(q)) == EntryOf(s', Some(q))
    ensures s.routes == s'.routes
  {
    forall q: Prefix ensures q in s.routes <==> q in s'.routes {
      assert EntryOf(s, Some(q)) == EntryOf(s', Some(q));
    }
    forall q: Prefix | q in s.routes ensures s.routes[q] == s'.routes[q] {
      assert EntryOf(s, Some(q)) == EntryOf(s', Some(q));
    }
  }

  /** Doing `b` after `a`, when they are about different prefixes, is doing both on `s`. */
  lemma StepsApart(s: State, a: Call, b: Call)
    requires About(a) != About(b)
    ensures var (da, ba, oka) := Effect(EntryOf(s, About(a)), a);
            var (db, bb, okb) := Effect(EntryOf(s, About(b)), b);
            var s' := Step(Step(s, a).0, b).0;
            && Step(Step(s, a).0, b).1 == okb
            && s'.bindings == s.bindings + ba + bb
            && EntryOf(s', About(a)) == da && EntryOf(s', About(b)) == db
    ensures forall q: Prefix :: Some(q) != About(a) && Some(q) != About(b) ==>
              EntryOf(Step(Step(s, a).0, b).0, Some(q)) == EntryOf(s, Some(q))
  {
    StepLocal(s, a);
    StepLocal(Step(s, a).0, b);
    assert EntryOf(Step(s, a).0, About(b)) == EntryOf(s, About(b));
  }

  lemma EntriesCommute(s: State, a: Call, b: Call)
    requires About(a) != About(b)
    ensures forall q: Prefix ::
      EntryOf(Step(Step(s, a).0, b).0, Some(q)) == EntryOf(Step(Step(s, b).0, a).0, Some(q))
    ensures multiset(Step(Step(s, a).0, b).0.bindings) == multiset(Step(Step(s, b).0, a).0.bindings)
  {
    StepsApart(s, a, b);
    StepsApart(s, b, a);
    StepLocal(s, b);
  }

  /** Calls about different prefixes do not affect one another: in either order both get the same
      answers and leave the same routes, and the same bindings but for their order. */
  lemma DifferentPrefixesCommute(s: State, a: Call, b: Call)
    requires About(a) != About(b)
    ensures Step(Step(s, a).0, b).1 == Step(s, b).1
    ensures Step(Step(s, a).0, b).0.routes == Step(Step(s, b).0, a).0.routes
    ensures multiset(Step(Step(s, a).0, b).0.bindings) == multiset(Step(Step(s, b).0, a).0.bindings)
  {
    EntriesCommute(s, a, b);
    StepLocal(s, b);
    StepsApart(s, a, b);
    SameEntries(Step(Step(s, a).0, b).0, Step(Step(s, b).0, a).0);
  }

  // ---------------------------------------------------------------------
  // Whole scripts
  // ---------------------------------------------------------------------

  /** Settings no call can take back and a redirect has no use for. */
  predicate SetForGood(s: Settings) {
    s.compress.Some? || s.rateLimit.Some? || !RedirectTakes(s.headers)
  }

  /** A redirect stays one, a bound prefix stays bound, and compression, rate limiting and header
      operations once set on a route are never unset. */
  predicate Sticks(d: Decl, d': Decl) {
    && (d.kind.Redirect? ==> d'.kind.Redirect?)
    && (d.kind == Proxied(true) ==> d'.kind == Proxied(true))
    && (SetForGood(d.settings) ==> SetForGood(d'.settings))
  }

  lemma StepSticks(s: State, c: Call, p: Prefix)
    requires p in s.routes
    ensures p in Step(s, c).0.routes && Sticks(s.routes[p], Step(s, c).0.routes[p])
  {
  }

  /** The call, once accepted, has claimed its prefix for pods. */
  predicate Binds(c: Call, p: Prefix) {
    (c.BindRoute? || c.BindService?) && About(c) == Some(p)
  }

  /** A setting a redirect has no use for and nothing can take back. */
  predicate SetsForGood(c: Call, p: Prefix) {
    c.Adjust? && c.prefix == p &&
    (c.change.SetCompress? || c.change.SetRateLimit? || (c.change.LayerHeaders? && !RedirectTakes(c.change.headers)))
  }

  /** The mark an accepted call leaves on its entry. */
  predicate Marked(c: Call, p: Prefix, d: Decl) {
    && (Binds(c, p) ==> d.kind == Proxied(true))
    && (c.DoRedirect? ==> d.kind.Redirect?)
    && (SetsForGood(c, p) ==> SetForGood(d.settings))
  }

  lemma StepMarks(s: State, c: Call, p: Prefix)
    requires Step(s, c).1 && About(c) == Some(p)
    ensures p in Step(s, c).0.routes && Marked(c, p, Step(s, c).0.routes[p])
  {
  }

  lemma AcceptedMarksNow(calls: seq<Call>, i: nat, p: Prefix)
    requires i < |calls| && Accepted(calls, i) && About(calls[i]) == Some(p)
    ensures var s := After(calls[..i + 1]); p in s.routes && Marked(calls[i], p, s.routes[p])
  {
    assert calls[..i + 1][..i] == calls[..i];
    StepMarks(After(calls[..i]), calls[i], p);
  }

  lemma MarkSticks(c: Call, p: Prefix, d: Decl, d': Decl)
    requires Marked(c, p, d) && Sticks(d, d')
    ensures Marked(c, p, d')
  {
  }

  lemma {:induction false} MarkStays(calls: seq<Call>, i: nat, p: Prefix, c: Call)
    requires i <= |calls|
    requires var s := After(calls[..i]); p in s.routes && Marked(c, p, s.routes[p])
    ensures var s := After(calls); p in s.routes && Marked(c, p, s.routes[p])
  {
    if i == |calls| {
      assert calls[..i] == calls;
    } else {
      var n := |calls| - 1;
      assert calls[..n][..i] == calls[..i];
      MarkStays(calls[..n], i, p, c);
      var s := After(calls[..n]);
      StepSticks(s, calls[n], p);
      MarkSticks(c, p, s.routes[p], Step(s, calls[n]).0.routes[p]);
    }
  }

  /** Redirected or proxied, never both: no script gets both a redirect and a pod binding, or both a
      redirect and a setting it has no use for, balance aside, accepted on one prefix, in either order. */
  lemma NeverBoth(calls: seq<Call>, i: nat, j: nat, p: Prefix)
    requires i < |calls| && j < |calls|
    requires Accepted(calls, i) && calls[i].DoRedirect? && calls[i].prefix == p
    requires Binds(calls[j], p) || SetsForGood(calls[j], p)
    ensures !Accepted(calls, j)
  {
    AlwaysConsistent(calls);
    AcceptedMarksNow(calls, i, p);
    MarkStays(calls, i + 1, p, calls[i]);
    if Accepted(calls, j) {
      AcceptedMarksNow(calls, j, p);
      MarkStays(calls, j + 1, p, calls[j]);
    }
  }

  // ---------------------------------------------------------------------
  // When a redirect is accepted
  // ---------------------------------------------------------------------

  predicate SetsBalance(c: Call, p: Prefix) {
    c.Adjust? && c.prefix == p && c.change.SetBalance?
  }

  /** The balance last set on a prefix: unlike the other settings, a later call can set it back. */
  function BalanceBy(calls: seq<Call>, p: Prefix): Balance {
    if calls == [] then DEFAULT_BALANCE
    else
      var n := |calls| - 1;
      if BalanceAccepted(calls, n, p) then calls[n].change.balance else BalanceBy(calls[..n], p)
  }

  predicate AcceptedAs(calls: seq<Call>, j: nat, f: Call -> bool)
    requires j < |calls|
  {
    f(calls[j]) && Accepted(calls, j)
  }

  predicate SomeAccepted(calls: seq<Call>, f: Call -> bool) {
    exists j :: 0 <= j < |calls| && AcceptedAs(calls, j, f)
  }

  lemma AcceptedInPrefix(calls: seq<Call>, n: nat, j: nat)
    requires j < n <= |calls|
    ensures Accepted(calls[..n], j) == Accepted(calls, j)
  {
    assert calls[..n][..j] == calls[..j];
  }

  lemma SomeAcceptedSnoc(calls: seq<Call>, f: Call -> bool)
    requires calls != []
    ensures var n := |calls| - 1;
            SomeAccepted(calls, f) <==> SomeAccepted(calls[..n], f) || AcceptedAs(calls, n, f)
  {
    var n := |calls| - 1;
    forall j | 0 <= j < n ensures AcceptedAs(calls[..n], j, f) == AcceptedAs(calls, j, f) {
      AcceptedInPrefix(calls, n, j);
    }
  }

  // What one call does to the three things a redirect asks about

  lemma StepBinds(s: State, c: Call, p: Prefix)
    requires Consistent(s)
    ensures var d, d' := Declared(s.routes, p), Declared(Step(s, c).0.routes, p);
            d'.kind == Proxied(true) <==> d.kind == Proxied(true) || (Binds(c, p) && Step(s, c).1)
  {
  }

  lemma StepSetsForGood(s: State, c: Call, p: Prefix)
    ensures var d, d' := Declared(s.routes, p), Declared(Step(s, c).0.routes, p);
            SetForGood(d'.settings) <==> SetForGood(d.settings) || (SetsForGood(c, p) && Step(s, c).1)
  {
  }

  lemma StepSetsBalance(s: State, c: Call, p: Prefix)
    ensures var d, d' := Declared(s.routes, p), Declared(Step(s, c).0.routes, p);
            d'.settings.balance == if SetsBalance(c, p) && Step(s, c).1 then c.change.balance else d.settings.balance
  {
  }

  /** The entry of a prefix, in terms of the calls accepted on it. */
  ghost predicate Tracks(calls: seq<Call>, p: Prefix) {
    var d := Declared(After(calls).routes, p);
    && (d.kind == Proxied(true) <==> SomeAccepted(calls, c => Binds(c, p)))
    && (SetForGood(d.settings) <==> SomeAccepted(calls, c => SetsForGood(c, p)))
    && d.settings.balance == BalanceBy(calls, p)
  }

  lemma {:induction false} AlwaysTracks(calls: seq<Call>, p: Prefix)
    ensures Tracks(calls, p)
  {
    if calls != [] {
      var n := |calls| - 1;
      AlwaysTracks(calls[..n], p);
      AlwaysConsistent(calls[..n]);
      StepBinds(After(calls[..n]), calls[n], p);
      StepSetsForGood(After(calls[..n]), calls[n], p);
      StepSetsBalance(After(calls[..n]), calls[n], p);
      SomeAcceptedSnoc(calls, c => Binds(c, p));
      SomeAcceptedSnoc(calls, c => SetsForGood(c, p));
    }
  }

  /** A redirect is accepted exactly when it is not on the root or a frozen service, no pod binding and
      no lasting setting was accepted on its prefix before, and the balance last accepted there is
      the default. */
  lemma RedirectAcceptedExactly(calls: seq<Call>, i: nat)
    requires i < |calls| && calls[i].DoRedirect?
    ensures var p := calls[i].prefix;
            Accepted(calls, i) <==>
            && p != "/" && !calls[i].frozen
            && !SomeAccepted(calls[..i], c => Binds(c, p)) && !SomeAccepted(calls[..i], c => SetsForGood(c, p))
            && BalanceBy(calls[..i], p) == DEFAULT_BALANCE
  {
    AlwaysTracks(calls[..i], calls[i].prefix);
  }

  predicate BalanceAccepted(calls: seq<Call>, j: nat, p: Prefix)
    requires j < |calls|
  {
    SetsBalance(calls[j], p) && Accepted(calls, j)
  }

  lemma BalanceInPrefix(calls: seq<Call>, n: nat, j: nat, p: Prefix)
    requires j < n <= |calls|
    ensures BalanceAccepted(calls[..n], j, p) == BalanceAccepted(calls, j, p)
  {
    AcceptedInPrefix(calls, n, j);
  }

  /** Some accepted call at or after `j` set the balance to what it is. */
  lemma {:induction false} LastBalance(calls: seq<Call>, j: nat, p: Prefix) returns (k: nat)
    requires j < |calls| && BalanceAccepted(calls, j, p)
    ensures j <= k < |calls| && BalanceAccepted(calls, k, p) && calls[k].change.balance == BalanceBy(calls, p)
  {
    var n := |calls| - 1;
    if BalanceAccepted(calls, n, p) {
      k := n;
    } else {
      BalanceInPrefix(calls, n, j, p);
      k := LastBalance(calls[..n], j, p);
      BalanceInPrefix(calls, n, k, p);
    }
  }

  lemma BalanceRefusedOnRedirect(s: State, c: Call, p: Prefix)
    requires p in s.routes && s.routes[p].kind.Redirect? && SetsBalance(c, p)
    ensures !Step(s, c).1
  {
  }

  lemma NoBalanceAfterRedirect(calls: seq<Call>, i: nat, j: nat, p: Prefix)
    requires i < j < |calls| && Accepted(calls, i) && calls[i].DoRedirect? && calls[i].prefix == p
    ensures !BalanceAccepted(calls, j, p)
  {
    AcceptedInPrefix(calls, j, i);
    AcceptedMarksNow(calls[..j], i, p);
    MarkStays(calls[..j], i + 1, p, calls[i]);
    if SetsBalance(calls[j], p) { BalanceRefusedOnRedirect(After(calls[..j]), calls[j], p); }
  }

  /** A balance other than the default and a redirect are both accepted on a prefix only if, between
      them, an accepted call set the balance back to the default. */
  lemma BalanceTakenBack(calls: seq<Call>, i: nat, j: nat, p: Prefix) returns (k: nat)
    requires i < |calls| && Accepted(calls, i) && calls[i].DoRedirect? && calls[i].prefix == p
    requires j < |calls| && BalanceAccepted(calls, j, p) && calls[j].change.balance != DEFAULT_BALANCE
    ensures j < k < i && BalanceAccepted(calls, k, p) && calls[k].change.balance == DEFAULT_BALANCE
  {
    RedirectAcceptedExactly(calls, i);
    assert j < i by {
      if i < j { NoBalanceAfterRedirect(calls, i, j, p); }
    }
    BalanceInPrefix(calls, i, j, p);
    k := LastBalance(calls[..i], j, p);
    BalanceInPrefix(calls, i, k, p);
  }

  /** And then they are: any balance, the default, and a redirect are accepted in a row. */
  lemma BalanceThenRedirect(p: Prefix, b: Balance, to: string)
    requires p != "/"
    ensures var calls := [Adjust(p, SetBalance(b), false), Adjust(p, SetBalance(DEFAULT_BALANCE), false),
                          DoRedirect(p, to, false)];
            Accepted(calls, 0) && Accepted(calls, 1) && Accepted(calls, 2)
  {
    var calls := [Adjust(p, SetBalance(b), false), Adjust(p, SetBalance(DEFAULT_BALANCE), false),
                  DoRedirect(p, to, false)];
    assert calls[..0] == [] && calls[..1][..0] == [] && calls[..2][..1] == calls[..1];
    assert After(calls[..1]) == Step(Empty, calls[0]).0;
    assert After(calls[..2]) == Step(After(calls[..1]), calls[1]).0;
  }
}
