/** The WebTransport certificate store of seedling-web and its rotation task.

    Browsers enforce a certificate's validity period even when its hash was
    advertised, so the store pre-generates a successor, advertises both hashes,
    and swaps ahead of expiry. Whether that is enough depends on how the four
    windows below fit together, for every way the rotation task can be scheduled.
    Time is in whole seconds on one clock. */
module CertRotation {
  import opened Common

  const HOUR := 3600
  const DAY := 86400
  const CERT_VALIDITY := 7 * DAY
  const ROTATION_LOOKAHEAD := 6 * DAY
  const ROTATION_TICK := HOUR
  const SWAP_LOOKAHEAD := 2 * HOUR
  const UNIX_EPOCH := 0
  /** The earliest instant a SystemTime can hold. */
  const MIN_TIME := -0x8000_0000_0000_0000

  /** How long a successor is advertised before it is promoted, at the least. */
  const ADVERTISED := 20 * HOUR

  type Hash = string

  /** A generated identity, reduced to its hash and the end of its validity. */
  datatype Cert = Cert(hash: Hash, notAfter: int)

  datatype Store = Store(current: Cert, next: Option<Cert>)

  function Generate(now: int, hash: Hash): Cert {
    Cert(hash, now + CERT_VALIDITY)
  }

  function CheckedSub(t: int, d: int): Option<int> {
    if t - d >= MIN_TIME then Some(t - d) else None
  }

  function OrEpoch(t: Option<int>): int {
    match t
    case Some(v) => v
    case None => UNIX_EPOCH
  }

  /** The advertised hashes, current first. */
  function Hashes(s: Store): seq<Hash> {
    match s.next
    case Some(n) => [s.current.hash, n.hash]
    case None => [s.current.hash]
  }

  /** One rotation call at `now`; `hash` is what a certificate generated by it hashes to. */
  function Rotated(s: Store, now: int, hash: Hash): (Store, bool) {
    if now >= OrEpoch(CheckedSub(s.current.notAfter, SWAP_LOOKAHEAD)) then
      var promoted := match s.next case Some(n) => n case None => Generate(now, hash);
      (Store(promoted, None), true)
    else if s.next.None? && now >= OrEpoch(CheckedSub(s.current.notAfter, ROTATION_LOOKAHEAD)) then
      (s.(next := Some(Generate(now, hash))), false)
    else
      (s, false)
  }

  /** The store as the source keeps it: two fields updated in place. */
  class CertStore {
    var current: Cert
    var next: Option<Cert>

    function View(): Store
      reads this
    {
      Store(current, next)
    }

    constructor (now: int, hash: Hash)
      ensures View() == Store(Generate(now, hash), None)
    {
      current := Generate(now, hash);
      next := None;
    }

    method CertHashes() returns (hashes: seq<Hash>)
      ensures hashes == Hashes(View())
      ensures |hashes| > 0 && hashes[0] == current.hash
    {
      hashes := [current.hash];
      if next.Some? {
        hashes := hashes + [next.value.hash];
      }
    }

    method RotateIfNeeded(now: int, hash: Hash) returns (swapped: bool)
      modifies this
      ensures (View(), swapped) == Rotated(old(View()), now, hash)
    {
      var swapAt := OrEpoch(CheckedSub(current.notAfter, SWAP_LOOKAHEAD));
      if now >= swapAt {
        if next.Some? {
          current := next.value;
        } else {
          current := Generate(now, hash);
        }
        next := None;
        return true;
      }
      var threshold := OrEpoch(CheckedSub(current.notAfter, ROTATION_LOOKAHEAD));
      if next.None? && now >= threshold {
        next := Some(Generate(now, hash));
      }
      return false;
    }
  }

  // ---------------------------------------------------------------------
  // Runs
  // ---------------------------------------------------------------------

  datatype Tick = Tick(now: int, hash: Hash)

  /** A web process: when its store was made, and every rotation call since. */
  datatype Run = Run(start: int, hash: Hash, ticks: seq<Tick>) {
    /** The instant of the last thing that happened to the store. */
    function Last(): int {
      if ticks == [] then start else ticks[|ticks| - 1].now
    }

    function Prefix(): Run
      requires ticks != []
    {
      this.(ticks := ticks[..|ticks| - 1])
    }

    function LastTick(): Tick
      requires ticks != []
    {
      ticks[|ticks| - 1]
    }
  }

  /** Rotation calls never go back in time and are at most `gap` apart. */
  predicate Paced(r: Run, gap: int)
    decreases |r.ticks|
  {
    if r.ticks == [] then MIN_TIME <= r.start
    else Paced(r.Prefix(), gap) && r.Prefix().Last() <= r.Last() <= r.Prefix().Last() + gap
  }

  function After(r: Run): Store
    decreases |r.ticks|
  {
    if r.ticks == [] then Store(Generate(r.start, r.hash), None)
    else Rotated(After(r.Prefix()), r.LastTick().now, r.LastTick().hash).0
  }

  /** The store as anyone finds it at instant `t`: after the last call not later than `t`. */
  function At(r: Run, t: int): Store
    decreases |r.ticks|
  {
    if r.ticks == [] || r.Last() <= t then After(r) else At(r.Prefix(), t)
  }

  /** What every call keeps when calls come in time. `last` is the instant of the latest call. */
  predicate Healthy(s: Store, last: int) {
    && MIN_TIME + CERT_VALIDITY <= s.current.notAfter
    && last + SWAP_LOOKAHEAD < s.current.notAfter
    && (s.next.None? ==> last + DAY < s.current.notAfter)
    && (s.next.Some? ==>
          && s.current.notAfter + DAY <= s.next.value.notAfter <= last + CERT_VALIDITY
          && s.next.value.notAfter - CERT_VALIDITY + ADVERTISED + SWAP_LOOKAHEAD < s.current.notAfter)
  }

  /** In a healthy store a timely call stays healthy, and a swap promotes a certificate
      that was waiting, with more than a day left on it. */
  lemma RotatedHealthy(s: Store, last: int, now: int, hash: Hash)
    requires Healthy(s, last)
    requires last <= now <= last + SWAP_LOOKAHEAD
    ensures Healthy(Rotated(s, now, hash).0, now)
    ensures now < s.current.notAfter
    ensures Rotated(s, now, hash).1 ==>
              && s.next.Some?
              && Rotated(s, now, hash).0 == Store(s.next.value, None)
              && now + DAY < s.next.value.notAfter
    ensures !Rotated(s, now, hash).1 ==> Rotated(s, now, hash).0.current == s.current
  {
  }

  lemma {:induction false} AfterHealthy(r: Run)
    requires Paced(r, SWAP_LOOKAHEAD)
    ensures Healthy(After(r), r.Last())
    decreases |r.ticks|
  {
    if r.ticks != [] {
      AfterHealthy(r.Prefix());
      RotatedHealthy(After(r.Prefix()), r.Prefix().Last(), r.LastTick().now, r.LastTick().hash);
    }
  }

  // ---------------------------------------------------------------------
  // The current certificate is never expired
  // ---------------------------------------------------------------------

  /** At every instant until the next call falls due, between calls as well as at them. */
  lemma {:induction false} NeverExpired(r: Run, t: int)
    requires Paced(r, SWAP_LOOKAHEAD)
    requires r.start <= t <= r.Last() + SWAP_LOOKAHEAD
    ensures t < At(r, t).current.notAfter
    decreases |r.ticks|
  {
    AfterHealthy(r);
    if r.ticks != [] && t < r.Last() {
      NeverExpired(r.Prefix(), t);
    }
  }

  /** Nobody ever meets an expired certificate when calls are at most `gap` apart. */
  ghost predicate SafeGap(gap: int) {
    forall r, t :: Paced(r, gap) && r.start <= t <= r.Last() + gap ==> t < At(r, t).current.notAfter
  }

  /** Calls at 7199 s, 14399 s, ...: the last of them is one second short of the swap window. */
  function SlowTicks(n: nat): seq<Tick> {
    seq(n, k => Tick(SWAP_LOOKAHEAD * (k + 1) - 1, "successor"))
  }

  lemma {:induction false} SlowRunNeverSwaps(n: nat, gap: int)
    requires n <= 83 && SWAP_LOOKAHEAD < gap
    ensures var r := Run(0, "first", SlowTicks(n)); Paced(r, gap) && After(r).current == Generate(0, "first")
  {
    var r := Run(0, "first", SlowTicks(n));
    if n > 0 {
      assert r.Prefix().ticks == SlowTicks(n - 1);
      SlowRunNeverSwaps(n - 1, gap);
    }
  }

  /** Any longer interval has a run in which a client meets an expired certificate. */
  lemma LongerGapExpires(gap: int) returns (r: Run, t: int)
    requires SWAP_LOOKAHEAD < gap
    ensures Paced(r, gap) && r.start <= t <= r.Last() + gap
    ensures At(r, t).current.notAfter <= t
  {
    var n: nat := 83;
    SlowRunNeverSwaps(n, gap);
    r := Run(0, "first", SlowTicks(n));
    t := r.Last() + gap;
  }

  /** The two-hour swap window is exact: it is the longest interval between calls that is safe. */
  lemma SafeGapExactly(gap: int)
    requires 0 <= gap
    ensures SafeGap(gap) <==> gap <= SWAP_LOOKAHEAD
  {
    if gap <= SWAP_LOOKAHEAD {
      forall r, t | Paced(r, gap) && r.start <= t <= r.Last() + gap
        ensures t < At(r, t).current.notAfter
      {
        PacedWider(r, gap, SWAP_LOOKAHEAD);
        NeverExpired(r, t);
      }
    } else {
      var r, t := LongerGapExpires(gap);
    }
  }

  /** The hourly tick is safe, with an hour to spare. */
  lemma TickIsSafe()
    ensures SafeGap(ROTATION_TICK) && SafeGap(2 * ROTATION_TICK) && !SafeGap(2 * ROTATION_TICK + 1)
  {
    SafeGapExactly(ROTATION_TICK);
    SafeGapExactly(2 * ROTATION_TICK);
    SafeGapExactly(2 * ROTATION_TICK + 1);
  }

  lemma {:induction false} PacedWider(r: Run, gap: int, wider: int)
    requires Paced(r, gap) && gap <= wider
    ensures Paced(r, wider)
    decreases |r.ticks|
  {
    if r.ticks != [] {
      PacedWider(r.Prefix(), gap, wider);
    }
  }

  // ---------------------------------------------------------------------
  // A promoted certificate was advertised long before
  // ---------------------------------------------------------------------

  /** Once generated, a successor is the advertised successor until it is promoted. */
  lemma {:induction false} SuccessorWaits(r: Run, t: int)
    requires Paced(r, SWAP_LOOKAHEAD)
    requires After(r).next.Some?
    requires After(r).next.value.notAfter - CERT_VALIDITY <= t
    ensures At(r, t) == After(r)
    decreases |r.ticks|
  {
    if r.ticks != [] && t < r.Last() {
      var p := r.Prefix();
      AfterHealthy(p);
      RotatedHealthy(After(p), p.Last(), r.LastTick().now, r.LastTick().hash);
      SuccessorWaits(p, t);
    }
  }

  /** The call that ends run `r` swapped. */
  predicate Swaps(r: Run) {
    r.ticks != [] && Rotated(After(r.Prefix()), r.LastTick().now, r.LastTick().hash).1
  }

  /** Every swap of every timely run promotes the pre-generated successor, which has more than a
      day of validity left and whose hash was advertised at every instant of the last 20 hours. */
  lemma SwapPromotesAdvertised(r: Run)
    requires Paced(r, SWAP_LOOKAHEAD)
    requires Swaps(r)
    ensures After(r.Prefix()).next == Some(After(r).current)
    ensures r.Last() + DAY < After(r).current.notAfter
    ensures forall t :: r.Last() - ADVERTISED <= t < r.Last() ==> After(r).current.hash in Hashes(At(r, t))
  {
    var p := r.Prefix();
    AfterHealthy(p);
    RotatedHealthy(After(p), p.Last(), r.LastTick().now, r.LastTick().hash);
    forall t | r.Last() - ADVERTISED <= t < r.Last()
      ensures After(r).current.hash in Hashes(At(r, t))
    {
      SuccessorWaits(p, t);
    }
  }

  /** A hash list fetched at `t0` names the certificate presented at any instant of the
      following 20 hours, whatever the rotation task did in between. */
  lemma {:induction false} FetchedHashesStayGood(r: Run, t0: int, t1: int)
    requires Paced(r, SWAP_LOOKAHEAD)
    requires t0 <= t1 <= t0 + ADVERTISED
    ensures At(r, t1).current.hash in Hashes(At(r, t0))
    decreases |r.ticks|
  {
    if r.ticks == [] || r.Last() <= t0 {
    } else if t1 < r.Last() {
      FetchedHashesStayGood(r.Prefix(), t0, t1);
    } else if Swaps(r) {
      SwapPromotesAdvertised(r);
    } else {
      var p := r.Prefix();
      FetchedHashesStayGood(p, t0, r.Last());
      assert At(p, r.Last()) == After(p);
    }
  }
}
