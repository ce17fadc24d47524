/** The replay window for signed gateway reports (control/gateway.go): a report is accepted when its
    timestamp is within two minutes of the clock and its nonce is not cached for the gateway.  Times
    are in nanoseconds, report timestamps in milliseconds. */
module GatewayReplay {
  import opened Text
  import Bytes

  const MILLI: int := 1_000_000
  const WINDOW: int := 120 * 1_000_000_000
  const WINDOW_MS: int := 120_000

  type Nonce = seq<Bytes.byte>
  type Nonces = map<Nonce, int>
  type NonceCache = map<string, Nonces>

  datatype Refusal = Stale | Replayed

  predicate Timely(reportMs: int, now: int) {
    now - reportMs * MILLI <= WINDOW && reportMs * MILLI - now <= WINDOW
  }

  /** The instant after which a report is stale. */
  function LastInstant(reportMs: int): int {
    (reportMs + WINDOW_MS) * MILLI
  }

  function ExpireMs(reportMs: int, now: int): int {
    var e := (reportMs * MILLI + WINDOW) / MILLI;
    if e < now / MILLI then (now + WINDOW) / MILLI else e
  }

  /** The correction for an expiry already past is never made: a timely report's expiry is not past. */
  lemma ExpiryIsWindowEnd(reportMs: int, now: int)
    requires Timely(reportMs, now)
    ensures ExpireMs(reportMs, now) == reportMs + WINDOW_MS >= now / MILLI
  {
    assert (reportMs * MILLI + WINDOW) / MILLI == reportMs + WINDOW_MS;
  }

  function Kept(ns: Nonces, now: int): Nonces {
    map n | n in ns && ns[n] > now / MILLI :: ns[n]
  }

  function NoncesOf(c: NonceCache, gateway: string): Nonces {
    if gateway in c then c[gateway] else map[]
  }

  datatype Submission = Submission(gateway: string, reportMs: int, nonce: Nonce)

  /** One validation: the verdict and the cache afterwards. */
  function Validate(c: NonceCache, r: Submission, now: int): (Option<Refusal>, NonceCache) {
    if !Timely(r.reportMs, now) then (Some(Stale), c)
    else
      var ns := Kept(NoncesOf(c, r.gateway), now);
      if r.nonce in ns then (Some(Replayed), c[r.gateway := ns])
      else (None, c[r.gateway := ns[r.nonce := ExpireMs(r.reportMs, now)]])
  }

  predicate Accepted(c: NonceCache, r: Submission, now: int) {
    Validate(c, r, now).0 == None
  }

  datatype Timed = Timed(r: Submission, now: int)

  ghost predicate Ordered(steps: seq<Timed>, from: int) {
    (forall i :: 0 <= i < |steps| ==> from <= steps[i].now) &&
      (forall i, j :: 0 <= i < j < |steps| ==> steps[i].now <= steps[j].now)
  }

  ghost function CacheAt(c: NonceCache, steps: seq<Timed>, i: nat): NonceCache
    requires i <= |steps|
  {
    if i == 0 then c else Validate(CacheAt(c, steps, i - 1), steps[i - 1].r, steps[i - 1].now).1
  }

  /** The nonce of an accepted report is cached to the end of its window. */
  ghost predicate Guarded(c: NonceCache, r: Submission) {
    r.gateway in c && r.nonce in c[r.gateway] && c[r.gateway][r.nonce] == r.reportMs + WINDOW_MS
  }

  lemma AcceptGuards(c: NonceCache, r: Submission, now: int)
    requires Accepted(c, r, now)
    ensures Guarded(Validate(c, r, now).1, r)
  {
    ExpiryIsWindowEnd(r.reportMs, now);
  }

  /** Before the window closes no other report, accepted or refused, disturbs the guard. */
  lemma StepKeepsGuard(c: NonceCache, r: Submission, x: Submission, now: int)
    requires Guarded(c, r) && now < LastInstant(r.reportMs)
    ensures Guarded(Validate(c, x, now).1, r)
  {
    assert now / MILLI < r.reportMs + WINDOW_MS;
  }

  lemma {:induction false} RunKeepsGuard(c: NonceCache, r: Submission, steps: seq<Timed>, i: nat, from: int)
    requires Guarded(c, r) && i <= |steps| && Ordered(steps, from)
    requires forall j :: 0 <= j < i ==> steps[j].now < LastInstant(r.reportMs)
    ensures Guarded(CacheAt(c, steps, i), r)
  {
    if i > 0 {
      RunKeepsGuard(c, r, steps, i - 1, from);
      StepKeepsGuard(CacheAt(c, steps, i - 1), r, steps[i - 1].r, steps[i - 1].now);
    }
  }

  /** A report accepted once is refused ever after, however other reports interleave: as a replay
      before its window closes, as stale afterwards.  The closing instant itself is the only time at
      which the two tests leave a gap. */
  lemma AcceptedOnce(c: NonceCache, r: Submission, first: int, steps: seq<Timed>, i: nat)
    requires Accepted(c, r, first) && Ordered(steps, first) && i < |steps| && steps[i].r == r
    ensures var before := CacheAt(Validate(c, r, first).1, steps, i);
      && (steps[i].now < LastInstant(r.reportMs) ==> Validate(before, r, steps[i].now).0 == Some(Replayed))
      && (steps[i].now > LastInstant(r.reportMs) ==> Validate(before, r, steps[i].now).0 == Some(Stale))
  {
    var c1 := Validate(c, r, first).1;
    if steps[i].now < LastInstant(r.reportMs) {
      AcceptGuards(c, r, first);
      RunKeepsGuard(c1, r, steps, i, first);
      TimelyThroughout(r.reportMs, first, steps[i].now);
    }
  }

  lemma TimelyThroughout(reportMs: int, first: int, now: int)
    requires Timely(reportMs, first) && first <= now < LastInstant(reportMs)
    ensures Timely(reportMs, now) && now / MILLI < reportMs + WINDOW_MS
  {
  }

  /** At the closing instant the report is accepted exactly when no later-dated report of the gateway holds
      its nonce: its own entry, which ends at that instant, is dropped before the nonce is looked up. */
  lemma ClosingInstant(c: NonceCache, r: Submission)
    ensures var now := LastInstant(r.reportMs);
      Accepted(c, r, now) <==>
        !(r.nonce in NoncesOf(c, r.gateway) && NoncesOf(c, r.gateway)[r.nonce] > r.reportMs + WINDOW_MS)
  {
    assert LastInstant(r.reportMs) / MILLI == r.reportMs + WINDOW_MS;
  }

  /** So, once accepted at the closing instant, it is accepted there any number of times. */
  lemma {:induction false} AcceptedWithoutEnd(c: NonceCache, r: Submission, steps: seq<Timed>, i: nat)
    requires Accepted(c, r, LastInstant(r.reportMs)) && i <= |steps|
    requires forall j :: 0 <= j < i ==> steps[j] == Timed(r, LastInstant(r.reportMs))
    ensures Accepted(CacheAt(c, steps, i), r, LastInstant(r.reportMs))
  {
    if i > 0 {
      var before := CacheAt(c, steps, i - 1);
      AcceptedWithoutEnd(c, r, steps, i - 1);
      AcceptGuards(before, r, LastInstant(r.reportMs));
      ClosingInstant(CacheAt(c, steps, i), r);
    }
  }

  /** The gap is real: the same report, twice. */
  lemma ReplayedAtClosing(r: Submission, first: int)
    requires Timely(r.reportMs, first)
    ensures Accepted(map[], r, first)
    ensures Accepted(Validate(map[], r, first).1, r, LastInstant(r.reportMs))
  {
    AcceptGuards(map[], r, first);
    ClosingInstant(Validate(map[], r, first).1, r);
  }

  // ------------------------------------------------------------- over every run

  ghost predicate AcceptedAt(steps: seq<Timed>, j: nat) {
    j < |steps| && Accepted(CacheAt(map[], steps, j), steps[j].r, steps[j].now)
  }

  ghost predicate SameNonce(a: Submission, b: Submission) {
    a.gateway == b.gateway && a.nonce == b.nonce
  }

  lemma {:induction false} StaysGuarded(steps: seq<Timed>, j: nat, i: nat, from: int)
    requires j < i <= |steps| && Ordered(steps, from) && AcceptedAt(steps, j)
    requires forall k :: j < k < i ==> steps[k].now < LastInstant(steps[j].r.reportMs)
    ensures Guarded(CacheAt(map[], steps, i), steps[j].r)
    decreases i
  {
    var before := CacheAt(map[], steps, i - 1);
    if j == i - 1 {
      AcceptGuards(before, steps[j].r, steps[j].now);
    } else {
      StaysGuarded(steps, j, i - 1, from);
      StepKeepsGuard(before, steps[j].r, steps[i - 1].r, steps[i - 1].now);
    }
  }

  lemma {:induction false} EntryHasReport(steps: seq<Timed>, i: nat, g: string, n: Nonce) returns (j: nat)
    requires i <= |steps| && n in NoncesOf(CacheAt(map[], steps, i), g)
    ensures j < i && AcceptedAt(steps, j) && steps[j].r.gateway == g && steps[j].r.nonce == n
    ensures NoncesOf(CacheAt(map[], steps, i), g)[n] == steps[j].r.reportMs + WINDOW_MS
  {
    var before, last := CacheAt(map[], steps, i - 1), steps[i - 1];
    if AcceptedAt(steps, i - 1) && last.r.gateway == g && last.r.nonce == n {
      AcceptGuards(before, last.r, last.now);
      j := i - 1;
    } else {
      j := EntryHasReport(steps, i - 1, g, n);
    }
  }

  /** A report accepted earlier holds the nonce, and its window is still open. */
  ghost predicate Held(steps: seq<Timed>, j: nat, i: nat)
    requires i < |steps|
  {
    j < i && AcceptedAt(steps, j) && SameNonce(steps[j].r, steps[i].r) &&
      steps[i].now < LastInstant(steps[j].r.reportMs)
  }

  lemma HeldIsKept(steps: seq<Timed>, i: nat, from: int)
    requires i < |steps| && Ordered(steps, from)
    ensures (exists j :: Held(steps, j, i)) <==>
      steps[i].r.nonce in Kept(NoncesOf(CacheAt(map[], steps, i), steps[i].r.gateway), steps[i].now)
  {
    var r, now := steps[i].r, steps[i].now;
    var ns := NoncesOf(CacheAt(map[], steps, i), r.gateway);
    if j: nat :| Held(steps, j, i) {
      StaysGuarded(steps, j, i, from);
    }
    if r.nonce in Kept(ns, now) {
      var j := EntryHasReport(steps, i, r.gateway, r.nonce);
      assert Held(steps, j, i);
    }
  }

  /** The verdict on each report of a run: stale when it is dated more than two minutes before or after the clock, a
      replay when a report accepted earlier under its nonce is still inside its own window, accepted otherwise. */
  lemma VerdictExactly(steps: seq<Timed>, i: nat, from: int)
    requires i < |steps| && Ordered(steps, from)
    ensures var r, now := steps[i].r, steps[i].now;
      Validate(CacheAt(map[], steps, i), r, now).0 ==
        if now < (r.reportMs - 120_000) * 1_000_000 || now > (r.reportMs + 120_000) * 1_000_000 then Some(Stale)
        else if exists j :: Held(steps, j, i) then Some(Replayed) else None
  {
    HeldIsKept(steps, i, from);
  }

  /** The cache, kept per gateway and cleaned of expired nonces on each use. */
  class ReplayWindow {
    var nonces: NonceCache

    constructor ()
      ensures nonces == map[]
    {
      nonces := map[];
    }

    method ValidateGatewayReplayWindow(gatewayId: string, reportMs: int, nonce: Nonce, now: int)
      returns (err: Option<Refusal>)
      modifies this
      ensures (err, nonces) == Validate(old(nonces), Submission(gatewayId, reportMs, nonce), now)
    {
      var reportTime := reportMs * MILLI;
      if now - reportTime > WINDOW || reportTime - now > WINDOW {
        return Some(Stale);
      }
      var expireAt, fallback := (reportTime + WINDOW) / MILLI, (now + WINDOW) / MILLI;
      if expireAt < now / MILLI {
        expireAt := fallback;
      }
      if gatewayId !in nonces {
        nonces := nonces[gatewayId := map[]];
      }
      var cache := DropExpired(nonces[gatewayId], now / MILLI);
      assert cache == Kept(NoncesOf(old(nonces), gatewayId), now);
      if nonce in cache {
        nonces := nonces[gatewayId := cache];
        return Some(Replayed);
      }
      nonces := nonces[gatewayId := cache[nonce := expireAt]];
      assert expireAt == ExpireMs(reportMs, now);
      assert nonces == old(nonces)[gatewayId := cache[nonce := expireAt]];
      return None;
    }

    static method DropExpired(cache: Nonces, nowMs: int) returns (kept: Nonces)
      ensures kept == map n | n in cache && cache[n] > nowMs :: cache[n]
    {
      kept := cache;
      var todo := cache.Keys;
      while todo != {}
        invariant todo <= cache.Keys
        invariant kept == map n | n in cache && (n in todo || cache[n] > nowMs) :: cache[n]
        decreases todo
      {
        var key :| key in todo;
        if kept[key] <= nowMs {
          kept := kept - {key};
        }
        todo := todo - {key};
      }
    }
  }
}
