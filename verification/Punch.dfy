/** The punch coordinator (control/punch.go): when two clients are told to try a direct connection.
    Sessions, a cooldown and a retry record per unordered pair of addresses, and a claim that merges
    simultaneous manual requests, all kept in expiring maps.

    A handler is a sequence of the steps below at one reading of the clock, in nanoseconds; the order
    in which a handler walks a table is the order of its steps.  Pairs are pairs of addresses: the
    source does not tell networks apart here. */
module Punch {
  import opened Text
  import opened TimedMap

  const MILLI: int := 1_000_000
  const SECOND: int := 1_000_000_000
  const COOLDOWN: int := 20 * SECOND
  const MANUAL_WINDOW: int := 3 * SECOND
  const RETRY_TTL: int := 30 * 60 * SECOND
  const SESSION_TTL: int := 10 * 60 * SECOND
  const SESSION_LENGTH: int := 5 * SECOND
  const MAX_ATTEMPTS: nat := 3
  const TWO32: nat := 0x1_0000_0000
  const TWO64: nat := 0x1_0000_0000_0000_0000

  type uint64 = x: nat | x < TWO64

  datatype Pair = Pair(low: uint32, high: uint32)

  function PairOf(a: uint32, b: uint32): Pair {
    if a < b then Pair(a, b) else Pair(b, a)
  }

  function PairKey(a: uint32, b: uint32): string {
    if a < b then Dec(a) + "-" + Dec(b) else Dec(b) + "-" + Dec(a)
  }

  /** The text key is one per unordered pair. */
  lemma PairKeyExact(a: uint32, b: uint32, c: uint32, d: uint32)
    ensures PairKey(a, b) == PairKey(c, d) <==> PairOf(a, b) == PairOf(c, d)
    ensures PairOf(a, b) == PairOf(c, d) <==> (a == c && b == d) || (a == d && b == c)
  {
    var p, q := PairOf(a, b), PairOf(c, d);
    assert PairKey(a, b) == Dec(p.low) + ['-'] + Dec(p.high);
    assert PairKey(c, d) == Dec(q.low) + ['-'] + Dec(q.high);
    if PairKey(a, b) == PairKey(c, d) {
      SplitUnique(Dec(p.low), Dec(p.high), Dec(q.low), Dec(q.high), '-');
      DecInjective(p.low, q.low);
      DecInjective(p.high, q.high);
    }
  }

  datatype Phase = Scheduled | Sending | Waiting | Success | Failed | Timeout

  datatype Code = SuccessCode | TimeoutCode | OtherCode

  datatype Session = Session(source: uint32, target: uint32, budget: uint32, deadlineMs: int, state: Phase,
                             relayFallback: bool, ack: map<uint32, bool>, results: map<uint32, Code>)

  datatype Retry = Retry(attempt: uint32, nextAllowedMs: int)

  /** A session id and an attempt number. */
  datatype Key = Key(session: uint64, attempt: uint32)

  datatype State = State(sessions: Entries<Key, Session>, cooldown: Entries<Pair, ()>, dedup: Entries<Pair, ()>,
                         retry: Entries<Pair, Retry>)

  /** A punch started: both clients are told. */
  datatype Start = Start(pair: Pair, at: int, manual: bool, attempt: uint32)

  function Backoff(attempt: uint32): int {
    if attempt == 0 then 0
    else if attempt >= 5 then 30 * SECOND
    else if attempt == 4 then 16 * SECOND
    else if attempt == 3 then 8 * SECOND
    else if attempt == 2 then 4 * SECOND
    else 2 * SECOND
  }

  function Pow2(n: nat): nat { if n == 0 then 1 else 2 * Pow2(n - 1) }

  /** The waiting time doubles with each failure up to thirty seconds. */
  lemma BackoffDoubles(attempt: uint32)
    requires attempt > 0
    ensures Backoff(attempt) == (if attempt <= 4 then Pow2(attempt) * SECOND else 30 * SECOND)
    ensures 2 * SECOND <= Backoff(attempt) <= 30 * SECOND
  {
    assert Pow2(4) == 2 * Pow2(3) == 16;
  }

  // ------------------------------------------------------------- effects on a pair

  function Strike(s: State, p: Pair, now: int): State {
    var before := if p in At(s.retry, now) then s.retry[p].0.attempt else 0;
    var attempt := (before + 1) % TWO32;
    s.(retry := AfterGet(s.retry, p, now)[p := (Retry(attempt, (now + Backoff(attempt)) / MILLI), now + RETRY_TTL)])
  }

  function Clear(s: State, p: Pair): State {
    s.(retry := s.retry - {p})
  }

  function Free(s: State, p: Pair): State {
    s.(cooldown := s.cooldown - {p})
  }

  datatype Step = Step(state: State, starts: seq<Start>)

  /** The outcome of a session: the cooldown is lifted, and the retry record raised or dropped. */
  function Conclude(s: State, p: Pair, success: bool, now: int): State {
    if success then Clear(Free(s, p), p) else Strike(Free(s, p), p, now)
  }

  // ------------------------------------------------------------------- the steps

  function NewSession(src: uint32, tgt: uint32, now: int): Session {
    Session(src, tgt, MAX_ATTEMPTS, (now + SESSION_LENGTH) / MILLI, Scheduled, false, map[], map[])
  }

  function Launch(s: State, src: uint32, tgt: uint32, id: uint64, attempt: uint32, now: int): State {
    s.(sessions := s.sessions[Key(id, attempt) := (NewSession(src, tgt, now), now + SESSION_TTL)],
       cooldown := s.cooldown[PairOf(src, tgt) := ((), now + COOLDOWN)])
  }

  /** A status report considers one eligible peer; `ready`: both have endpoints to try. */
  function Try(s: State, src: uint32, tgt: uint32, ready: bool, id: uint64, now: int): Step {
    var p := PairOf(src, tgt);
    var s1 := s.(cooldown := AfterGet(s.cooldown, p, now));
    if p in At(s.cooldown, now) then Step(s1, [])
    else
      var s2 := s1.(retry := AfterGet(s.retry, p, now));
      if p in At(s.retry, now) && s.retry[p].0.attempt >= MAX_ATTEMPTS then Step(s2, [])
      else if p in At(s.retry, now) && now / MILLI < s.retry[p].0.nextAllowedMs then Step(s2, [])
      else if !ready then Step(s2, [])
      else
        var attempt := if p in At(s.retry, now) then s.retry[p].0.attempt + 1 else 1;
        Step(Launch(s2, src, tgt, id, attempt, now), [Start(p, now, false, attempt)])
  }

  /** A manual request considers one eligible peer. */
  function TryManual(s: State, src: uint32, tgt: uint32, ready: bool, id: uint64, now: int): Step {
    var p := PairOf(src, tgt);
    var s1 := Clear(s, p);
    if !ready then Step(s1, [])
    else if p in At(s.dedup, now) then Step(s1, [])
    else
      var s2 := s1.(dedup := s.dedup[p := ((), now + MANUAL_WINDOW)]);
      Step(Launch(s2, src, tgt, id, 1, now), [Start(p, now, true, 1)])
  }

  /** A client announces a session of its own. */
  function Announce(s: State, k: Key, src: uint32, tgt: uint32, budget: uint32, deadlineMs: int, now: int): Step {
    if k.session == 0 || k.attempt == 0 then Step(s, [])
    else
      var session := Session(src, tgt, if budget == 0 then MAX_ATTEMPTS else budget,
                             if deadlineMs == 0 then (now + SESSION_LENGTH) / MILLI else deadlineMs,
                             Scheduled, false, map[src := true], map[]);
      Step(s.(sessions := s.sessions[k := (session, now + SESSION_TTL)]), [])
  }

  function Acked(x: Session, source: uint32, accepted: bool, phase: Phase): Session {
    var ack := x.ack[source := accepted];
    if !accepted then x.(ack := ack, state := Failed, relayFallback := true)
    else if |ack| >= 2 then x.(ack := ack, state := Waiting)
    else x.(ack := ack, state := if phase == Scheduled then Sending else phase)
  }

  /** An acknowledgement; `claimed` is the source the message names, 0 for none. */
  function Ack(s: State, k: Key, source: uint32, claimed: uint32, accepted: bool, phase: Phase, now: int): Step {
    var s1 := s.(sessions := AfterGet(s.sessions, k, now));
    if k !in At(s.sessions, now) || (claimed != 0 && claimed != source) then Step(s1, [])
    else
      var x := s.sessions[k].0;
      var s2 := if accepted then s1 else Conclude(s1, PairOf(x.source, x.target), false, now);
      Step(s2.(sessions := s2.sessions[k := (Acked(x, source, accepted, phase), now + SESSION_TTL)]), [])
  }

  function Concluded(x: Session, source: uint32, code: Code): Session {
    x.(results := x.results[source := code], relayFallback := code != SuccessCode,
       state := match code case SuccessCode => Success case TimeoutCode => Timeout case OtherCode => Failed)
  }

  function Report(s: State, k: Key, source: uint32, claimed: uint32, code: Code, now: int): Step {
    var s1 := s.(sessions := AfterGet(s.sessions, k, now));
    if k !in At(s.sessions, now) || (claimed != 0 && claimed != source) then Step(s1, [])
    else
      var x := s.sessions[k].0;
      var s2 := Conclude(s1, PairOf(x.source, x.target), code == SuccessCode, now);
      Step(s2.(sessions := s2.sessions[k := (Concluded(x, source, code), now + SESSION_TTL)]), [])
  }

  predicate Pending(x: Session) {
    x.state == Scheduled || x.state == Sending || x.state == Waiting
  }

  predicate Overdue(x: Session, nowMs: int) {
    Pending(x) && x.deadlineMs > 0 && nowMs > x.deadlineMs
  }

  function TimedOut(x: Session): Session {
    x.(state := Timeout, relayFallback := true)
  }

  /** The sweep looks at one session, expired or not; its time to live is not renewed. */
  function Sweep(s: State, k: Key, now: int): Step {
    if k !in s.sessions || !Overdue(s.sessions[k].0, now / MILLI) then Step(s, [])
    else
      var x := s.sessions[k];
      var s1 := s.(sessions := s.sessions[k := (TimedOut(x.0), x.1)]);
      Step(Conclude(s1, PairOf(x.0.source, x.0.target), false, now), [])
  }

  /** One round of the janitors of the four maps. */
  function Tidy(s: State, now: int): State {
    State(At(s.sessions, now), At(s.cooldown, now), At(s.dedup, now), At(s.retry, now))
  }

  datatype Op =
    | DoTry(src: uint32, tgt: uint32, ready: bool, id: uint64)
    | DoTryManual(src: uint32, tgt: uint32, ready: bool, id: uint64)
    | DoAnnounce(key: Key, src: uint32, tgt: uint32, budget: uint32, deadlineMs: int)
    | DoAck(key: Key, source: uint32, claimed: uint32, accepted: bool, phase: Phase)
    | DoReport(key: Key, source: uint32, claimed: uint32, code: Code)
    | DoSweep(key: Key)
    | DoTidy

  function Apply(s: State, op: Op, now: int): Step {
    match op
    case DoTry(src, tgt, ready, id) => Try(s, src, tgt, ready, id, now)
    case DoTryManual(src, tgt, ready, id) => TryManual(s, src, tgt, ready, id, now)
    case DoAnnounce(k, src, tgt, budget, deadlineMs) => Announce(s, k, src, tgt, budget, deadlineMs, now)
    case DoAck(k, source, claimed, accepted, phase) => Ack(s, k, source, claimed, accepted, phase, now)
    case DoReport(k, source, claimed, code) => Report(s, k, source, claimed, code, now)
    case DoSweep(k) => Sweep(s, k, now)
    case DoTidy => Step(Tidy(s, now), [])
  }

  const EMPTY: State := State(map[], map[], map[], map[])
}
