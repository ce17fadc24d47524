/** The punch coordinator over whole runs.  An observer who sees only the messages and the punches started keeps a
    watch on the sessions and a ledger of each pair; the coordinator's maps agree with both in every reachable
    state, and every start is one the ledger permits. */
module PunchRuns {
  import opened Text
  import opened TimedMap
  import opened Punch

  datatype Timed = Timed(op: Op, now: int)

  // ----------------------------------------------------- the observer's sessions

  /** A session as the messages about it tell: its two ends, until when it is heard, when it is due, who has
      acknowledged or reported what, where it stands, and whether the last word on it was a failure. */
  datatype Watched = Watched(src: uint32, tgt: uint32, budget: uint32, until: int, deadlineMs: int,
                             acks: map<uint32, bool>, results: map<uint32, Code>, phase: Phase, fallback: bool)

  type Watch = map<Key, Watched>

  /** A message about `k` is heard: the session lives and the sender claims to be nobody else. */
  predicate Hears(w: Watch, k: Key, source: uint32, claimed: uint32, now: int) {
    k in w && now <= w[k].until && (claimed == 0 || claimed == source)
  }

  /** An undecided session is past its time. */
  predicate Late(w: Watch, k: Key, now: int) {
    k in w && IsOpen(w[k].phase) && 0 < w[k].deadlineMs < now / MILLI
  }

  function Due(deadlineMs: int, now: int): int {
    if deadlineMs == 0 then (now + SESSION_LENGTH) / MILLI else deadlineMs
  }

  predicate IsOpen(phase: Phase) {
    phase == Scheduled || phase == Sending || phase == Waiting
  }

  /** After an accepted acknowledgement a session waits once both ends have sent one; before, it is at least being
      sent. */
  function PhaseAfter(senders: set<uint32>, phase: Phase): Phase {
    if |senders| >= 2 then Waiting else if phase == Scheduled then Sending else phase
  }

  function PhaseOf(code: Code): Phase {
    match code
    case SuccessCode => Success
    case TimeoutCode => Timeout
    case OtherCode => Failed
  }

  function Acknowledged(v: Watched, source: uint32, accepted: bool, phase: Phase, now: int): Watched {
    var v1 := v.(until := now + SESSION_TTL, acks := v.acks[source := accepted]);
    if accepted then v1.(phase := PhaseAfter(v.acks.Keys + {source}, phase)) else v1.(phase := Failed, fallback := true)
  }

  function Reported(v: Watched, source: uint32, code: Code, now: int): Watched {
    v.(until := now + SESSION_TTL, results := v.results[source := code], phase := PhaseOf(code),
       fallback := PhaseOf(code) != Success)
  }

  function Seen(w: Watch, t: Timed, starts: seq<Start>): Watch {
    match t.op
    case DoTry(src, tgt, _, id) => SeenStart(w, src, tgt, id, t.now, starts)
    case DoTryManual(src, tgt, _, id) => SeenStart(w, src, tgt, id, t.now, starts)
    case DoAnnounce(k, src, tgt, budget, deadlineMs) =>
      if k.session == 0 || k.attempt == 0 then w
      else w[k := Announced(src, tgt, budget, deadlineMs, t.now)]
    case DoAck(k, source, claimed, accepted, phase) =>
      if !Hears(w, k, source, claimed, t.now) then w
      else w[k := Acknowledged(w[k], source, accepted, phase, t.now)]
    case DoReport(k, source, claimed, code) =>
      if !Hears(w, k, source, claimed, t.now) then w else w[k := Reported(w[k], source, code, t.now)]
    case DoSweep(k) => if Late(w, k, t.now) then w[k := w[k].(phase := Timeout, fallback := true)] else w
    case DoTidy => w
  }

  function SeenStart(w: Watch, src: uint32, tgt: uint32, id: uint64, now: int, starts: seq<Start>): Watch {
    if starts == [] then w
    else w[Key(id, starts[0].attempt) := Begun(src, tgt, now)]
  }

  /** A session the coordinator starts: three attempts, five seconds, nobody heard. */
  function Begun(src: uint32, tgt: uint32, now: int): Watched {
    Watched(src, tgt, MAX_ATTEMPTS, now + SESSION_TTL, Due(0, now), map[], map[], Scheduled, false)
  }

  /** A session a client announces, which counts as its acknowledgement. */
  function Announced(src: uint32, tgt: uint32, budget: uint32, deadlineMs: int, now: int): Watched {
    Watched(src, tgt, if budget == 0 then MAX_ATTEMPTS else budget, now + SESSION_TTL, Due(deadlineMs, now),
            map[src := true], map[], Scheduled, false)
  }

  ghost predicate Matches(e: (Session, int), v: Watched) {
    && e.1 == v.until > 0
    && e.0 == Session(v.src, v.tgt, v.budget, v.deadlineMs, v.phase, v.fallback, v.acks, v.results)
  }

  /** Every stored session is as watched, and every watched one is stored while it is heard. */
  ghost predicate SessionsAgree(sessions: Entries<Key, Session>, w: Watch, now: int) {
    && (forall k :: k in sessions ==> k in w && Matches(sessions[k], w[k]))
    && (forall k :: k in w && now <= w[k].until ==> k in sessions)
  }

  lemma HeardMatches(sessions: Entries<Key, Session>, w: Watch, now: int, k: Key)
    requires SessionsAgree(sessions, w, now) && k in w && now <= w[k].until
    ensures k in sessions && Matches(sessions[k], w[k]) && AfterGet(sessions, k, now) == sessions
    ensures sessions[k].0.source == w[k].src && sessions[k].0.target == w[k].tgt
  {
  }

  lemma LiveIsHeard(sessions: Entries<Key, Session>, w: Watch, now: int, k: Key)
    requires SessionsAgree(sessions, w, now)
    ensures k in At(sessions, now) <==> k in w && now <= w[k].until
  {
  }

  lemma AckMatches(e: (Session, int), v: Watched, source: uint32, accepted: bool, phase: Phase, now: int)
    requires Matches(e, v) && now >= 0
    ensures Matches((Acked(e.0, source, accepted, phase), now + SESSION_TTL),
                    Acknowledged(v, source, accepted, phase, now))
  {
    var ack := v.acks[source := accepted];
    assert ack.Keys == v.acks.Keys + {source};
    assert |ack| == |ack.Keys|;
  }

  lemma SessionStored(sessions: Entries<Key, Session>, w: Watch, now: int, k: Key, e: (Session, int), v: Watched)
    requires SessionsAgree(sessions, w, now) && Matches(e, v)
    ensures SessionsAgree(sessions[k := e], w[k := v], now)
  {
    hide Matches;
  }

  lemma SessionGone(sessions: Entries<Key, Session>, w: Watch, now: int, k: Key)
    requires SessionsAgree(sessions, w, now)
    ensures SessionsAgree(AfterGet(sessions, k, now), w, now) && SessionsAgree(At(sessions, now), w, now)
  {
  }

  lemma SessionsLater(sessions: Entries<Key, Session>, w: Watch, now: int, later: int)
    requires SessionsAgree(sessions, w, now) && now <= later
    ensures SessionsAgree(sessions, w, later)
  {
    hide Matches;
  }

  /** The outcome of a session touches neither sessions nor claims. */
  lemma ConcludeAside(s: State, p: Pair, success: bool, now: int)
    ensures Conclude(s, p, success, now).sessions == s.sessions && Conclude(s, p, success, now).dedup == s.dedup
  {
  }

  lemma AckStores(s: State, k: Key, source: uint32, claimed: uint32, accepted: bool, phase: Phase, now: int)
    ensures var s' := Ack(s, k, source, claimed, accepted, phase, now).state;
      s'.sessions == if k in At(s.sessions, now) && (claimed == 0 || claimed == source)
                     then s.sessions[k := (Acked(s.sessions[k].0, source, accepted, phase), now + SESSION_TTL)]
                     else AfterGet(s.sessions, k, now)
  {
    hide Acked, Backoff;
  }

  lemma AckSessions(s: State, w: Watch, k: Key, source: uint32, claimed: uint32, accepted: bool, phase: Phase, now: int)
    requires SessionsAgree(s.sessions, w, now) && now >= 0
    ensures SessionsAgree(Ack(s, k, source, claimed, accepted, phase, now).state.sessions,
                          Seen(w, Timed(DoAck(k, source, claimed, accepted, phase), now), []), now)
  {
    hide Acked, Acknowledged, Matches, SessionsAgree, Ack;
    AckStores(s, k, source, claimed, accepted, phase, now);
    LiveIsHeard(s.sessions, w, now, k);
    if Hears(w, k, source, claimed, now) {
      HeardMatches(s.sessions, w, now, k);
      AckMatches(s.sessions[k], w[k], source, accepted, phase, now);
      SessionStored(s.sessions, w, now, k, (Acked(s.sessions[k].0, source, accepted, phase), now + SESSION_TTL),
                    Acknowledged(w[k], source, accepted, phase, now));
    } else {
      SessionGone(s.sessions, w, now, k);
    }
  }

  lemma ReportStores(s: State, k: Key, source: uint32, claimed: uint32, code: Code, now: int)
    ensures var s' := Report(s, k, source, claimed, code, now).state;
      s'.sessions == if k in At(s.sessions, now) && (claimed == 0 || claimed == source)
                     then s.sessions[k := (Concluded(s.sessions[k].0, source, code), now + SESSION_TTL)]
                     else AfterGet(s.sessions, k, now)
  {
    hide Concluded, Backoff;
  }

  lemma ReportMatches(e: (Session, int), v: Watched, source: uint32, code: Code, now: int)
    requires Matches(e, v) && now >= 0
    ensures Matches((Concluded(e.0, source, code), now + SESSION_TTL), Reported(v, source, code, now))
  {
  }

  lemma ReportSessions(s: State, w: Watch, k: Key, source: uint32, claimed: uint32, code: Code, now: int)
    requires SessionsAgree(s.sessions, w, now) && now >= 0
    ensures SessionsAgree(Report(s, k, source, claimed, code, now).state.sessions,
                          Seen(w, Timed(DoReport(k, source, claimed, code), now), []), now)
  {
    hide Concluded, Reported, Matches, SessionsAgree, Report;
    ReportStores(s, k, source, claimed, code, now);
    LiveIsHeard(s.sessions, w, now, k);
    if Hears(w, k, source, claimed, now) {
      HeardMatches(s.sessions, w, now, k);
      ReportMatches(s.sessions[k], w[k], source, code, now);
      SessionStored(s.sessions, w, now, k, (Concluded(s.sessions[k].0, source, code), now + SESSION_TTL),
                    Reported(w[k], source, code, now));
    } else {
      SessionGone(s.sessions, w, now, k);
    }
  }

  lemma SweepSessions(s: State, w: Watch, k: Key, now: int)
    requires SessionsAgree(s.sessions, w, now)
    ensures SessionsAgree(Sweep(s, k, now).state.sessions, Seen(w, Timed(DoSweep(k), now), []), now)
  {
    if k in s.sessions && Late(w, k, now) {
      var x := s.sessions[k];
      var v := w[k].(phase := Timeout, fallback := true);
      assert Matches((TimedOut(x.0), x.1), v);
      ConcludeAside(s.(sessions := s.sessions[k := (TimedOut(x.0), x.1)]), PairOf(x.0.source, x.0.target), false, now);
      hide Conclude, SessionsAgree;
      SessionStored(s.sessions, w, now, k, (TimedOut(x.0), x.1), v);
    }
  }

  lemma StartSessions(s: State, w: Watch, src: uint32, tgt: uint32, id: uint64, attempt: uint32, now: int,
                      starts: seq<Start>)
    requires SessionsAgree(s.sessions, w, now) && now >= 0 && starts != [] && starts[0].attempt == attempt
    ensures SessionsAgree(Launch(s, src, tgt, id, attempt, now).sessions, SeenStart(w, src, tgt, id, now, starts), now)
  {
    SessionStored(s.sessions, w, now, Key(id, attempt), (NewSession(src, tgt, now), now + SESSION_TTL),
                  Begun(src, tgt, now));
  }

  lemma TrySessions(s: State, w: Watch, src: uint32, tgt: uint32, ready: bool, id: uint64, now: int)
    requires SessionsAgree(s.sessions, w, now) && now >= 0
    ensures var r := Try(s, src, tgt, ready, id, now);
      SessionsAgree(r.state.sessions, SeenStart(w, src, tgt, id, now, r.starts), now)
    ensures var r := TryManual(s, src, tgt, ready, id, now);
      SessionsAgree(r.state.sessions, SeenStart(w, src, tgt, id, now, r.starts), now)
  {
    var r, m := Try(s, src, tgt, ready, id, now), TryManual(s, src, tgt, ready, id, now);
    if r.starts != [] { StartSessions(s, w, src, tgt, id, r.starts[0].attempt, now, r.starts); }
    if m.starts != [] { StartSessions(s, w, src, tgt, id, 1, now, m.starts); }
    hide SessionsAgree;
  }

  /** Every step keeps sessions and watch in agreement. */
  lemma SessionsStep(s: State, w: Watch, op: Op, now: int)
    requires SessionsAgree(s.sessions, w, now) && now >= 0
    ensures var r := Apply(s, op, now); SessionsAgree(r.state.sessions, Seen(w, Timed(op, now), r.starts), now)
  {
    match op
    case DoTry(src, tgt, ready, id) =>
      TrySessions(s, w, src, tgt, ready, id, now);
      hide Try, SeenStart, SessionsAgree;
    case DoTryManual(src, tgt, ready, id) =>
      TrySessions(s, w, src, tgt, ready, id, now);
      hide TryManual, SeenStart, SessionsAgree;
    case DoAnnounce(k, src, tgt, budget, deadlineMs) =>
      if k.session != 0 && k.attempt != 0 {
        SessionStored(s.sessions, w, now, k, Apply(s, op, now).state.sessions[k],
                      Announced(src, tgt, budget, deadlineMs, now));
      }
    case DoAck(k, source, claimed, accepted, phase) => AckSessions(s, w, k, source, claimed, accepted, phase, now);
      hide Ack, SessionsAgree;
    case DoReport(k, source, claimed, code) => ReportSessions(s, w, k, source, claimed, code, now);
      hide Report, SessionsAgree;
    case DoSweep(k) => SweepSessions(s, w, k, now);
      hide Sweep, SessionsAgree;
    case DoTidy => if s.sessions != map[] { var k :| k in s.sessions; SessionGone(s.sessions, w, now, k); }
  }

  // --------------------------------------------------------- the outcomes of a pair

  function PairOfWatched(v: Watched): Pair {
    PairOf(v.src, v.tgt)
  }

  /** A success is reported for the pair. */
  predicate Succeeds(w: Watch, t: Timed, p: Pair) {
    && t.op.DoReport? && Hears(w, t.op.key, t.op.source, t.op.claimed, t.now)
    && PairOfWatched(w[t.op.key]) == p && t.op.code == SuccessCode
  }

  /** A failure of the pair: reported, or a side refuses, or a stored session is found past its time. */
  predicate Fails(w: Watch, stored: set<Key>, t: Timed, p: Pair) {
    match t.op
    case DoReport(k, source, claimed, code) =>
      Hears(w, k, source, claimed, t.now) && PairOfWatched(w[k]) == p && code != SuccessCode
    case DoAck(k, source, claimed, accepted, _) =>
      Hears(w, k, source, claimed, t.now) && PairOfWatched(w[k]) == p && !accepted
    case DoSweep(k) => k in stored && Late(w, k, t.now) && PairOfWatched(w[k]) == p
    case _ => false
  }

  /** A client asks for the pair by hand. */
  predicate Asks(t: Timed, p: Pair) {
    t.op.DoTryManual? && PairOf(t.op.src, t.op.tgt) == p
  }

  /** The entry of `p` is as before, or has gone after its time. */
  ghost predicate KeptAt<T>(m: Entries<Pair, T>, m': Entries<Pair, T>, p: Pair, now: int) {
    (p in m' ==> p in m && m'[p] == m[p]) && (p in m && p !in m' ==> !Live(m[p], now))
  }

  /** Cooldown, claim and retry record of the pair are left alone. */
  ghost predicate SamePair(s: State, s': State, p: Pair, now: int) {
    KeptAt(s.cooldown, s'.cooldown, p, now) && KeptAt(s.dedup, s'.dedup, p, now) && KeptAt(s.retry, s'.retry, p, now)
  }

  /** The count of failures held for a pair. */
  function Count(s: State, p: Pair, now: int): nat {
    if p in At(s.retry, now) then s.retry[p].0.attempt else 0
  }

  /** The retry record of the pair is gone, and its cooldown lifted. */
  ghost predicate Lifted(s': State, p: Pair) {
    p !in s'.retry && p !in s'.cooldown
  }

  /** The count of the pair is one more, with 32 bits, for half an hour; the pair is held off for the backoff, and
      its cooldown lifted. */
  ghost predicate HeldOff(s: State, s': State, p: Pair, now: int) {
    var attempt := (Count(s, p, now) + 1) % TWO32;
    p in s'.retry && s'.retry[p] == (Retry(attempt, (now + Backoff(attempt)) / MILLI), now + RETRY_TTL) &&
      p !in s'.cooldown
  }

  lemma ConcludeEffects(s: State, q: Pair, success: bool, now: int, p: Pair)
    ensures var s' := Conclude(s, q, success, now);
      if p != q then SamePair(s, s', p, now) else if success then Lifted(s', p) else HeldOff(s, s', p, now)
  {
  }

  lemma SessionsOnly(s: State, s': State, sessions: Entries<Key, Session>, p: Pair, now: int)
    ensures SamePair(s, s'.(sessions := sessions), p, now) <==> SamePair(s, s', p, now)
    ensures Lifted(s'.(sessions := sessions), p) <==> Lifted(s', p)
    ensures HeldOff(s, s'.(sessions := sessions), p, now) <==> HeldOff(s, s', p, now)
    ensures SamePair(s.(sessions := sessions), s', p, now) <==> SamePair(s, s', p, now)
    ensures HeldOff(s.(sessions := sessions), s', p, now) <==> HeldOff(s, s', p, now)
    ensures SamePair(s, s.(sessions := sessions), p, now)
  {
  }

  lemma HeardEffects(s: State, w: Watch, op: Op, now: int, p: Pair)
    requires SessionsAgree(s.sessions, w, now) && (op.DoAck? || op.DoReport?)
    ensures var s', t := Apply(s, op, now).state, Timed(op, now);
      if Succeeds(w, t, p) then Lifted(s', p)
      else if Fails(w, s.sessions.Keys, t, p) then HeldOff(s, s', p, now) else SamePair(s, s', p, now)
  {
    var k, s1, s' := op.key, s.(sessions := AfterGet(s.sessions, op.key, now)), Apply(s, op, now).state;
    LiveIsHeard(s.sessions, w, now, k);
    SessionsOnly(s, s, s'.sessions, p, now);
    if Hears(w, k, op.source, op.claimed, now) {
      HeardMatches(s.sessions, w, now, k);
      var q := PairOfWatched(w[k]);
      var success := op.DoReport? && op.code == SuccessCode;
      ConcludeEffects(s1, q, success, now, p);
      SessionsOnly(s, Conclude(s1, q, success, now), s'.sessions, p, now);
      SessionsOnly(s, Conclude(s1, q, success, now), s1.sessions, p, now);
    }
    hide SessionsAgree, SamePair, Lifted, HeldOff, Conclude, Acked, Concluded, Matches;
  }

  lemma SweepEffects(s: State, w: Watch, k: Key, now: int, p: Pair)
    requires SessionsAgree(s.sessions, w, now)
    ensures var s', t := Sweep(s, k, now).state, Timed(DoSweep(k), now);
      if Fails(w, s.sessions.Keys, t, p) then HeldOff(s, s', p, now) else SamePair(s, s', p, now)
  {
    if k in s.sessions {
      var x := s.sessions[k];
      var s1, q := s.(sessions := s.sessions[k := (TimedOut(x.0), x.1)]), PairOf(x.0.source, x.0.target);
      assert Overdue(x.0, now / MILLI) <==> Late(w, k, now);
      ConcludeEffects(s1, q, false, now, p);
      SessionsOnly(s, Conclude(s1, q, false, now), s1.sessions, p, now);
      hide SessionsAgree, SamePair, HeldOff, Conclude, Overdue, Late;
    }
  }

  /** A success lifts the pair, a failure holds it off, and no other message touches it; neither starts a punch. */
  lemma OutcomeEffects(s: State, w: Watch, op: Op, now: int, p: Pair)
    requires SessionsAgree(s.sessions, w, now) && !op.DoTry? && !op.DoTryManual?
    ensures var s', t := Apply(s, op, now).state, Timed(op, now);
      && Apply(s, op, now).starts == []
      && if Succeeds(w, t, p) then Lifted(s', p)
         else if Fails(w, s.sessions.Keys, t, p) then HeldOff(s, s', p, now) else SamePair(s, s', p, now)
  {
    if op.DoAck? || op.DoReport? {
      HeardEffects(s, w, op, now, p);
      hide Lifted, HeldOff, SamePair, Succeeds, Fails;
    } else if op.DoSweep? {
      SweepEffects(s, w, op.key, now, p);
      hide HeldOff, SamePair, Fails;
    } else {
      hide HeldOff;
    }
  }

  // ----------------------------------------------------------- the observer's ledger

  /** `started`: the last start not followed by an outcome; `strikes`: failures since the last success, manual
      request or half-hour pause, the last of them at `struckAt`; `manual`: the last manual start. */
  datatype Ledger = Ledger(started: Option<int>, strikes: nat, struckAt: int, manual: Option<int>)

  const BLANK: Ledger := Ledger(None, 0, 0, None)

  predicate Counting(l: Ledger, now: int) {
    l.strikes > 0 && now <= l.struckAt + RETRY_TTL
  }

  /** One step, as it concerns the pair. */
  function Noted(l: Ledger, w: Watch, stored: set<Key>, t: Timed, starts: seq<Start>, p: Pair): Ledger {
    if Succeeds(w, t, p) then l.(started := None, strikes := 0)
    else if Fails(w, stored, t, p) then
      l.(started := None, strikes := if Counting(l, t.now) then l.strikes + 1 else 1, struckAt := t.now)
    else
      var asked := if Asks(t, p) then l.(strikes := 0) else l;
      if starts != [] && starts[0].pair == p then
        asked.(started := Some(t.now), manual := if starts[0].manual then Some(t.now) else asked.manual)
      else asked
  }

  /** The attempt counter is a 32-bit number. */
  function Attempts(l: Ledger): uint32 {
    l.strikes % TWO32
  }

  /** May a status report start a punch now? */
  predicate MayStart(l: Ledger, now: int) {
    && (l.started.Some? ==> now > l.started.value + COOLDOWN)
    && (Counting(l, now) ==>
          Attempts(l) < MAX_ATTEMPTS && now / MILLI >= (l.struckAt + Backoff(Attempts(l))) / MILLI)
  }

  predicate MayStartManually(l: Ledger, now: int) {
    l.manual.Some? ==> now > l.manual.value + MANUAL_WINDOW
  }

  // ------------------------------------------------- the maps agree with the ledger

  ghost predicate CooldownAgrees(s: State, l: Ledger, p: Pair, now: int) {
    && (p in s.cooldown ==> l.started.Some? && s.cooldown[p].1 == l.started.value + COOLDOWN > 0)
    && (p !in s.cooldown && l.started.Some? ==> now > l.started.value + COOLDOWN)
  }

  ghost predicate DedupAgrees(s: State, l: Ledger, p: Pair, now: int) {
    && (p in s.dedup ==> l.manual.Some? && s.dedup[p].1 == l.manual.value + MANUAL_WINDOW > 0)
    && (p !in s.dedup && l.manual.Some? ==> now > l.manual.value + MANUAL_WINDOW)
  }

  ghost predicate RetryAgrees(s: State, l: Ledger, p: Pair, now: int) {
    && (p in s.retry ==>
          && l.strikes > 0 && s.retry[p].1 == l.struckAt + RETRY_TTL > 0
          && s.retry[p].0 == Retry(Attempts(l), (l.struckAt + Backoff(Attempts(l))) / MILLI))
    && (p !in s.retry ==> !Counting(l, now))
  }

  ghost predicate Agrees(s: State, l: Ledger, p: Pair, now: int) {
    CooldownAgrees(s, l, p, now) && DedupAgrees(s, l, p, now) && RetryAgrees(s, l, p, now)
  }

  lemma AgreesLater(s: State, l: Ledger, p: Pair, now: int, later: int)
    requires Agrees(s, l, p, now) && now <= later
    ensures Agrees(s, l, p, later)
  {
  }

  lemma SameAgrees(s: State, s': State, l: Ledger, p: Pair, now: int)
    requires Agrees(s, l, p, now) && SamePair(s, s', p, now)
    ensures Agrees(s', l, p, now)
  {
  }

  lemma LiftedAgrees(s: State, s': State, l: Ledger, p: Pair, now: int)
    requires Agrees(s, l, p, now) && Lifted(s', p) && KeptAt(s.dedup, s'.dedup, p, now)
    ensures Agrees(s', l.(started := None, strikes := 0), p, now)
  {
  }

  lemma HeldOffAgrees(s: State, s': State, l: Ledger, p: Pair, now: int)
    requires Agrees(s, l, p, now) && HeldOff(s, s', p, now) && KeptAt(s.dedup, s'.dedup, p, now) && now >= 0
    ensures Agrees(s', l.(started := None, strikes := if Counting(l, now) then l.strikes + 1 else 1, struckAt := now),
                   p, now)
  {
    hide Backoff;
    var l' := l.(started := None, strikes := if Counting(l, now) then l.strikes + 1 else 1, struckAt := now);
    assert (Count(s, p, now) + 1) % TWO32 == Attempts(l');
  }

  /** A status report starts a punch exactly when both sides are ready and the ledger permits it, as the attempt
      after the failures counted. */
  lemma TryDecides(s: State, l: Ledger, src: uint32, tgt: uint32, ready: bool, id: uint64, now: int)
    requires Agrees(s, l, PairOf(src, tgt), now)
    ensures var p, r := PairOf(src, tgt), Try(s, src, tgt, ready, id, now);
      if ready && MayStart(l, now)
      then r.starts == [Start(p, now, false, if Counting(l, now) then Attempts(l) + 1 else 1)]
      else r.starts == []
  {
    hide Backoff;
  }

  /** A manual request starts one exactly when both are ready and the last manual start of the pair, from either
      side, is more than the window ago. */
  lemma TryManualDecides(s: State, l: Ledger, src: uint32, tgt: uint32, ready: bool, id: uint64, now: int)
    requires Agrees(s, l, PairOf(src, tgt), now)
    ensures var p, r := PairOf(src, tgt), TryManual(s, src, tgt, ready, id, now);
      r.starts == if ready && MayStartManually(l, now) then [Start(p, now, true, 1)] else []
  {
  }

  lemma TryAgrees(s: State, l: Ledger, p: Pair, w: Watch, src: uint32, tgt: uint32, ready: bool, id: uint64, now: int)
    requires Agrees(s, l, p, now) && now >= 0
    ensures var r, t := Try(s, src, tgt, ready, id, now), Timed(DoTry(src, tgt, ready, id), now);
      Agrees(r.state, Noted(l, w, s.sessions.Keys, t, r.starts, p), p, now)
  {
    hide Backoff;
  }

  lemma TryManualAgrees(s: State, l: Ledger, p: Pair, w: Watch, src: uint32, tgt: uint32, ready: bool, id: uint64,
                        now: int)
    requires Agrees(s, l, p, now) && now >= 0
    ensures var r, t := TryManual(s, src, tgt, ready, id, now), Timed(DoTryManual(src, tgt, ready, id), now);
      Agrees(r.state, Noted(l, w, s.sessions.Keys, t, r.starts, p), p, now)
  {
    hide Backoff;
  }

  lemma ClaimsAside(s: State, op: Op, now: int, p: Pair)
    requires !op.DoTry? && !op.DoTryManual?
    ensures KeptAt(s.dedup, Apply(s, op, now).state.dedup, p, now)
  {
    hide Acked, Concluded, Backoff;
  }

  /** Every step keeps every pair's maps in agreement with its ledger. */
  lemma ApplyAgrees(s: State, w: Watch, l: Ledger, p: Pair, op: Op, now: int)
    requires SessionsAgree(s.sessions, w, now) && Agrees(s, l, p, now) && now >= 0
    ensures var r := Apply(s, op, now);
      Agrees(r.state, Noted(l, w, s.sessions.Keys, Timed(op, now), r.starts, p), p, now)
  {
    hide Agrees, Try, TryManual, SessionsAgree, Lifted, HeldOff, SamePair;
    if op.DoTry? {
      TryAgrees(s, l, p, w, op.src, op.tgt, op.ready, op.id, now);
    } else if op.DoTryManual? {
      TryManualAgrees(s, l, p, w, op.src, op.tgt, op.ready, op.id, now);
    } else {
      OutcomeEffects(s, w, op, now, p);
      ClaimsAside(s, op, now, p);
      hide Apply;
      var s', t := Apply(s, op, now).state, Timed(op, now);
      if Succeeds(w, t, p) {
        LiftedAgrees(s, s', l, p, now);
      } else if Fails(w, s.sessions.Keys, t, p) {
        HeldOffAgrees(s, s', l, p, now);
      } else {
        SameAgrees(s, s', l, p, now);
      }
    }
  }

  // --------------------------------------------------------------------- runs

  ghost predicate Ordered(steps: seq<Timed>) {
    (forall i :: 0 <= i < |steps| ==> 0 <= steps[i].now) &&
    (forall i, j :: 0 <= i < j < |steps| ==> steps[i].now <= steps[j].now)
  }

  datatype Trace = Trace(state: State, watch: Watch)

  /** State and watch before step `i`. */
  ghost function TraceAt(steps: seq<Timed>, i: nat): Trace
    requires i <= |steps|
  {
    if i == 0 then Trace(EMPTY, map[])
    else
      var t, x := TraceAt(steps, i - 1), steps[i - 1];
      var r := Apply(t.state, x.op, x.now);
      Trace(r.state, Seen(t.watch, x, r.starts))
  }

  /** The punches step `i` starts. */
  ghost function StartsAt(steps: seq<Timed>, i: nat): seq<Start>
    requires i < |steps|
  {
    Apply(TraceAt(steps, i).state, steps[i].op, steps[i].now).starts
  }

  /** The ledger of the pair before step `i`. */
  ghost function LedgerAt(steps: seq<Timed>, i: nat, p: Pair): Ledger
    requires i <= |steps|
  {
    if i == 0 then BLANK
    else
      var t := TraceAt(steps, i - 1);
      Noted(LedgerAt(steps, i - 1, p), t.watch, t.state.sessions.Keys, steps[i - 1], StartsAt(steps, i - 1), p)
  }

  function Clock(steps: seq<Timed>, i: nat): int
    requires i <= |steps|
  {
    if i == 0 then 0 else steps[i - 1].now
  }

  lemma {:induction false} RunWatches(steps: seq<Timed>, i: nat)
    requires Ordered(steps) && i <= |steps|
    ensures SessionsAgree(TraceAt(steps, i).state.sessions, TraceAt(steps, i).watch, Clock(steps, i))
  {
    if i > 0 {
      hide Apply, SessionsAgree, Seen;
      var t, x := TraceAt(steps, i - 1), steps[i - 1];
      RunWatches(steps, i - 1);
      SessionsLater(t.state.sessions, t.watch, Clock(steps, i - 1), x.now);
      SessionsStep(t.state, t.watch, x.op, x.now);
    }
  }

  lemma StartAgrees(steps: seq<Timed>, p: Pair)
    ensures Agrees(TraceAt(steps, 0).state, LedgerAt(steps, 0, p), p, 0)
  {
  }

  lemma TraceNext(steps: seq<Timed>, i: nat, p: Pair)
    requires i < |steps|
    ensures var t, r := TraceAt(steps, i), Apply(TraceAt(steps, i).state, steps[i].op, steps[i].now);
      && TraceAt(steps, i + 1).state == r.state
      && LedgerAt(steps, i + 1, p) ==
         Noted(LedgerAt(steps, i, p), t.watch, t.state.sessions.Keys, Timed(steps[i].op, steps[i].now), r.starts, p)
  {
    hide Apply, Noted, Seen;
  }

  /** In every reachable state the maps agree with the ledger of the steps. */
  lemma {:induction false} RunAgrees(steps: seq<Timed>, i: nat, p: Pair)
    requires Ordered(steps) && i <= |steps|
    ensures Agrees(TraceAt(steps, i).state, LedgerAt(steps, i, p), p, Clock(steps, i))
  {
    hide Apply, SessionsAgree, Agrees, Noted, Seen, TraceAt, LedgerAt;
    if i == 0 {
      StartAgrees(steps, p);
    } else {
      var t, x := TraceAt(steps, i - 1), steps[i - 1];
      TraceNext(steps, i - 1, p);
      RunAgrees(steps, i - 1, p);
      RunWatches(steps, i - 1);
      SessionsLater(t.state.sessions, t.watch, Clock(steps, i - 1), x.now);
      AgreesLater(t.state, LedgerAt(steps, i - 1, p), p, Clock(steps, i - 1), x.now);
      ApplyAgrees(t.state, t.watch, LedgerAt(steps, i - 1, p), p, x.op, x.now);
    }
  }

  predicate Permitted(l: Ledger, x: Start) {
    if x.manual then MayStartManually(l, x.at) && x.attempt == 1
    else MayStart(l, x.at) && x.attempt == if Counting(l, x.at) then Attempts(l) + 1 else 1
  }

  /** A step starts at most one punch, at its time, of the pair it names, by hand or not as it says, and only if
      the ledger permits it. */
  lemma RunLawful(steps: seq<Timed>, i: nat)
    requires Ordered(steps) && i < |steps|
    ensures |StartsAt(steps, i)| <= 1
    ensures StartsAt(steps, i) != [] ==>
      var x, op := StartsAt(steps, i)[0], steps[i].op;
      && (op.DoTry? || op.DoTryManual?) && x.pair == PairOf(op.src, op.tgt) && x.at == steps[i].now
      && x.manual == op.DoTryManual? && op.ready && Permitted(LedgerAt(steps, i, x.pair), x)
  {
    var t, op, now := TraceAt(steps, i), steps[i].op, steps[i].now;
    RunWatches(steps, i);
    SessionsLater(t.state.sessions, t.watch, Clock(steps, i), now);
    hide TraceAt, SessionsAgree, Agrees, Try, TryManual, LedgerAt;
    if op.DoTry? || op.DoTryManual? {
      var p := PairOf(op.src, op.tgt);
      RunAgrees(steps, i, p);
      AgreesLater(t.state, LedgerAt(steps, i, p), p, Clock(steps, i), now);
      if op.DoTry? {
        TryDecides(t.state, LedgerAt(steps, i, p), op.src, op.tgt, op.ready, op.id, now);
      } else {
        TryManualDecides(t.state, LedgerAt(steps, i, p), op.src, op.tgt, op.ready, op.id, now);
      }
    } else {
      OutcomeEffects(t.state, t.watch, op, now, PairOf(0, 0));
    }
  }

  /** ... and always when it does. */
  lemma RunStarts(steps: seq<Timed>, i: nat)
    requires Ordered(steps) && i < |steps| && (steps[i].op.DoTry? || steps[i].op.DoTryManual?)
    ensures var op := steps[i].op;
      var l := LedgerAt(steps, i, PairOf(op.src, op.tgt));
      StartsAt(steps, i) != [] <==>
        op.ready && if op.DoTry? then MayStart(l, steps[i].now) else MayStartManually(l, steps[i].now)
  {
    var t, op, now := TraceAt(steps, i), steps[i].op, steps[i].now;
    var p := PairOf(op.src, op.tgt);
    RunAgrees(steps, i, p);
    hide TraceAt, Agrees, Try, TryManual, LedgerAt, MayStart, MayStartManually;
    AgreesLater(t.state, LedgerAt(steps, i, p), p, Clock(steps, i), now);
    TryDecides(t.state, LedgerAt(steps, i, p), op.src, op.tgt, op.ready, op.id, now);
    TryManualDecides(t.state, LedgerAt(steps, i, p), op.src, op.tgt, op.ready, op.id, now);
  }

  // ----------------------------------------------------------------- the promises

  /** Step `i` starts a punch of the pair. */
  ghost predicate StartedAt(steps: seq<Timed>, i: nat, p: Pair)
    requires i < |steps|
  {
    StartsAt(steps, i) != [] && StartsAt(steps, i)[0].pair == p
  }

  ghost predicate SucceededAt(steps: seq<Timed>, i: nat, p: Pair)
    requires i < |steps|
  {
    Succeeds(TraceAt(steps, i).watch, steps[i], p)
  }

  ghost predicate FailedAt(steps: seq<Timed>, i: nat, p: Pair)
    requires i < |steps|
  {
    Fails(TraceAt(steps, i).watch, TraceAt(steps, i).state.sessions.Keys, steps[i], p)
  }

  /** No outcome of the pair strictly between the two steps. */
  ghost predicate NoOutcome(steps: seq<Timed>, i: nat, j: nat, p: Pair)
    requires i <= j <= |steps|
  {
    forall k :: i < k < j ==> !SucceededAt(steps, k, p) && !FailedAt(steps, k, p)
  }

  /** Neither a success nor a manual request of the pair strictly between the two steps. */
  ghost predicate NoReset(steps: seq<Timed>, i: nat, j: nat, p: Pair)
    requires i <= j <= |steps|
  {
    forall k :: i < k < j ==> !SucceededAt(steps, k, p) && !Asks(steps[k], p)
  }

  lemma {:induction false} StartRemembered(steps: seq<Timed>, i: nat, j: nat, p: Pair)
    requires Ordered(steps) && i < j <= |steps| && StartedAt(steps, i, p) && NoOutcome(steps, i, j, p)
    ensures var l := LedgerAt(steps, j, p); l.started.Some? && l.started.value >= steps[i].now
    decreases j
  {
    hide TraceAt, Apply, Hears, Late;
    RunLawful(steps, j - 1);
    if i < j - 1 {
      StartRemembered(steps, i, j - 1, p);
      assert !SucceededAt(steps, j - 1, p) && !FailedAt(steps, j - 1, p);
    }
  }

  lemma {:induction false} ManualRemembered(steps: seq<Timed>, i: nat, j: nat, p: Pair)
    requires Ordered(steps) && i < j <= |steps| && StartedAt(steps, i, p) && steps[i].op.DoTryManual?
    ensures var l := LedgerAt(steps, j, p); l.manual.Some? && l.manual.value >= steps[i].now
    decreases j
  {
    hide TraceAt, Apply, Hears, Late;
    RunLawful(steps, j - 1);
    if i < j - 1 { ManualRemembered(steps, i, j - 1, p); }
  }

  /** Failures add up while they are less than half an hour apart and nothing resets the count. */
  lemma {:induction false} StrikesRemembered(steps: seq<Timed>, i: nat, j: nat, p: Pair)
    requires Ordered(steps) && i < j <= |steps| && FailedAt(steps, i, p) && NoReset(steps, i, j, p)
    ensures var l := LedgerAt(steps, j, p);
      && l.strikes > 0 && l.struckAt >= steps[i].now
      && (Clock(steps, j) <= steps[i].now + RETRY_TTL ==> l.strikes >= LedgerAt(steps, i + 1, p).strikes)
    decreases j
  {
    hide TraceAt, Apply, Hears, Late;
    if i < j - 1 {
      StrikesRemembered(steps, i, j - 1, p);
      assert !SucceededAt(steps, j - 1, p) && !Asks(steps[j - 1], p);
    } else {
      FailureCounts(steps, i, p);
    }
  }

  lemma FailureCounts(steps: seq<Timed>, i: nat, p: Pair)
    requires i < |steps| && FailedAt(steps, i, p)
    ensures var l, l' := LedgerAt(steps, i, p), LedgerAt(steps, i + 1, p);
      l'.struckAt == steps[i].now && l'.strikes == if Counting(l, steps[i].now) then l.strikes + 1 else 1
  {
    hide TraceAt, Apply, Hears, Late;
  }

  lemma StrikeAfterStrike(steps: seq<Timed>, i: nat, j: nat, p: Pair)
    requires Ordered(steps) && i < j < |steps| && FailedAt(steps, i, p) && FailedAt(steps, j, p)
    requires NoReset(steps, i, j, p) && steps[j].now <= steps[i].now + RETRY_TTL
    ensures LedgerAt(steps, j + 1, p).strikes >= LedgerAt(steps, i + 1, p).strikes + 1
  {
    hide LedgerAt, FailedAt;
    StrikesRemembered(steps, i, j, p);
    FailureCounts(steps, j, p);
  }

  lemma NoResetWithin(steps: seq<Timed>, i: nat, j: nat, a: nat, b: nat, p: Pair)
    requires i <= a <= b <= j <= |steps| && NoReset(steps, i, j, p)
    ensures NoReset(steps, a, b, p)
  {
    hide SucceededAt, Asks;
  }

  /** A pair has no more strikes than there are steps, so 2^32 strikes are far off. */
  lemma {:induction false} StrikesBounded(steps: seq<Timed>, i: nat, p: Pair)
    requires i <= |steps|
    ensures LedgerAt(steps, i, p).strikes <= i
  {
    if i > 0 {
      hide TraceAt, Apply, Succeeds, Fails;
      StrikesBounded(steps, i - 1, p);
    }
  }

  /** The count of failures held for the pair has gone round its 32 bits and stands below `n` again. */
  predicate Wrapped(l: Ledger, n: nat) {
    l.strikes >= TWO32 && Attempts(l) < n
  }

  /** A status-triggered start follows the last start of the pair, of either kind, by more than twenty seconds,
      unless an outcome of the pair (a result, a refusal, a missed deadline) came between. */
  lemma StartsPaced(steps: seq<Timed>, i: nat, j: nat, p: Pair)
    requires Ordered(steps) && i < j < |steps| && StartedAt(steps, i, p) && StartedAt(steps, j, p) && steps[j].op.DoTry?
    requires NoOutcome(steps, i, j, p)
    ensures steps[j].now - steps[i].now > COOLDOWN
  {
    StartRemembered(steps, i, j, p);
    RunLawful(steps, j);
    hide LedgerAt, NoOutcome, StartsAt;
  }

  /** Manual starts of one unordered pair are more than three seconds apart, whatever happens between. */
  lemma ManualStartsPaced(steps: seq<Timed>, i: nat, j: nat, p: Pair)
    requires Ordered(steps) && i < j < |steps| && StartedAt(steps, i, p) && StartedAt(steps, j, p)
    requires steps[i].op.DoTryManual? && steps[j].op.DoTryManual?
    ensures steps[j].now - steps[i].now > MANUAL_WINDOW
  {
    ManualRemembered(steps, i, j, p);
    RunLawful(steps, j);
    hide LedgerAt, StartsAt;
  }

  /** No status-triggered start within two seconds (in whole milliseconds) of a failure of the pair, unless a
      success or a manual request came between, or the failures in a row have wrapped their counter to zero; for
      that a run of fewer than 2^32 steps is too short. */
  lemma BackoffKept(steps: seq<Timed>, i: nat, j: nat, p: Pair)
    requires Ordered(steps) && i < j < |steps| && FailedAt(steps, i, p) && StartedAt(steps, j, p) && steps[j].op.DoTry?
    requires NoReset(steps, i, j, p)
    ensures steps[j].now / MILLI - steps[i].now / MILLI >= 2000 || Wrapped(LedgerAt(steps, j, p), 1)
    ensures |steps| < TWO32 ==> steps[j].now / MILLI - steps[i].now / MILLI >= 2000
  {
    StrikesRemembered(steps, i, j, p);
    RunLawful(steps, j);
    StrikesBounded(steps, j, p);
    hide LedgerAt, StartsAt, FailedAt, NoReset, MayStart;
    HoldsOff(LedgerAt(steps, j, p), steps[i].now, steps[j].now);
  }

  lemma HoldsOff(l: Ledger, failed: int, now: int)
    requires MayStart(l, now) && l.strikes > 0 && l.struckAt >= failed
    ensures now / MILLI - failed / MILLI >= 2000 || Wrapped(l, 1)
  {
    hide Backoff;
    if Attempts(l) > 0 { BackoffDoubles(Attempts(l)); }
  }

  /** After three failures of a pair, each within half an hour of the one before, no status-triggered start for
      half an hour from the last, unless a success or a manual request comes first, or the failures in a row have
      wrapped their counter below three. */
  lemma ThreeStrikes(steps: seq<Timed>, a: nat, b: nat, c: nat, j: nat, p: Pair)
    requires Ordered(steps) && a < b < c < j < |steps| && StartedAt(steps, j, p) && NoReset(steps, a, j, p)
    requires FailedAt(steps, a, p) && FailedAt(steps, b, p) && FailedAt(steps, c, p)
    requires steps[b].now <= steps[a].now + RETRY_TTL && steps[c].now <= steps[b].now + RETRY_TTL
    requires steps[j].now <= steps[c].now + RETRY_TTL
    ensures steps[j].op.DoTryManual? || Wrapped(LedgerAt(steps, j, p), 3)
    ensures |steps| < TWO32 ==> steps[j].op.DoTryManual?
  {
    hide LedgerAt, StartsAt, Backoff, FailedAt, NoReset, TraceAt, Asks;
    FailureCounts(steps, a, p);
    NoResetWithin(steps, a, j, a, b, p);
    NoResetWithin(steps, a, j, b, c, p);
    NoResetWithin(steps, a, j, c, j, p);
    StrikeAfterStrike(steps, a, b, p);
    StrikeAfterStrike(steps, b, c, p);
    StrikesRemembered(steps, c, j, p);
    RunLawful(steps, j);
    StrikesBounded(steps, j, p);
  }

  /** Attempt numbers made by the controller are 1, 2 or 3. */
  lemma AttemptsInBudget(steps: seq<Timed>, i: nat)
    requires Ordered(steps) && i < |steps| && StartsAt(steps, i) != []
    ensures 1 <= StartsAt(steps, i)[0].attempt <= MAX_ATTEMPTS
  {
    RunLawful(steps, i);
    hide LedgerAt, StartsAt, Backoff;
  }

  // -------------------------------------------------------------- falling back to relay

  /** Step `j` says that session `k` failed: a report, a refusal, or the sweep after its time. */
  ghost predicate SessionFailsAt(steps: seq<Timed>, j: nat, k: Key)
    requires j < |steps|
  {
    var w, t := TraceAt(steps, j).watch, steps[j];
    match t.op
    case DoReport(key, source, claimed, code) =>
      key == k && Hears(w, k, source, claimed, t.now) && code != SuccessCode
    case DoAck(key, source, claimed, accepted, _) => key == k && Hears(w, k, source, claimed, t.now) && !accepted
    case DoSweep(key) => key == k && Late(w, k, t.now)
    case _ => false
  }

  /** Step `j` reports success of session `k`, or begins a session under that key. */
  ghost predicate SessionRevivedAt(steps: seq<Timed>, j: nat, k: Key)
    requires j < |steps|
  {
    var w, t := TraceAt(steps, j).watch, steps[j];
    match t.op
    case DoReport(key, source, claimed, code) =>
      key == k && Hears(w, k, source, claimed, t.now) && code == SuccessCode
    case DoAnnounce(key, _, _, _, _) => key == k && k.session != 0 && k.attempt != 0
    case DoTry(_, _, _, id) => StartsAt(steps, j) != [] && Key(id, StartsAt(steps, j)[0].attempt) == k
    case DoTryManual(_, _, _, id) => StartsAt(steps, j) != [] && Key(id, StartsAt(steps, j)[0].attempt) == k
    case _ => false
  }

  /** The last word on session `k` before step `i` was the failure at step `j`. */
  ghost predicate LastWordFailed(steps: seq<Timed>, i: nat, k: Key, j: nat)
    requires i <= |steps|
  {
    j < i && SessionFailsAt(steps, j, k) && forall m :: j < m < i ==> !SessionRevivedAt(steps, m, k)
  }

  lemma FallbackStep(steps: seq<Timed>, i: nat, k: Key)
    requires i < |steps| && k in TraceAt(steps, i + 1).watch
    ensures var w, w' := TraceAt(steps, i).watch, TraceAt(steps, i + 1).watch;
      && !(SessionFailsAt(steps, i, k) && SessionRevivedAt(steps, i, k))
      && (SessionFailsAt(steps, i, k) ==> w'[k].fallback) && (SessionRevivedAt(steps, i, k) ==> !w'[k].fallback)
      && (!SessionFailsAt(steps, i, k) && !SessionRevivedAt(steps, i, k) ==>
            k in w && w'[k].fallback == w[k].fallback)
  {
    hide Apply;
  }

  lemma LastWordNext(steps: seq<Timed>, i: nat, k: Key, j: nat)
    requires i < |steps|
    ensures LastWordFailed(steps, i + 1, k, j) <==>
      if j == i then SessionFailsAt(steps, i, k)
      else LastWordFailed(steps, i, k, j) && !SessionRevivedAt(steps, i, k)
  {
    hide TraceAt, SessionFailsAt, SessionRevivedAt;
  }

  lemma NeverWatched(steps: seq<Timed>, k: Key)
    ensures k !in TraceAt(steps, 0).watch
  {
  }

  lemma {:induction false} FallbackOfWatch(steps: seq<Timed>, i: nat, k: Key)
    requires i <= |steps| && k in TraceAt(steps, i).watch
    ensures TraceAt(steps, i).watch[k].fallback <==> exists j :: LastWordFailed(steps, i, k, j)
  {
    hide TraceAt, SessionFailsAt, SessionRevivedAt, LastWordFailed;
    NeverWatched(steps, k);
    var before: nat := i - 1;
    FallbackStep(steps, before, k);
    LastWordNext(steps, before, k, before);
    if j: nat :| LastWordFailed(steps, i, k, j) { LastWordNext(steps, before, k, j); }
    if k in TraceAt(steps, before).watch {
      FallbackOfWatch(steps, before, k);
      if j: nat :| LastWordFailed(steps, before, k, j) {
        FailedBefore(steps, before, k, j);
        LastWordNext(steps, before, k, j);
      }
    }
  }

  lemma FailedBefore(steps: seq<Timed>, i: nat, k: Key, j: nat)
    requires i <= |steps| && LastWordFailed(steps, i, k, j)
    ensures j < i
  {
  }

  /** Over every run a stored session is marked for the relay exactly when the last word on it was a failure; an
      acceptance that comes after does not take the mark away. */
  lemma RelayFallbackExactly(steps: seq<Timed>, i: nat, k: Key)
    requires Ordered(steps) && i <= |steps| && k in TraceAt(steps, i).state.sessions
    ensures TraceAt(steps, i).state.sessions[k].0.relayFallback <==> exists j :: LastWordFailed(steps, i, k, j)
  {
    RunWatches(steps, i);
    hide TraceAt;
    FallbackOfWatch(steps, i, k);
  }
}
