/** What a status report brings about: punches with exactly the peers that can be connected and whose pair the
    ledger permits, one of them or, for a manual request that names no peer, all. */
module PunchStatus {
  import opened Text
  import opened Punch
  import opened PunchRuns
  import opened PunchControl

  type Ledgers = Pair -> Ledger

  ghost predicate AllAgree(s: State, ls: Ledgers, now: int) {
    forall p :: Agrees(s, ls(p), p, now)
  }

  /** Two different clients online with a status and endpoints, neither of which prefers the relay. */
  predicate BothReady(clients: Peers, src: uint32, t: uint32) {
    && src != t && src in clients && t in clients
    && clients[src].online && clients[src].hasStatus && clients[src].hasEndpoints && !clients[src].prefersRelay
    && clients[t].online && clients[t].hasStatus && clients[t].hasEndpoints && !clients[t].prefersRelay
  }

  /** How many of the two report a direct path to the other. */
  function DirectReports(clients: Peers, src: uint32, t: uint32): nat
    requires src in clients && t in clients
  {
    (if t in clients[src].direct then 1 else 0) + (if src in clients[t].direct then 1 else 0)
  }

  /** The report of `src` calls for a punch with `t`: a plain status update unless either reports a direct path, any
      other trigger unless both do, a manual request only with the peer it names, a mere report never. */
  predicate CallsFor(clients: Peers, src: uint32, t: uint32) {
    && BothReady(clients, src, t)
    && match clients[src].trigger
       case StatusUpdate => DirectReports(clients, src, t) == 0
       case ManualRequest => clients[src].recoveryTarget in {0, t} && DirectReports(clients, src, t) < 2
       case ReportOnly => false
       case OtherTrigger => DirectReports(clients, src, t) < 2
  }

  lemma EligibleCalls(clients: Peers, src: uint32, t: uint32)
    ensures CallsFor(clients, src, t) <==>
      Eligible(clients, src, t) && clients[src].hasEndpoints && clients[t].hasEndpoints
  {
  }

  /** ... and the ledger of the pair permits it. */
  ghost predicate Startable(ls: Ledgers, clients: Peers, src: uint32, t: uint32, now: int) {
    && CallsFor(clients, src, t)
    && var l := ls(PairOf(src, t));
    if clients[src].trigger == ManualRequest then MayStartManually(l, now) else MayStart(l, now)
  }

  ghost predicate Started(starts: seq<Start>, p: Pair) {
    exists x :: x in starts && x.pair == p
  }

  /** The ledger of the pair once the peers in `tries` have been tried. */
  ghost function LedgerAfter(s: State, clients: Peers, src: uint32, tries: seq<uint32>, ids: seq<uint64>, now: int,
                             l: Ledger, p: Pair): Ledger
    requires src in clients && |tries| <= |ids| && forall t :: t in tries ==> t in clients
  {
    if tries == [] then l
    else
      var n := |tries| - 1;
      assert tries[n] in tries && forall t :: t in tries[..n] ==> t in tries;
      var before := RunTries(s, clients, src, tries[..n], ids, now);
      var op := TryOf(clients, src, tries[n], ids[n]);
      Noted(LedgerAfter(s, clients, src, tries[..n], ids, now, l, p), map[], before.state.sessions.Keys, Timed(op, now),
            Apply(before.state, op, now).starts, p)
  }

  lemma {:induction false} TriesAgree(s: State, clients: Peers, src: uint32, tries: seq<uint32>, ids: seq<uint64>,
                                      now: int, l: Ledger, p: Pair)
    requires src in clients && |tries| <= |ids| && forall t :: t in tries ==> t in clients
    requires Agrees(s, l, p, now) && now >= 0
    ensures Agrees(RunTries(s, clients, src, tries, ids, now).state,
                   LedgerAfter(s, clients, src, tries, ids, now, l, p), p, now)
  {
    if tries != [] {
      var n := |tries| - 1;
      assert tries[n] in tries && forall t :: t in tries[..n] ==> t in tries;
      var before := RunTries(s, clients, src, tries[..n], ids, now).state;
      var l1, op := LedgerAfter(s, clients, src, tries[..n], ids, now, l, p), TryOf(clients, src, tries[n], ids[n]);
      hide Agrees, Try, TryManual, Noted;
      TriesAgree(s, clients, src, tries[..n], ids, now, l, p);
      if op.DoTry? { TryAgrees(before, l1, p, map[], op.src, op.tgt, op.ready, op.id, now); }
      else { TryManualAgrees(before, l1, p, map[], op.src, op.tgt, op.ready, op.id, now); }
    }
  }

  /** A pair not started yet may start as before; a pair just started may not. */
  ghost predicate Settled(l: Ledger, l': Ledger, manual: bool, started: bool, now: int) {
    if started then if manual then l'.manual == Some(now) else l'.started == Some(now)
    else if manual then l'.manual == l.manual else l' == l
  }

  lemma TryNotes(l: Ledger, stored: set<Key>, op: Op, now: int, starts: seq<Start>, p: Pair)
    requires op.DoTry? || op.DoTryManual?
    requires |starts| <= 1 &&
      (starts != [] ==> starts[0].manual == op.DoTryManual? && starts[0].pair == PairOf(op.src, op.tgt))
    ensures var l' := Noted(l, map[], stored, Timed(op, now), starts, p);
      Settled(l, l', op.DoTryManual?, starts != [] && starts[0].pair == p, now)
      && (op.DoTryManual? && starts == [] ==> l'.manual == l.manual) && (op.DoTry? && starts == [] ==> l' == l)
  {
  }

  lemma OneStart(s: State, op: Op, now: int)
    requires op.DoTry? || op.DoTryManual?
    ensures var starts := Apply(s, op, now).starts;
      && |starts| <= 1
      && (starts != [] ==>
            starts[0].manual == op.DoTryManual? && starts[0].pair == PairOf(op.src, op.tgt) && starts[0].at == now)
  {
    hide Backoff, Launch;
  }

  lemma {:induction false} TriesSettle(s: State, clients: Peers, src: uint32, tries: seq<uint32>, ids: seq<uint64>,
                                       now: int, l: Ledger, p: Pair)
    requires src in clients && |tries| <= |ids| && forall t :: t in tries ==> t in clients
    ensures Settled(l, LedgerAfter(s, clients, src, tries, ids, now, l, p), clients[src].trigger == ManualRequest,
                    Started(RunTries(s, clients, src, tries, ids, now).starts, p), now)
  {
    if tries != [] {
      var n := |tries| - 1;
      assert tries[n] in tries && forall t :: t in tries[..n] ==> t in tries;
      var before := RunTries(s, clients, src, tries[..n], ids, now);
      var l1, op := LedgerAfter(s, clients, src, tries[..n], ids, now, l, p), TryOf(clients, src, tries[n], ids[n]);
      hide Try, TryManual, Noted, Apply;
      TriesSettle(s, clients, src, tries[..n], ids, now, l, p);
      OneStart(before.state, op, now);
      var starts := Apply(before.state, op, now).starts;
      TryNotes(l1, before.state.sessions.Keys, op, now, starts, p);
      assert Started(before.starts + starts, p) <==> Started(before.starts, p) || (starts != [] && starts[0].pair == p);
    }
  }

  /** One peer, after others: it is started exactly when the report calls for it and the ledger permitted it before
      the report, unless its pair was started already. */
  lemma NextTry(s: State, ls: Ledgers, clients: Peers, src: uint32, tries: seq<uint32>, ids: seq<uint64>, now: int,
                t: uint32)
    requires AllAgree(s, ls, now) && now >= 0 && |tries| < |ids|
    requires Eligible(clients, src, t) && forall u :: u in tries ==> u in clients
    ensures var before := RunTries(s, clients, src, tries, ids, now);
      var starts, p := Apply(before.state, TryOf(clients, src, t, ids[|tries|]), now).starts, PairOf(src, t);
      && |starts| <= 1 && (starts != [] ==> starts[0].pair == p && starts[0].at == now)
      && (starts != [] <==> Startable(ls, clients, src, t, now) && !Started(before.starts, p))
  {
    var before, p := RunTries(s, clients, src, tries, ids, now), PairOf(src, t);
    var l, l' := ls(p), LedgerAfter(s, clients, src, tries, ids, now, ls(p), p);
    var op := TryOf(clients, src, t, ids[|tries|]);
    assert Agrees(s, l, p, now);
    TriesAgree(s, clients, src, tries, ids, now, l, p);
    TriesSettle(s, clients, src, tries, ids, now, l, p);
    EligibleCalls(clients, src, t);
    OneStart(before.state, op, now);
    hide Try, TryManual, Agrees, AllAgree, RunTries, LedgerAfter, CallsFor, Eligible, Started;
    if op.DoTry? {
      TryDecides(before.state, l', op.src, op.tgt, op.ready, op.id, now);
    } else {
      TryManualDecides(before.state, l', op.src, op.tgt, op.ready, op.id, now);
    }
  }

  /** A peer among `tries` that is startable, whose pair is `p`. */
  ghost predicate Calls(ls: Ledgers, clients: Peers, src: uint32, tries: seq<uint32>, now: int, p: Pair) {
    exists t :: t in tries && PairOf(src, t) == p && Startable(ls, clients, src, t, now)
  }

  lemma CallsNext(ls: Ledgers, clients: Peers, src: uint32, tries: seq<uint32>, t: uint32, now: int, p: Pair)
    ensures Calls(ls, clients, src, tries + [t], now, p) <==>
      Calls(ls, clients, src, tries, now, p) || (PairOf(src, t) == p && Startable(ls, clients, src, t, now))
  {
    hide Startable, PairOf;
  }

  lemma StartedNext(before: seq<Start>, starts: seq<Start>, p: Pair)
    requires |starts| <= 1
    ensures Started(before + starts, p) <==> Started(before, p) || (starts != [] && starts[0].pair == p)
  {
  }

  /** The punches started are with peers the report calls for and the ledger permits, and of the peers tried every
      such one is started. */
  lemma {:induction false} StartsExactly(s: State, ls: Ledgers, clients: Peers, src: uint32, tries: seq<uint32>,
                                         ids: seq<uint64>, now: int, p: Pair)
    requires AllAgree(s, ls, now) && now >= 0 && src in clients && |tries| <= |ids|
    requires forall t :: t in tries ==> t in clients && Eligible(clients, src, t)
    ensures Started(RunTries(s, clients, src, tries, ids, now).starts, p) <==> Calls(ls, clients, src, tries, now, p)
  {
    if tries != [] {
      hide Eligible, Apply, TryOf, Startable, AllAgree, Started, Calls, PairOf;
      var n := |tries| - 1;
      var t := tries[n];
      assert t in tries && forall u :: u in tries[..n] ==> u in tries;
      assert tries == tries[..n] + [t];
      StartsExactly(s, ls, clients, src, tries[..n], ids, now, p);
      NextTry(s, ls, clients, src, tries[..n], ids, now, t);
      CallsNext(ls, clients, src, tries[..n], t, now, p);
      var before := RunTries(s, clients, src, tries[..n], ids, now);
      StartedNext(before.starts, Apply(before.state, TryOf(clients, src, t, ids[n]), now).starts, p);
    }
  }

  /** A whole status report in any reachable state: every punch is with a peer it calls for and the ledger permits;
      nothing is started exactly when there is no such peer; and a manual request that names no peer starts one with
      each. */
  lemma StatusReport(steps: seq<Timed>, i: nat, clients: Peers, src: uint32, tries: seq<uint32>, ids: seq<uint64>,
                     now: int)
    requires Ordered(steps) && i <= |steps| && Clock(steps, i) <= now && 0 <= now && src in clients && |tries| <= |ids|
    requires forall t :: t in tries ==> t in clients && Eligible(clients, src, t)
    requires var starts := RunTries(TraceAt(steps, i).state, clients, src, tries, ids, now).starts;
      starts == [] || FanOut(clients[src]) ==> forall t :: Eligible(clients, src, t) ==> t in tries
    ensures var starts := RunTries(TraceAt(steps, i).state, clients, src, tries, ids, now).starts;
      var ls := p => LedgerAt(steps, i, p);
      && (forall p :: Started(starts, p) ==> exists t :: PairOf(src, t) == p && Startable(ls, clients, src, t, now))
      && (starts == [] <==> forall t :: !Startable(ls, clients, src, t, now))
      && (clients[src].trigger == ManualRequest && clients[src].recoveryTarget == 0 ==>
            forall t :: Startable(ls, clients, src, t, now) ==> Started(starts, PairOf(src, t)))
  {
    var s, ls := TraceAt(steps, i).state, p => LedgerAt(steps, i, p);
    var starts := RunTries(s, clients, src, tries, ids, now).starts;
    forall p ensures Agrees(s, ls(p), p, now) {
      RunAgrees(steps, i, p);
      AgreesLater(s, ls(p), p, Clock(steps, i), now);
    }
    hide TraceAt, LedgerAt, RunTries, Agrees;
    forall p ensures Started(starts, p) <==> Calls(ls, clients, src, tries, now, p) {
      StartsExactly(s, ls, clients, src, tries, ids, now, p);
    }
    forall t ensures Startable(ls, clients, src, t, now) ==>
      Eligible(clients, src, t) { EligibleCalls(clients, src, t); }
    hide Eligible, Startable;
    forall t | t in tries && Startable(ls, clients, src, t, now) ensures Started(starts, PairOf(src, t)) {
      assert Calls(ls, clients, src, tries, now, PairOf(src, t));
    }
    if starts != [] { assert Started(starts, starts[0].pair); }
  }
}
