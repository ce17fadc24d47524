/** The punch coordinator as the controller runs it, on four expiring maps. */
module PunchControl {
  import opened Text
  import opened TimedMap
  import opened Punch

  datatype Trigger = StatusUpdate | ManualRequest | ReportOnly | OtherTrigger

  /** What a client last reported. */
  datatype Peer = Peer(online: bool, hasStatus: bool, trigger: Trigger, recoveryTarget: uint32, direct: set<uint32>,
                       prefersRelay: bool, hasEndpoints: bool)

  type Peers = map<uint32, Peer>

  predicate Suppressed(trigger: Trigger, a: Peer, aIP: uint32, b: Peer, bIP: uint32) {
    || a.prefersRelay || b.prefersRelay
    || (if trigger == StatusUpdate then bIP in a.direct || aIP in b.direct else bIP in a.direct && aIP in b.direct)
  }

  function Wanted(c: Peer): uint32 {
    if c.trigger == ManualRequest then c.recoveryTarget else 0
  }

  /** The peers a report of `src` is about. */
  predicate Eligible(clients: Peers, src: uint32, t: uint32) {
    && src in clients && clients[src].online && clients[src].hasStatus
    && t in clients && t != src && clients[t].online && clients[t].hasStatus
    && (Wanted(clients[src]) == 0 || t == Wanted(clients[src]))
    && clients[src].trigger != ReportOnly
    && !Suppressed(clients[src].trigger, clients[src], src, clients[t], t)
  }

  function TryOf(clients: Peers, src: uint32, t: uint32, id: uint64): Op
    requires src in clients && t in clients
  {
    var ready := clients[src].hasEndpoints && clients[t].hasEndpoints;
    if clients[src].trigger == ManualRequest then DoTryManual(src, t, ready, id) else DoTry(src, t, ready, id)
  }

  /** The peers in `tries`, one after the other, under successive session ids. */
  function RunTries(s: State, clients: Peers, src: uint32, tries: seq<uint32>, ids: seq<uint64>, now: int): Step
    requires src in clients && |tries| <= |ids| && forall t :: t in tries ==> t in clients
  {
    if tries == [] then Step(s, [])
    else
      var n := |tries| - 1;
      assert forall t :: t in tries[..n] ==> t in tries;
      assert tries[n] in tries;
      var before := RunTries(s, clients, src, tries[..n], ids, now);
      var r := Apply(before.state, TryOf(clients, src, tries[n], ids[n]), now);
      Step(r.state, before.starts + r.starts)
  }

  /** A manual request that names no peer. */
  predicate FanOut(c: Peer) {
    c.trigger == ManualRequest && c.recoveryTarget == 0
  }

  function RunSweeps(s: State, keys: seq<Key>, now: int): State {
    if keys == [] then s
    else
      var n := |keys| - 1;
      Sweep(RunSweeps(s, keys[..n], now), keys[n], now).state
  }

  class PunchControl {
    const sessions: ExpireMap<Key, Session>
    const cooldown: ExpireMap<Pair, ()>
    const dedup: ExpireMap<Pair, ()>
    const retry: ExpireMap<Pair, Retry>

    ghost predicate Valid()
      reads this, sessions, cooldown, dedup, retry
    {
      && sessions.Valid() && cooldown.Valid() && dedup.Valid() && retry.Valid() && cooldown != dedup
      && sessions.ttl == SESSION_TTL && cooldown.ttl == COOLDOWN && dedup.ttl == MANUAL_WINDOW && retry.ttl == RETRY_TTL
    }

    ghost function Model(): State
      reads this, sessions, cooldown, dedup, retry
    {
      State(sessions.Entries(), cooldown.Entries(), dedup.Entries(), retry.Entries())
    }

    constructor ()
      ensures Valid() && Model() == EMPTY
      ensures fresh(sessions) && fresh(cooldown) && fresh(dedup) && fresh(retry)
    {
      sessions := new ExpireMap(SESSION_TTL);
      cooldown := new ExpireMap(COOLDOWN);
      dedup := new ExpireMap(MANUAL_WINDOW);
      retry := new ExpireMap(RETRY_TTL);
    }

    // -------------------------------------------------------------- starting

    method Launch(src: uint32, tgt: uint32, id: uint64, attempt: uint32, now: int)
      requires Valid()
      modifies sessions, cooldown
      ensures Valid() && Model() == Punch.Launch(old(Model()), src, tgt, id, attempt, now)
    {
      hide ExpireMap.Entries;
      sessions.Set(Key(id, attempt), NewSession(src, tgt, now), now);
      cooldown.Set(PairOf(src, tgt), (), now);
    }

    method TryPeer(src: uint32, tgt: uint32, ready: bool, id: uint64, now: int) returns (attempt: Option<uint32>)
      requires Valid()
      modifies sessions, cooldown, retry
      ensures Valid()
      ensures Step(Model(), if attempt.Some? then [Start(PairOf(src, tgt), now, false, attempt.value)] else []) ==
              Try(old(Model()), src, tgt, ready, id, now)
    {
      hide ExpireMap.Entries;
      var p := PairOf(src, tgt);
      var cooling := cooldown.Get(p, now);
      if cooling != None {
        return None;
      }
      var state := retry.Get(p, now);
      if state != None {
        if state.value.attempt >= MAX_ATTEMPTS {
          return None;
        }
        if now / MILLI < state.value.nextAllowedMs {
          return None;
        }
      }
      if !ready {
        return None;
      }
      var n := if state != None then state.value.attempt + 1 else 1;
      Launch(src, tgt, id, n, now);
      return Some(n);
    }

    method TryPeerManually(src: uint32, tgt: uint32, ready: bool, id: uint64, now: int)
      returns (attempt: Option<uint32>)
      requires Valid()
      modifies sessions, cooldown, dedup, retry
      ensures Valid() && (attempt.Some? ==> attempt.value == 1)
      ensures var p := PairOf(src, tgt);
        Step(Model(), if attempt.Some? then [Start(p, now, true, 1)] else []) ==
        TryManual(old(Model()), src, tgt, ready, id, now)
    {
      hide ExpireMap.Entries;
      var p := PairOf(src, tgt);
      retry.Delete(p);
      if !ready {
        return None;
      }
      var claimed := dedup.TrySetIfAbsent(p, (), now);
      if !claimed {
        return None;
      }
      Launch(src, tgt, id, 1, now);
      return Some(1);
    }

    // --------------------------------------------------------------- outcomes

    method Conclude(p: Pair, success: bool, now: int)
      requires Valid()
      modifies cooldown, retry
      ensures Valid() && Model() == Punch.Conclude(old(Model()), p, success, now)
    {
      hide ExpireMap.Entries;
      cooldown.Delete(p);
      if success {
        retry.Delete(p);
      } else {
        var state := retry.Get(p, now);
        var attempt := ((if state != None then state.value.attempt else 0) + 1) % TWO32;
        retry.Set(p, Retry(attempt, (now + Backoff(attempt)) / MILLI), now);
      }
    }

    /** A client's own session; invalid requests and unknown targets are refused. */
    method HandlePunchRequest(k: Key, source: uint32, claimed: uint32, target: uint32, registered: bool, budget: uint32,
                              deadlineMs: int, now: int)
      returns (ok: bool)
      requires Valid()
      modifies sessions
      ensures Valid() && ok == ((claimed == 0 || claimed == source) && k.session != 0 && k.attempt != 0 && registered)
      ensures Model() == if ok then Announce(old(Model()), k, source, target, budget, deadlineMs, now).state
        else old(Model())
    {
      hide ExpireMap.Entries;
      if claimed != 0 && claimed != source {
        return false;
      }
      if k.session == 0 || k.attempt == 0 || !registered {
        return false;
      }
      var session := Session(source, target, if budget == 0 then MAX_ATTEMPTS else budget,
                             if deadlineMs == 0 then (now + SESSION_LENGTH) / MILLI else deadlineMs,
                             Scheduled, false, map[source := true], map[]);
      sessions.Set(k, session, now);
      return true;
    }

    method HandlePunchAck(k: Key, source: uint32, claimed: uint32, accepted: bool, phase: Phase, now: int)
      returns (ok: bool)
      requires Valid()
      modifies sessions, cooldown, retry
      ensures Valid() && Model() == Ack(old(Model()), k, source, claimed, accepted, phase, now).state
      ensures ok == (k in At(old(sessions.Entries()), now) && (claimed == 0 || claimed == source))
    {
      hide Strike, Backoff, ExpireMap.Entries, Acked, Concluded;
      var found := sessions.Get(k, now);
      if found == None {
        return false;
      }
      if claimed != 0 && claimed != source {
        return false;
      }
      if !accepted {
        Conclude(PairOf(found.value.source, found.value.target), false, now);
      }
      sessions.Set(k, Acked(found.value, source, accepted, phase), now);
      return true;
    }

    method HandlePunchResult(k: Key, source: uint32, claimed: uint32, code: Code, now: int) returns (ok: bool)
      requires Valid()
      modifies sessions, cooldown, retry
      ensures Valid() && Model() == Report(old(Model()), k, source, claimed, code, now).state
      ensures ok == (k in At(old(sessions.Entries()), now) && (claimed == 0 || claimed == source))
    {
      hide Strike, Backoff, ExpireMap.Entries, Acked, Concluded;
      var found := sessions.Get(k, now);
      if found == None {
        return false;
      }
      if claimed != 0 && claimed != source {
        return false;
      }
      Conclude(PairOf(found.value.source, found.value.target), code == SuccessCode, now);
      sessions.Set(k, Concluded(found.value, source, code), now);
      return true;
    }

    // ----------------------------------------------------------------- the sweep

    method SweepOne(k: Key, now: int)
      requires Valid() && k in sessions.data
      modifies sessions, cooldown, retry
      ensures Valid() && Model() == Sweep(old(Model()), k, now).state
      ensures sessions.data.Keys == old(sessions.data.Keys) && !Overdue(sessions.data[k], now / MILLI)
      ensures forall j :: j in sessions.data && j != k ==> sessions.data[j] == old(sessions.data)[j]
    {
      var session := sessions.data[k];
      if Pending(session) && session.deadlineMs > 0 && now / MILLI > session.deadlineMs {
        sessions.data := sessions.data[k := TimedOut(session)];
        assert sessions.Entries() == old(sessions.Entries())[k := (TimedOut(session), old(sessions.Entries())[k].1)];
        Conclude(PairOf(session.source, session.target), false, now);
      }
    }

    /** Every stored session is looked at once, in whatever order; none overdue is left pending. */
    method ReconcilePunchSessions(now: int) returns (ghost order: seq<Key>)
      requires Valid()
      modifies sessions, cooldown, retry
      ensures Valid() && Model() == RunSweeps(old(Model()), order, now)
      ensures forall k :: k in order <==> k in old(sessions.data)
      ensures forall k :: k in sessions.data ==> !Overdue(sessions.data[k], now / MILLI)
    {
      assert RunSweeps(Model(), [], now) == Model();
      hide RunSweeps, Sweep, Overdue, ExpireMap.Entries, ExpireMap.Valid;
      order := [];
      var todo := sessions.data.Keys;
      ghost var s, keys := Model(), sessions.data.Keys;
      while todo != {}
        invariant Valid() && Model() == RunSweeps(s, order, now)
        invariant sessions.data.Keys == keys && todo <= keys
        invariant forall k :: k in order <==> k in keys && k !in todo
        invariant NoneOverdue(sessions.data, keys - todo, now)
        decreases todo
      {
        var key :| key in todo;
        ghost var before := sessions.data;
        SweepOne(key, now);
        SweepNext(s, order, key, now);
        NoneOverdueNext(before, sessions.data, keys - todo, key, now);
        order := order + [key];
        todo := todo - {key};
        assert keys - todo == keys - (todo + {key}) + {key};
      }
    }

    // --------------------------------------------------------- a status report

    method TryOne(clients: Peers, src: uint32, t: uint32, id: uint64, now: int) returns (starts: seq<Start>)
      requires Valid() && src in clients && t in clients
      modifies sessions, cooldown, dedup, retry
      ensures Valid() && Model() == Apply(old(Model()), TryOf(clients, src, t, id), now).state
      ensures starts == Apply(old(Model()), TryOf(clients, src, t, id), now).starts && |starts| <= 1
    {
      hide Try, TryManual, ExpireMap.Entries;
      var ready := clients[src].hasEndpoints && clients[t].hasEndpoints;
      if clients[src].trigger == ManualRequest {
        var attempt := TryPeerManually(src, t, ready, id, now);
        starts := if attempt == None then [] else [Start(PairOf(src, t), now, true, 1)];
      } else {
        var attempt := TryPeer(src, t, ready, id, now);
        starts := if attempt == None then [] else [Start(PairOf(src, t), now, false, attempt.value)];
      }
    }

    /** A status report: eligible peers are tried in whatever order until one punch starts; a manual
        request that names no peer tries them all. */
    method BuildPunchStartsFromStatus(clients: Peers, src: uint32, ids: seq<uint64>, now: int)
      returns (starts: seq<Start>, ghost tries: seq<uint32>)
      requires Valid() && |clients| <= |ids|
      modifies sessions, cooldown, dedup, retry
      ensures Valid() && (src !in clients ==> Model() == old(Model()) && starts == [])
      ensures |tries| <= |ids| && forall t :: t in tries ==> t in clients && Eligible(clients, src, t)
      ensures src in clients ==> Model() == RunTries(old(Model()), clients, src, tries, ids, now).state
      ensures src in clients ==> starts == RunTries(old(Model()), clients, src, tries, ids, now).starts
      ensures src in clients && (clients[src].trigger != ManualRequest || clients[src].recoveryTarget != 0) ==>
        |starts| <= 1
      ensures src in clients && (starts == [] || FanOut(clients[src])) ==> forall t :: Eligible(clients, src, t) ==>
        t in tries
    {
      starts, tries := [], [];
      if src !in clients || !clients[src].online || !clients[src].hasStatus {
        return;
      }
      assert RunTries(Model(), clients, src, [], ids, now) == Step(Model(), []);
      assert forall t :: Eligible(clients, src, t) ==> t in clients.Keys;
      hide Eligible, Apply, TryOf, ExpireMap.Entries, ExpireMap.Valid, RunTries;
      var todo, k := clients.Keys, 0;
      while todo != {}
        invariant Valid() && todo <= clients.Keys && k == |tries| && k + |todo| <= |clients|
        invariant forall t :: t in tries ==> t in clients && Eligible(clients, src, t)
        invariant Model() == RunTries(old(Model()), clients, src, tries, ids, now).state
        invariant starts == RunTries(old(Model()), clients, src, tries, ids, now).starts
        invariant !FanOut(clients[src]) ==> starts == []
        invariant forall t :: Eligible(clients, src, t) && t !in todo ==> t in tries
        decreases todo
      {
        var t :| t in todo;
        if Eligible(clients, src, t) {
          var more := TryOne(clients, src, t, ids[k], now);
          TryNext(old(Model()), clients, src, tries, t, ids, now);
          starts, tries, k := starts + more, tries + [t], k + 1;
          if more != [] && !FanOut(clients[src]) {
            return;
          }
        }
        todo := todo - {t};
      }
    }
  }

  ghost predicate NoneOverdue(sessions: map<Key, Session>, keys: set<Key>, now: int) {
    forall k :: k in keys && k in sessions ==> !Overdue(sessions[k], now / MILLI)
  }

  lemma NoneOverdueNext(before: map<Key, Session>, after: map<Key, Session>, keys: set<Key>, key: Key, now: int)
    requires NoneOverdue(before, keys, now) && key in after && after.Keys == before.Keys &&
      !Overdue(after[key], now / MILLI)
    requires forall j :: j in after && j != key ==> after[j] == before[j]
    ensures NoneOverdue(after, keys + {key}, now)
  {
    hide Overdue;
  }

  lemma SweepNext(s: State, order: seq<Key>, k: Key, now: int)
    ensures RunSweeps(s, order + [k], now) == Sweep(RunSweeps(s, order, now), k, now).state
  {
    assert (order + [k])[..|order|] == order;
  }

  lemma TryNext(s: State, clients: Peers, src: uint32, tries: seq<uint32>, t: uint32, ids: seq<uint64>, now: int)
    requires src in clients && t in clients && |tries| < |ids| && forall u :: u in tries ==> u in clients
    ensures forall u :: u in tries + [t] ==> u in clients
    ensures var b, b' := RunTries(s, clients, src, tries, ids, now), RunTries(s, clients, src, tries + [t], ids, now);
      var r := Apply(b.state, TryOf(clients, src, t, ids[|tries|]), now);
      b'.state == r.state && b'.starts == b.starts + r.starts
  {
    hide Apply, TryOf;
    assert (tries + [t])[..|tries|] == tries;
  }
}
