/** Runs of the gateway engine, from the approvals loaded at the start, that end with a grant for another device in
    a caller's list and with NO_CHANGE for a session nobody holds. */
module GatewayShortfalls {
  import opened Text
  import opened Ranking
  import opened Gateway
  import opened GatewayGrants
  import opened GatewayRefresh
  import opened GatewayRuns

  const DAY: int := 24 * 3600 * SECOND
  const EARLY: int := SECOND
  const LATE: int := EARLY + LEASE + SECOND

  /** One gateway is approved. */
  const START: State := State(Config("default", DAY, 600 * SECOND), map[], map["g" := "e"], map[], map[], "", 0)

  const CHANNEL: Channel := Channel(0, "e", "", "", [])
  const REPORT: Report := Report("g", [], Some(CHANNEL), "e", false, 1)
  const NODE: Node := Node("g", "e", [], [CHANNEL], EARLY)

  /** The call of a client as it registers. */
  function Joining(o: Owner): Call {
    Call(o, false, true, 0, false, {})
  }

  function Refreshing(o: Owner, session: uint64): Call {
    Call(o, true, true, session, false, {})
  }

  /** The gateway reports and a client is served, both at once. */
  function Steps(o: Owner): seq<Timed> {
    [Timed(DoReport(REPORT, true), EARLY), Timed(DoServe(Joining(o)), EARLY)]
  }

  function Entry(o: Owner): Cached {
    var g := Mint(START.conf, o, NODE, SessionId(EARLY, 0), 1, EARLY);
    Cached("g", NodeFingerprint(NODE), g.expireMs, g)
  }

  lemma Reported()
    ensures Admit(START, REPORT, true, EARLY).1 == START.(nodes := map["g" := NODE])
  {
    TrimSound("g");
    TrimSound("e");
    hide Trim;
    assert START.allow["g" := "e"] == START.allow && START.nodes["g" := NODE] == map["g" := NODE];
    assert START.seen - {"g"} == map[];
  }

  lemma NodeAlive(s: State, now: int)
    requires s.nodes == map["g" := NODE] && s.allow == START.allow && s.conf == START.conf
    ensures Approved(s, NODE) && (now <= EARLY + LEASE ==> AliveIds(s, now) == {"g"}) &&
      (now > EARLY + LEASE ==> AliveIds(s, now) == {})
  {
    TrimSound("e");
    hide Trim;
  }

  lemma AloneInList(s: State, now: int)
    requires Good(s) && s.nodes == map["g" := NODE] && AliveIds(s, now) == {"g"}
    ensures AliveList(s, now) == [NODE]
  {
    AliveListSound(s, now);
    var l := AliveList(s, now);
    RankedDistinct(s.conf.defaultId, NodeId, l);
    assert |l| > 1 ==> NodeId(l[0]) != NodeId(l[1]);
    assert NODE in l;
    forall i | 0 <= i < |l| ensures l[i] == NODE { assert l[i] in l; }
  }

  lemma NobodyInList(s: State, now: int)
    requires AliveIds(s, now) == {}
    ensures AliveList(s, now) == []
  {
  }

  /** The first client gets a new grant, which is cached. */
  lemma FirstServed(s: State, o: Owner)
    requires Good(s) && s == START.(nodes := map["g" := NODE])
    ensures var s' := Served(s, Joining(o), EARLY);
      s'.nodes == s.nodes && s'.allow == s.allow && s'.conf == s.conf && s'.cache == map[Key(o, "g") := Entry(o)]
  {
    NodeAlive(s, EARLY);
    AloneInList(s, EARLY);
    FingerprintNotEmpty();
    assert Pruned(s, EARLY) == map[];
    var p := Prepared(s, EARLY);
    assert p.rev == 1 && p.cache == map[];
    hide Key, NodeFingerprint, Fingerprint, AliveList;
    assert IssueAll(p, Joining(o), false, [NODE], 0, EARLY) == Batch([], false, map[]);
    assert IssueAll(p, Joining(o), false, [NODE], 1, EARLY).cache == map[Key(o, "g") := Entry(o)];
  }

  lemma FingerprintNotEmpty()
    ensures Fingerprint([NODE]) != ""
  {
    assert NodeFingerprints([NODE]) == [NodeFingerprint(NODE)];
  }

  /** The state the two steps lead to. */
  lemma Reached(o: Owner)
    requires '|' !in Trim(o.net)
    ensures var s := StateAt(START, Steps(o), 2);
      && Good(s) && Owned(s, true) && s.nodes == map["g" := NODE] && s.allow == START.allow && s.conf == START.conf
      && s.cache == map[Key(o, "g") := Entry(o)]
  {
    StartGood(START.conf, START.allow, true);
    RunGood(START, Steps(o), 1);
    RunGood(START, Steps(o), 2);
    RunOwned(START, Steps(o), 2, true);
    Reported();
    assert StateAt(START, Steps(o), 0) == START;
    assert StateAt(START, Steps(o), 1) == START.(nodes := map["g" := NODE]);
    FirstServed(StateAt(START, Steps(o), 1), o);
  }

  lemma EntryFresh(s: State, o: Owner)
    requires s.nodes == map["g" := NODE] && s.allow == START.allow && s.conf == START.conf
    ensures Fresh(s, Entry(o), LATE)
  {
    NodeAlive(s, LATE);
  }

  /** Device `a` calls a second after the gateway's lease has run out, and is handed the grant signed for `a|b`. */
  lemma StrangersGrantHandedOut(net: string, ip: uint32, a: string, b: string, call: Call, order: seq<string>)
    requires '|' !in Trim(net) && call.owner == Owner(net, ip, a) && call.retain
    requires RetainedWalk(StateAt(START, Steps(Owner(net, ip, a + "|" + b)), 2), call, LATE, order)
    ensures var s := StateAt(START, Steps(Owner(net, ip, a + "|" + b)), 2);
      exists x :: x in GrantList(s, call, LATE, order) && x.ticket.device == a + "|" + b != a
  {
    var o' := Owner(net, ip, a + "|" + b);
    Reached(o');
    var s := StateAt(START, Steps(o'), 2);
    NodeAlive(s, LATE);
    EntryFresh(s, o');
    hide StateAt, Good, Owned, Trim, Fresh, GrantList, RetainedWalk;
    StrangersGrantListed(s, call, LATE, order, o', Key(o', "g"), true);
  }

  /** The same client refreshes then, under a session that no entry holds, and is told that nothing has changed. */
  lemma NoChangeForUnknownSession(o: Owner, session: uint64, order: seq<string>)
    requires '|' !in Trim(o.net) && session != 0 && session != SessionId(EARLY, 0)
    requires RetainedWalk(StateAt(START, Steps(o), 2), Refreshing(o, session), LATE, order)
    ensures var s, call := StateAt(START, Steps(o), 2), Refreshing(o, session);
      && !(exists k :: k in s.cache && s.cache[k].grant.session == session)
      && RefreshVerdict(s, call, Served(s, call, LATE).rev, LATE, order) == NoChange
  {
    Reached(o);
    var s, call := StateAt(START, Steps(o), 2), Refreshing(o, session);
    NodeAlive(s, LATE);
    NobodyInList(s, LATE);
    EntryFresh(s, o);
    OwnedKeysTell(s, o, true);
    OwnNotOverwritten(s, call, Key(o, "g"), LATE);
    KeyHasPrefix(o, "g");
    assert !exists x :: Slotted(s, call, LATE, x);
    hide StateAt, Good, Owned, Trim, Fresh, GrantList, RetainedWalk, Key, Prefix, AliveList, KeysTell;
    assert Silent(s, call, Key(o, "g"), LATE);
    SilentRefreshIgnoresSession(s, call, LATE, order);
  }
}
