/** What a call to the grant engine returns and leaves behind, for every reachable state. */
module GatewayGrants {
  import opened Text
  import opened Ranking
  import opened Gateway

  // ------------------------------------------------------------------ cache keys

  predicate SameOwner(a: Owner, b: Owner) {
    Trim(a.net) == Trim(b.net) && a.ip == b.ip && a.device == b.device
  }

  lemma KeyParts(o: Owner, g: string)
    ensures Key(o, g) == Trim(o.net) + ['|'] + (Dec(o.ip) + ['|'] + (o.device + "|" + g))
    ensures '|' !in Dec(o.ip)
  {
  }

  lemma KeyHasPrefix(o: Owner, g: string)
    ensures HasPrefix(Key(o, g), Prefix(o))
  {
  }

  lemma KeyInjective(o: Owner, g: string, h: string)
    ensures Key(o, g) == Key(o, h) ==> g == h
  {
    assert Key(o, g)[|Prefix(o)|..] == g;
    assert Key(o, h)[|Prefix(o)|..] == h;
  }

  /** When a scan by prefix meets another owner's entry: same network and address, and the other
      device id together with its gateway id begins with this device id and a bar. */
  lemma PrefixMatches(o: Owner, o': Owner, g: string)
    requires '|' !in Trim(o.net) && '|' !in Trim(o'.net)
    ensures HasPrefix(Key(o', g), Prefix(o)) <==>
      Trim(o.net) == Trim(o'.net) && o.ip == o'.ip && HasPrefix(o'.device + "|" + g, o.device + "|")
  {
    var rest := o'.device + "|" + g;
    KeyParts(o', g);
    if HasPrefix(Key(o', g), Prefix(o)) {
      var more := Key(o', g)[|Prefix(o)|..];
      assert Key(o', g) == Prefix(o) + more == Key(o, more);
      KeyParts(o, more);
      SplitUnique(Trim(o.net), Dec(o.ip) + ['|'] + (o.device + "|" + more), Trim(o'.net), Dec(o'.ip) + ['|'] + rest,
                  '|');
      SplitUnique(Dec(o.ip), o.device + "|" + more, Dec(o'.ip), rest, '|');
      DecInjective(o.ip, o'.ip);
    }
    if Trim(o.net) == Trim(o'.net) && o.ip == o'.ip && HasPrefix(rest, o.device + "|") {
      var more := rest[|o.device| + 1..];
      assert rest == o.device + "|" + more;
      KeyParts(o, more);
      assert Key(o', g) == Prefix(o) + more;
    }
  }

  /** Names from which a key can be read back: no bar in the network key and, as `gate` says, none in the
      gateway id or none in the device id. */
  predicate Readable(o: Owner, g: string, gate: bool) {
    '|' !in Trim(o.net) && (if gate then '|' !in g else '|' !in o.device)
  }

  lemma KeyTells(o: Owner, g: string, o': Owner, g': string, gate: bool)
    requires Readable(o, g, gate) && Readable(o', g', gate) && Key(o, g) == Key(o', g')
    ensures SameOwner(o, o') && g == g'
  {
    KeyParts(o, g);
    KeyParts(o', g');
    SplitUnique(Trim(o.net), Dec(o.ip) + ['|'] + (o.device + "|" + g), Trim(o'.net),
                Dec(o'.ip) + ['|'] + (o'.device + "|" + g'), '|');
    SplitUnique(Dec(o.ip), o.device + "|" + g, Dec(o'.ip), o'.device + "|" + g', '|');
    DecInjective(o.ip, o'.ip);
    if gate { SplitLast(o.device, g, o'.device, g', '|'); } else { SplitUnique(o.device, g, o'.device, g', '|'); }
  }

  /** Without that a key does not tell: a bar can move from the gateway id to the device id, and with it a number
      from the device id to the network key. */
  lemma UnreadableKeysCollide(net: string, ip: uint32, j: uint32, d: string, h: string, g: string)
    requires IsTrimmed(net) && net != ""
    ensures Key(Owner(net, ip, d), h + "|" + g) == Key(Owner(net, ip, d + "|" + h), g)
    ensures Key(Owner(net, ip, Dec(j) + "|" + d), g) == Key(Owner(net + "|" + Dec(ip), j, d), g)
  {
    TrimSound(net);
    TrimWithNumber(net, ip);
    hide Trim, Dec, IsTrimmed;
    BarMoves(net + "|" + Dec(ip) + "|", d, h, g);
    BarMoves(net + "|" + Dec(ip) + "|", Dec(j), d, g);
    assert net + "|" + Dec(ip) + "|" + Dec(j) + "|" == (net + "|" + Dec(ip)) + "|" + Dec(j) + "|";
  }

  lemma TrimWithNumber(net: string, ip: uint32)
    requires IsTrimmed(net) && net != ""
    ensures Trim(net + "|" + Dec(ip)) == net + "|" + Dec(ip)
  {
    var more := net + "|" + Dec(ip);
    assert more[0] == net[0] && more[|more| - 1] == Dec(ip)[|Dec(ip)| - 1] && IsDigit(more[|more| - 1]);
    TrimSound(more);
  }

  lemma BarMoves(front: string, a: string, b: string, c: string)
    ensures front + a + "|" + (b + "|" + c) == front + (a + "|" + b) + "|" + c
    ensures front + (a + "|" + b) + "|" + c == front + a + "|" + b + "|" + c
  {
  }

  /** Owners whose entries the scan of `o` meets: its own, and devices whose id goes on after a bar. */
  predicate Meets(o: Owner, o': Owner) {
    Trim(o.net) == Trim(o'.net) && o.ip == o'.ip && (o'.device == o.device || HasPrefix(o'.device, o.device + "|"))
  }

  /** A device id that reaches past the other takes its bar, and needs another from the gateway id. */
  lemma LongerDevice(d: string, d': string, g: string)
    requires HasPrefix(d' + "|" + g, d + "|") && |d'| < |d|
    ensures '|' in d && '|' in g
  {
    var t := d' + "|" + g;
    assert t[..|d|] == d && t[|d|] == '|' && t[|d'|] == '|';
    assert d[|d'|] == '|' && g[|d| - |d'| - 1] == '|';
  }

  lemma DevicePrefix(d: string, d': string, g: string)
    requires '|' !in g || '|' !in d
    ensures HasPrefix(d' + "|" + g, d + "|") <==> d' == d || HasPrefix(d', d + "|")
  {
    var t := d' + "|" + g;
    if HasPrefix(t, d + "|") {
      assert t[..|d|] == d && t[|d|] == '|';
      if |d'| < |d| { LongerDevice(d, d', g); }
      assert |d| < |d'| ==> d'[..|d| + 1] == t[..|d| + 1] == d + "|";
      assert |d| == |d'| ==> t[..|d'|] == d';
    }
  }

  /** For readable names the scan meets exactly those owners' entries. */
  lemma ScanMeets(o: Owner, o': Owner, g: string, gate: bool)
    requires Readable(o, g, gate) && Readable(o', g, gate)
    ensures HasPrefix(Key(o', g), Prefix(o)) <==> Meets(o, o')
  {
    PrefixMatches(o, o', g);
    DevicePrefix(o.device, o'.device, g);
  }

  /** Without bars in device ids it meets the owner's own entries and no others. */
  lemma PrefixIsOwner(o: Owner, o': Owner, g: string)
    requires Readable(o, g, false) && Readable(o', g, false)
    ensures HasPrefix(Key(o', g), Prefix(o)) <==> SameOwner(o, o')
  {
    ScanMeets(o, o', g, false);
    assert '|' in o.device + "|";
  }

  // ------------------------------------------------------------ the invariants

  /** A cached grant and its signed ticket tell one story. */
  ghost predicate Coherent(c: Cached) {
    && c.gatewayId == c.grant.gatewayId == c.grant.ticket.gatewayId
    && c.expireMs == c.grant.expireMs == c.grant.ticket.expireMs
    && c.grant.session == c.grant.ticket.session
  }

  ghost predicate AllCoherent(cache: Cache) {
    forall k :: k in cache ==> Coherent(cache[k])
  }

  /** In every reachable state: nodes sit under their own id, each active node is in the approval table,
      and cached grants are coherent. */
  ghost predicate Good(s: State) {
    SelfNamed(s.nodes) && SelfNamed(s.seen) && s.nodes.Keys <= s.allow.Keys && AllCoherent(s.cache)
  }

  ghost predicate OwnedBy(k: string, c: Cached, o: Owner, gate: bool) {
    && Readable(o, c.gatewayId, gate) && k == Key(o, c.gatewayId)
    && c.grant.ticket.device == o.device && c.grant.ticket.ip == o.ip
  }

  ghost predicate HasOwner(k: string, c: Cached, gate: bool) {
    exists o :: OwnedBy(k, c, o, gate)
  }

  ghost predicate CacheOwned(cache: Cache, gate: bool) {
    forall k :: k in cache ==> HasOwner(k, cache[k], gate)
  }

  ghost predicate ReadableIds(nodes: map<string, Node>, gate: bool) {
    gate ==> forall g :: g in nodes ==> '|' !in g
  }

  /** As long as names are readable: every cached grant sits under the key of the device, address and
      gateway its ticket was signed for. */
  ghost predicate Owned(s: State, gate: bool) {
    CacheOwned(s.cache, gate) && ReadableIds(s.nodes, gate) && ReadableIds(s.seen, gate)
  }

  predicate ReadableOwner(o: Owner, gate: bool) {
    '|' !in Trim(o.net) && (!gate ==> '|' !in o.device)
  }

  /** Under the keys of `o` for active gateways sit its own grants. */
  ghost predicate KeysTell(s: State, o: Owner) {
    forall g :: g in s.nodes && Key(o, g) in s.cache ==> IsOwn(s.cache[Key(o, g)], o, g)
  }

  ghost predicate IsOwn(c: Cached, o: Owner, g: string) {
    c.gatewayId == g && c.grant.ticket.device == o.device && c.grant.ticket.ip == o.ip
  }

  lemma OwnedKeysTell(s: State, o: Owner, gate: bool)
    requires Owned(s, gate) && ReadableOwner(o, gate)
    ensures KeysTell(s, o)
  {
    hide Key, Trim;
    forall g | g in s.nodes && Key(o, g) in s.cache ensures IsOwn(s.cache[Key(o, g)], o, g) {
      var c := s.cache[Key(o, g)];
      assert HasOwner(Key(o, g), c, gate);
      var o' :| OwnedBy(Key(o, g), c, o', gate);
      KeyTells(o, g, o', c.gatewayId, gate);
    }
  }

  /** Whose entry a scan meets. */
  lemma MetEntry(s: State, o: Owner, k: string, gate: bool) returns (o': Owner)
    requires CacheOwned(s.cache, gate) && ReadableOwner(o, gate) && k in s.cache && HasPrefix(k, Prefix(o))
    requires gate ==> '|' !in s.cache[k].gatewayId
    ensures OwnedBy(k, s.cache[k], o', gate) && Meets(o, o')
  {
    hide Key, Trim, Prefix, Meets;
    assert HasOwner(k, s.cache[k], gate);
    o' :| OwnedBy(k, s.cache[k], o', gate);
    ScanMeets(o, o', s.cache[k].gatewayId, gate);
  }

  // What one call keeps.

  lemma IssueCoherent(s: State, call: Call, known: bool, n: Node, salt: nat, now: int)
    requires AllCoherent(s.cache)
    ensures AllCoherent(IssueFor(s, call, known, n, salt, now).cache)
  {
    hide NodeFingerprint, Key;
  }

  lemma {:induction false} BatchCoherent(s: State, call: Call, known: bool, nodes: seq<Node>, k: nat, now: int)
    requires k <= |nodes| && AllCoherent(s.cache)
    ensures AllCoherent(IssueAll(s, call, known, nodes, k, now).cache)
  {
    if k > 0 {
      hide IssueFor, AllCoherent;
      BatchCoherent(s, call, known, nodes, k - 1, now);
      IssueCoherent(s.(cache := IssueAll(s, call, known, nodes, k - 1, now).cache), call, known, nodes[k - 1], k - 1,
                    now);
    }
  }

  lemma PrunedCoherent(s: State, now: int)
    requires AllCoherent(s.cache)
    ensures AllCoherent(Pruned(s, now))
  {
  }

  lemma ServedGood(s: State, call: Call, now: int)
    requires Good(s)
    ensures Good(Served(s, call, now))
  {
    hide IssueAll, AllCoherent;
    PrunedCoherent(s, now);
    BatchCoherent(Prepared(s, now), call, Known(s, call, now), AliveList(s, now), |AliveList(s, now)|, now);
  }

  lemma IssueOwned(s: State, call: Call, known: bool, n: Node, salt: nat, now: int, gate: bool)
    requires CacheOwned(s.cache, gate) && Readable(call.owner, n.gatewayId, gate)
    requires known ==> call.refresh && call.lastSession != 0
    ensures CacheOwned(IssueFor(s, call, known, n, salt, now).cache, gate)
  {
    hide NodeFingerprint, Key, Trim;
    var r := IssueFor(s, call, known, n, salt, now);
    if r.minted {
      var k := Key(call.owner, n.gatewayId);
      assert OwnedBy(k, r.cache[k], call.owner, gate);
    }
  }

  lemma {:induction false} BatchOwned(s: State, call: Call, known: bool, nodes: seq<Node>, k: nat, now: int, gate: bool)
    requires k <= |nodes| && CacheOwned(s.cache, gate) && (known ==> call.refresh && call.lastSession != 0)
    requires forall i :: 0 <= i < |nodes| ==> Readable(call.owner, nodes[i].gatewayId, gate)
    ensures CacheOwned(IssueAll(s, call, known, nodes, k, now).cache, gate)
  {
    if k > 0 {
      hide IssueFor, CacheOwned, Readable;
      BatchOwned(s, call, known, nodes, k - 1, now, gate);
      IssueOwned(s.(cache := IssueAll(s, call, known, nodes, k - 1, now).cache), call, known, nodes[k - 1], k - 1, now,
                 gate);
    }
  }

  lemma ServedOwned(s: State, call: Call, now: int, gate: bool)
    requires Good(s) && Owned(s, gate) && ReadableOwner(call.owner, gate)
    ensures Owned(Served(s, call, now), gate)
  {
    hide IssueAll, AliveList, Trim;
    AliveFacts(s, now);
    BatchOwned(Prepared(s, now), call, Known(s, call, now), AliveList(s, now), |AliveList(s, now)|, now, gate);
  }

  // --------------------------------------------- one gateway after the other

  ghost predicate SameAt(c: Cache, c': Cache, key: string) {
    (key in c <==> key in c') && (key in c ==> c[key] == c'[key])
  }

  lemma IssueTouchesItsKey(s: State, call: Call, known: bool, n: Node, salt: nat, now: int, key: string)
    requires key != Key(call.owner, n.gatewayId)
    ensures SameAt(IssueFor(s, call, known, n, salt, now).cache, s.cache, key)
  {
  }

  lemma IssueLooksAtItsKey(s: State, cache: Cache, call: Call, known: bool, n: Node, salt: nat, now: int)
    requires SameAt(cache, s.cache, Key(call.owner, n.gatewayId))
    ensures var r, r' := IssueFor(s, call, known, n, salt, now),
      IssueFor(s.(cache := cache), call, known, n, salt, now);
      r.grant == r'.grant && r.minted == r'.minted && SameAt(r.cache, r'.cache, Key(call.owner, n.gatewayId))
  {
  }

  ghost predicate NotServed(call: Call, nodes: seq<Node>, k: nat, key: string)
    requires k <= |nodes|
  {
    forall i :: 0 <= i < k ==> key != Key(call.owner, nodes[i].gatewayId)
  }

  lemma {:induction false} BatchTouchesItsKeys(s: State, call: Call, known: bool, nodes: seq<Node>, k: nat, now: int,
                                               key: string)
    requires k <= |nodes| && NotServed(call, nodes, k, key)
    ensures SameAt(IssueAll(s, call, known, nodes, k, now).cache, s.cache, key)
  {
    if k > 0 {
      BatchTouchesItsKeys(s, call, known, nodes, k - 1, now, key);
      var b := IssueAll(s, call, known, nodes, k - 1, now);
      IssueTouchesItsKey(s.(cache := b.cache), call, known, nodes[k - 1], k - 1, now, key);
    }
  }

  lemma LaterKeyNotServed(call: Call, nodes: seq<Node>, k: nat)
    requires k < |nodes| && DistinctIds(NodeId, nodes)
    ensures NotServed(call, nodes, k, Key(call.owner, nodes[k].gatewayId))
  {
    forall i | 0 <= i < k ensures Key(call.owner, nodes[k].gatewayId) != Key(call.owner, nodes[i].gatewayId) {
      assert NodeId(nodes[i]) != NodeId(nodes[k]);
      KeyInjective(call.owner, nodes[i].gatewayId, nodes[k].gatewayId);
    }
  }

  /** What the `k`-th gateway gets, seen from the cache before the first. */
  function Slot(s: State, call: Call, known: bool, nodes: seq<Node>, k: nat, now: int): Issue
    requires k < |nodes|
  {
    IssueFor(s, call, known, nodes[k], k, now)
  }

  /** Gateways later in the list see their own entry as it was before the call. */
  lemma SlotInBatch(s: State, call: Call, known: bool, nodes: seq<Node>, k: nat, now: int)
    requires k < |nodes| && DistinctIds(NodeId, nodes)
    ensures var b, r := IssueAll(s, call, known, nodes, k, now), Slot(s, call, known, nodes, k, now);
      var b' := IssueAll(s, call, known, nodes, k + 1, now);
      && b'.grants == b.grants + Listed(r.grant)
      && b'.minted == (b.minted || r.minted)
      && SameAt(b'.cache, r.cache, Key(call.owner, nodes[k].gatewayId))
  {
    LaterKeyNotServed(call, nodes, k);
    BatchTouchesItsKeys(s, call, known, nodes, k, now, Key(call.owner, nodes[k].gatewayId));
    var b := IssueAll(s, call, known, nodes, k, now);
    IssueLooksAtItsKey(s, b.cache, call, known, nodes[k], k, now);
  }

  ghost predicate Gets(s: State, call: Call, known: bool, nodes: seq<Node>, i: nat, now: int, x: Grant)
    requires i < |nodes|
  {
    Slot(s, call, known, nodes, i, now).grant == Some(x)
  }

  ghost predicate Mints(s: State, call: Call, known: bool, nodes: seq<Node>, i: nat, now: int)
    requires i < |nodes|
  {
    Slot(s, call, known, nodes, i, now).minted
  }

  /** A gateway's grant is in the batch, and the batch has nothing else. */
  lemma {:induction false} SlotListed(s: State, call: Call, known: bool, nodes: seq<Node>, k: nat, now: int, i: nat,
                                      x: Grant)
    requires i < k <= |nodes| && DistinctIds(NodeId, nodes) && Gets(s, call, known, nodes, i, now, x)
    ensures x in IssueAll(s, call, known, nodes, k, now).grants
  {
    hide IssueFor;
    SlotInBatch(s, call, known, nodes, k - 1, now);
    if i < k - 1 { SlotListed(s, call, known, nodes, k - 1, now, i, x); }
  }

  lemma {:induction false} ListedSlot(s: State, call: Call, known: bool, nodes: seq<Node>, k: nat, now: int, x: Grant)
    returns (i: nat)
    requires k <= |nodes| && DistinctIds(NodeId, nodes) && x in IssueAll(s, call, known, nodes, k, now).grants
    ensures i < k && Gets(s, call, known, nodes, i, now, x)
  {
    hide IssueFor;
    SlotInBatch(s, call, known, nodes, k - 1, now);
    if x in IssueAll(s, call, known, nodes, k - 1, now).grants {
      i := ListedSlot(s, call, known, nodes, k - 1, now, x);
    } else {
      i := k - 1;
    }
  }

  lemma {:induction false} MintingShows(s: State, call: Call, known: bool, nodes: seq<Node>, k: nat, now: int, i: nat)
    requires i < k <= |nodes| && DistinctIds(NodeId, nodes) && Mints(s, call, known, nodes, i, now)
    ensures IssueAll(s, call, known, nodes, k, now).minted
  {
    hide IssueFor;
    SlotInBatch(s, call, known, nodes, k - 1, now);
    if i < k - 1 { MintingShows(s, call, known, nodes, k - 1, now, i); }
  }

  // ------------------------------------------------------ the simple reference

  /** Under the owner's key for the active gateway `g` sits a good entry that fits `g`. */
  ghost predicate OwnFresh(s: State, o: Owner, g: string, now: int) {
    && g in s.nodes && Key(o, g) in s.cache && Fresh(s, s.cache[Key(o, g)], now)
    && s.cache[Key(o, g)].fingerprint == NodeFingerprint(s.nodes[g])
  }

  /** A good cached entry that the owner's scans meet. */
  ghost predicate Met(s: State, o: Owner, k: string, now: int) {
    k in s.cache && HasPrefix(k, Prefix(o)) && Fresh(s, s.cache[k], now)
  }

  ghost predicate MetSession(s: State, o: Owner, session: uint64, now: int) {
    exists k :: Met(s, o, k, now) && s.cache[k].grant.session == session
  }

  /** A refresh reissues when forced, or when no entry its scan meets has the session it names. */
  ghost predicate Reissues(s: State, call: Call, now: int) {
    call.refresh && (call.force || (call.lastSession != 0 && !MetSession(s, call.owner, call.lastSession, now)))
  }

  /** The call keeps the cached grant for `g`. */
  ghost predicate Keeps(s: State, call: Call, g: string, now: int) {
    OwnFresh(s, call.owner, g, now) && !Reissues(s, call, now)
  }

  /** Under the key for `g` sits a good entry that does not fit `g` and has the very session the refresh names. */
  ghost predicate Carried(s: State, call: Call, g: string, now: int) {
    var k := Key(call.owner, g);
    && call.refresh && !call.force && call.lastSession != 0 && !OwnFresh(s, call.owner, g, now)
    && k in s.cache && Fresh(s, s.cache[k], now) && s.cache[k].grant.session == call.lastSession
  }

  lemma KnownIsMet(s: State, o: Owner, session: uint64, now: int)
    ensures SessionKnown(Pruned(s, now), o, session) <==> MetSession(s, o, session, now)
  {
    hide Fresh, Prefix;
    var c := Pruned(s, now);
    if SessionKnown(c, o, session) {
      var k :| k in c && HasPrefix(k, Prefix(o)) && c[k].grant.session == session;
      assert Met(s, o, k, now);
    }
    if MetSession(s, o, session, now) {
      var k :| Met(s, o, k, now) && s.cache[k].grant.session == session;
      assert k in c && HasPrefix(k, Prefix(o)) && c[k].grant.session == session;
    }
  }

  /** Keep the good cached grant of each alive gateway, or mint anew. */
  ghost function Expected(s: State, call: Call, n: Node, salt: nat, now: int): Issue {
    var key, rev := Key(call.owner, n.gatewayId), Prepared(s, now).rev;
    if Keeps(s, call, n.gatewayId, now)
    then Issue(Some(s.cache[key].grant.(policyRev := rev)), false, Pruned(s, now))
    else if Unmintable(call, n) then Issue(None, false, Pruned(s, now) - {key})
    else
      var session := if Carried(s, call, n.gatewayId, now) then call.lastSession else SessionId(now, salt);
      var g := Mint(s.conf, call.owner, n, session, rev, now);
      Issue(Some(g), true, Pruned(s, now)[key := Cached(n.gatewayId, NodeFingerprint(n), g.expireMs, g)])
  }

  /** After pruning, the tests for reuse come down to a good entry that fits; and when the keys hold the caller's
      own grants every entry left under its keys passes them. */
  lemma CachedMeansReusable(s: State, o: Owner, n: Node, now: int)
    requires n.gatewayId in s.nodes && n == s.nodes[n.gatewayId]
    ensures Reusable(Pruned(s, now), Key(o, n.gatewayId), n, now) <==> OwnFresh(s, o, n.gatewayId, now)
    ensures KeysTell(s, o) && Key(o, n.gatewayId) in Pruned(s, now) ==> OwnFresh(s, o, n.gatewayId, now)
  {
    hide Key, NodeFingerprint;
    if KeysTell(s, o) && Key(o, n.gatewayId) in s.cache { assert IsOwn(s.cache[Key(o, n.gatewayId)], o, n.gatewayId); }
  }

  /** The engine's branches come down to the reference, for any names. */
  lemma IssueIsExpected(s: State, call: Call, n: Node, salt: nat, now: int)
    requires n.gatewayId in s.nodes && n == s.nodes[n.gatewayId]
    ensures IssueFor(Prepared(s, now), call, Known(s, call, now), n, salt, now) == Expected(s, call, n, salt, now)
  {
    KeyHasPrefix(call.owner, n.gatewayId);
    CachedMeansReusable(s, call.owner, n, now);
    KnownIsMet(s, call.owner, call.lastSession, now);
    hide Fresh, NodeFingerprint, Key, Prefix, AliveList, Fingerprint, OwnFresh, Reusable, MetSession, SessionKnown,
         Mint;
    if CarriesOver(Pruned(s, now), call, Key(call.owner, n.gatewayId)) {
      MetHasSession(s, call.owner, Key(call.owner, n.gatewayId), now);
    }
  }

  lemma MetHasSession(s: State, o: Owner, k: string, now: int)
    requires Met(s, o, k, now)
    ensures MetSession(s, o, s.cache[k].grant.session, now)
  {
  }

  /** A session is carried over into a new grant only from an entry that does not fit its key, so never when the
      keys hold the caller's own grants. */
  lemma OwnNeverCarries(s: State, call: Call, g: string, now: int)
    requires KeysTell(s, call.owner) && g in s.nodes
    ensures !Carried(s, call, g, now)
  {
    hide Key, NodeFingerprint, Approved;
    if Key(call.owner, g) in s.cache { assert IsOwn(s.cache[Key(call.owner, g)], call.owner, g); }
  }

  // -------------------------------------------------------- the list returned

  /** What the `i`-th alive gateway contributes. */
  ghost predicate AliveGrant(s: State, call: Call, now: int, i: nat, x: Grant) {
    i < |AliveList(s, now)| && Expected(s, call, AliveList(s, now)[i], i, now).grant == Some(x)
  }

  /** The call replaces or drops the entry under `k` for an alive gateway. */
  ghost predicate Overwritten(s: State, call: Call, k: string, now: int) {
    exists g :: g in AliveIds(s, now) && k == Key(call.owner, g) && !Keeps(s, call, g, now)
  }

  /** A good cached entry the scan meets, of a gateway that is not alive, and that the call leaves alone. */
  ghost predicate Silent(s: State, call: Call, k: string, now: int) {
    Met(s, call.owner, k, now) && s.cache[k].gatewayId !in AliveIds(s, now) && !Overwritten(s, call, k, now)
  }

  /** When the keys hold the caller's own grants no entry of a silent gateway is in the way of an alive one. */
  lemma OwnNotOverwritten(s: State, call: Call, k: string, now: int)
    requires KeysTell(s, call.owner)
    ensures Silent(s, call, k, now) <==> Met(s, call.owner, k, now) && s.cache[k].gatewayId !in AliveIds(s, now)
  {
    hide Fresh, Prefix, Key, Approved, Keeps;
    if Met(s, call.owner, k, now) && Overwritten(s, call, k, now) {
      var g :| g in AliveIds(s, now) && k == Key(call.owner, g) && !Keeps(s, call, g, now);
      assert IsOwn(s.cache[k], call.owner, g);
    }
  }

  ghost predicate SilentGrant(s: State, call: Call, now: int, k: string, x: Grant) {
    Silent(s, call, k, now) && x == s.cache[k].grant.(policyRev := Prepared(s, now).rev)
  }

  lemma AliveFacts(s: State, now: int)
    requires Good(s)
    ensures IsAliveList(s, now, AliveList(s, now)) && DistinctIds(NodeId, AliveList(s, now))
    ensures forall i :: 0 <= i < |AliveList(s, now)| ==> IsAliveNode(s, now, AliveList(s, now)[i])
  {
    AliveListSound(s, now);
    RankedDistinct(s.conf.defaultId, NodeId, AliveList(s, now));
    forall i | 0 <= i < |AliveList(s, now)| ensures IsAliveNode(s, now, AliveList(s, now)[i]) {
      assert AliveList(s, now)[i] in AliveList(s, now);
    }
  }

  ghost predicate IsAliveNode(s: State, now: int, n: Node) {
    n.gatewayId in AliveIds(s, now) && n.gatewayId in s.nodes && n == s.nodes[n.gatewayId]
  }

  lemma AliveIndex(s: State, now: int, g: string) returns (i: nat)
    requires Good(s) && g in AliveIds(s, now)
    ensures g in s.nodes && s.nodes[g].gatewayId == g
    ensures i < |AliveList(s, now)| && AliveList(s, now)[i] == s.nodes[g]
  {
    AliveFacts(s, now);
    assert s.nodes[g] in AliveList(s, now);
    i :| 0 <= i < |AliveList(s, now)| && AliveList(s, now)[i] == s.nodes[g];
  }

  /** Slots after the `i`-th leave its entry alone. */
  lemma {:induction false} LaterSlotsPass(s: State, call: Call, known: bool, nodes: seq<Node>, i: nat, k: nat, now: int)
    requires i < k <= |nodes| && DistinctIds(NodeId, nodes)
    ensures SameAt(IssueAll(s, call, known, nodes, k, now).cache, Slot(s, call, known, nodes, i, now).cache,
                   Key(call.owner, nodes[i].gatewayId))
  {
    hide IssueFor, Key;
    if k == i + 1 {
      SlotInBatch(s, call, known, nodes, i, now);
    } else {
      LaterSlotsPass(s, call, known, nodes, i, k - 1, now);
      var b := IssueAll(s, call, known, nodes, k - 1, now);
      assert NodeId(nodes[i]) != NodeId(nodes[k - 1]);
      KeyInjective(call.owner, nodes[i].gatewayId, nodes[k - 1].gatewayId);
      IssueTouchesItsKey(s.(cache := b.cache), call, known, nodes[k - 1], k - 1, now,
                         Key(call.owner, nodes[i].gatewayId));
    }
  }

  lemma ExpectedLeaves(s: State, call: Call, n: Node, salt: nat, now: int)
    ensures var k, c := Key(call.owner, n.gatewayId), Expected(s, call, n, salt, now).cache;
      if Keeps(s, call, n.gatewayId, now) then SameAt(c, Pruned(s, now), k) else k in c ==>
        c[k].gatewayId == n.gatewayId
  {
    hide Key, Keeps, NodeFingerprint, Carried;
  }

  /** What the call leaves under the key for an alive gateway. */
  lemma ServedAtSlot(s: State, call: Call, now: int, g: string)
    requires Good(s) && g in AliveIds(s, now)
    ensures var k, c := Key(call.owner, g), Served(s, call, now).cache;
      if Keeps(s, call, g, now) then SameAt(c, Pruned(s, now), k) else k in c ==> c[k].gatewayId == g
  {
    var i := AliveIndex(s, now, g);
    var nodes := AliveList(s, now);
    AliveFacts(s, now);
    IssueIsExpected(s, call, nodes[i], i, now);
    ExpectedLeaves(s, call, nodes[i], i, now);
    hide Key, IssueFor, IssueAll, Keeps, Expected, AliveList, Known;
    LaterSlotsPass(Prepared(s, now), call, Known(s, call, now), nodes, i, |nodes|, now);
  }

  /** Entries under other keys are not touched by the issuing loop. */
  lemma OtherNotServed(s: State, call: Call, now: int, k: string)
    requires Good(s) && forall g :: g in AliveIds(s, now) ==> k != Key(call.owner, g)
    ensures SameAt(Served(s, call, now).cache, Pruned(s, now), k)
  {
    hide IssueAll, Key, AllCoherent, AliveIds;
    AliveFacts(s, now);
    BatchTouchesItsKeys(Prepared(s, now), call, Known(s, call, now), AliveList(s, now), |AliveList(s, now)|, now, k);
  }

  /** What the issuing loop leaves that is not of an alive gateway was there before. */
  lemma {:induction false} BatchEntries(s: State, call: Call, known: bool, nodes: seq<Node>, k: nat, now: int,
                                        key: string)
    requires k <= |nodes| && key in IssueAll(s, call, known, nodes, k, now).cache
    ensures var c := IssueAll(s, call, known, nodes, k, now).cache[key];
      (key in s.cache && c == s.cache[key]) || exists i :: 0 <= i < k && c.gatewayId == nodes[i].gatewayId
  {
    if k > 0 {
      var b := IssueAll(s, call, known, nodes, k - 1, now);
      IssueEntries(s.(cache := b.cache), call, known, nodes[k - 1], k - 1, now, key);
      hide IssueFor;
      if key in b.cache { BatchEntries(s, call, known, nodes, k - 1, now, key); }
    }
  }

  lemma IssueEntries(s: State, call: Call, known: bool, n: Node, salt: nat, now: int, key: string)
    ensures var c := IssueFor(s, call, known, n, salt, now).cache;
      key in c ==> (key in s.cache && c[key] == s.cache[key]) || c[key].gatewayId == n.gatewayId
  {
    hide NodeFingerprint, Key;
  }

  lemma SilentServed(s: State, call: Call, now: int, k: string)
    requires Good(s) && Silent(s, call, k, now)
    ensures SameAt(Served(s, call, now).cache, Pruned(s, now), k)
  {
    hide Served, Pruned, Key, Prefix, AliveIds, Keeps;
    if g :| g in AliveIds(s, now) && k == Key(call.owner, g) {
      ServedAtSlot(s, call, now, g);
    } else {
      OtherNotServed(s, call, now, k);
    }
  }

  lemma RetainedWasThere(s: State, call: Call, now: int, k: string)
    requires Good(s) && k in RetainedKeys(Served(s, call, now), call, AliveIds(s, now), now)
    ensures Met(s, call.owner, k, now) && s.cache[k] == Served(s, call, now).cache[k]
    ensures s.cache[k].gatewayId !in AliveIds(s, now)
  {
    hide IssueAll, Key, Prefix, AliveList;
    AliveFacts(s, now);
    BatchEntries(Prepared(s, now), call, Known(s, call, now), AliveList(s, now), |AliveList(s, now)|, now, k);
  }

  /** The scan for retained entries meets exactly the good entries of silent gateways that the call leaves alone. */
  lemma RetainedIsSilent(s: State, call: Call, now: int, k: string)
    requires Good(s)
    ensures k in RetainedKeys(Served(s, call, now), call, AliveIds(s, now), now) <==> Silent(s, call, k, now)
    ensures Silent(s, call, k, now) ==> k in Served(s, call, now).cache && Served(s, call, now).cache[k] == s.cache[k]
  {
    if k in RetainedKeys(Served(s, call, now), call, AliveIds(s, now), now) {
      RetainedWasThere(s, call, now, k);
      hide BatchOf, Key, Prefix, AliveList, Keeps;
      if g :| g in AliveIds(s, now) && k == Key(call.owner, g) && !Keeps(s, call, g, now) {
        ServedAtSlot(s, call, now, g);
      }
    }
    if Silent(s, call, k, now) {
      hide BatchOf, Key, Prefix, AliveList, Keeps, Overwritten;
      SilentServed(s, call, now, k);
    }
  }

  // In the batch.

  lemma SlotIsExpected(s: State, call: Call, now: int, i: nat, x: Grant)
    requires Good(s) && i < |AliveList(s, now)|
    ensures Gets(Prepared(s, now), call, Known(s, call, now), AliveList(s, now), i, now, x) <==>
            AliveGrant(s, call, now, i, x)
  {
    hide IssueFor, Expected, Prepared, Known, AliveList;
    AliveFacts(s, now);
    IssueIsExpected(s, call, AliveList(s, now)[i], i, now);
  }

  lemma AliveGrantListed(s: State, call: Call, now: int, i: nat, x: Grant)
    requires Good(s) && AliveGrant(s, call, now, i, x)
    ensures x in BatchOf(s, call, now).grants
  {
    hide IssueAll, IssueFor, Expected, Prepared, Known, AliveList;
    AliveFacts(s, now);
    SlotIsExpected(s, call, now, i, x);
    SlotListed(Prepared(s, now), call, Known(s, call, now), AliveList(s, now), |AliveList(s, now)|, now, i, x);
  }

  lemma ListedIsAliveGrant(s: State, call: Call, now: int, x: Grant) returns (i: nat)
    requires Good(s) && x in BatchOf(s, call, now).grants
    ensures AliveGrant(s, call, now, i, x)
  {
    hide IssueAll, IssueFor, Expected, Prepared, Known, AliveList;
    AliveFacts(s, now);
    i := ListedSlot(Prepared(s, now), call, Known(s, call, now), AliveList(s, now), |AliveList(s, now)|, now, x);
    SlotIsExpected(s, call, now, i, x);
  }

  /** The call has a grant for the alive gateway `g`: one to keep, or a ticket can be signed. */
  ghost predicate Offers(s: State, call: Call, g: string, now: int)
    requires g in s.nodes
  {
    Keeps(s, call, g, now) || !Unmintable(call, s.nodes[g])
  }

  /** The gateway that grant names: `g`, unless an entry is kept that only looks like `g`'s. */
  ghost function NameOf(s: State, call: Call, g: string, now: int): string {
    if Keeps(s, call, g, now) then s.cache[Key(call.owner, g)].gatewayId else g
  }

  ghost predicate SignedFor(x: Grant, o: Owner) {
    x.ticket.device == o.device && x.ticket.ip == o.ip
  }

  /** The grant for `g` was signed for the caller: newly, or the entry kept was. */
  ghost predicate OffersOwn(s: State, call: Call, g: string, now: int) {
    Keeps(s, call, g, now) ==> SignedFor(s.cache[Key(call.owner, g)].grant, call.owner)
  }

  lemma AliveGrantFacts(s: State, call: Call, now: int, i: nat, x: Grant)
    requires Good(s) && AliveGrant(s, call, now, i, x)
    ensures i < |AliveList(s, now)|
    ensures var g := AliveList(s, now)[i].gatewayId;
      && g in AliveIds(s, now) && Offers(s, call, g, now) && AliveList(s, now)[i] == s.nodes[g]
      && x.gatewayId == NameOf(s, call, g, now) && (SignedFor(x, call.owner) <==> OffersOwn(s, call, g, now))
  {
    AliveFacts(s, now);
    hide Prepared, AliveList, Key, Fresh, Reissues, NodeFingerprint, AliveIds, Carried;
    var g := AliveList(s, now)[i].gatewayId;
    if Keeps(s, call, g, now) { assert Coherent(s.cache[Key(call.owner, g)]); }
  }

  lemma OfferedIsGrant(s: State, call: Call, now: int, g: string) returns (i: nat, x: Grant)
    requires Good(s) && g in AliveIds(s, now) && Offers(s, call, g, now)
    ensures i < |AliveList(s, now)| && AliveGrant(s, call, now, i, x)
    ensures AliveList(s, now)[i] == s.nodes[g] && s.nodes[g].gatewayId == g
  {
    i := AliveIndex(s, now, g);
    hide Prepared, AliveList, Key, Fresh, Reissues, NodeFingerprint, AliveIds, Carried, SessionId;
    x := Expected(s, call, s.nodes[g], i, now).grant.value;
  }

  // In the retained part.

  lemma SilentGrantListed(s: State, call: Call, now: int, order: seq<string>, k: string, x: Grant)
    requires Good(s) && RetainedWalk(s, call, now, order) && call.retain && SilentGrant(s, call, now, k, x)
    ensures x in Stamped(Served(s, call, now).cache, order, Prepared(s, now).rev)
  {
    hide BatchOf, Key, Prefix, Prepared, Overwritten;
    RetainedIsSilent(s, call, now, k);
    var j :| 0 <= j < |order| && order[j] == k;
    assert Stamped(Served(s, call, now).cache, order, Prepared(s, now).rev)[j] == x;
  }

  lemma StampedIsSilentGrant(s: State, call: Call, now: int, order: seq<string>, j: nat)
    requires Good(s) && RetainedWalk(s, call, now, order) && j < |order|
    ensures call.retain
    ensures SilentGrant(s, call, now, order[j], Stamped(Served(s, call, now).cache, order, Prepared(s, now).rev)[j])
  {
    hide BatchOf, Key, Prefix, Prepared, RetainedKeys, Silent;
    assert order[j] in order;
    RetainedIsSilent(s, call, now, order[j]);
  }

  lemma SilentGrantNames(s: State, call: Call, now: int, k: string, x: Grant)
    requires Good(s) && SilentGrant(s, call, now, k, x)
    ensures x.gatewayId == s.cache[k].gatewayId && x.gatewayId !in AliveIds(s, now) &&
      x.policyRev == Prepared(s, now).rev
  {
    hide Prepared, Prefix, Fresh, AliveIds, Overwritten;
    assert Coherent(s.cache[k]);
  }

  // Together.

  /** Two slots that get a grant never get one of the same gateway. */
  ghost predicate SlotsDiffer(s: State, call: Call, known: bool, nodes: seq<Node>, k: nat, now: int)
    requires k <= |nodes|
  {
    forall i, j, x, y ::
      0 <= i < j < k && Gets(s, call, known, nodes, i, now, x) && Gets(s, call, known, nodes, j, now, y) ==>
      GrantId(x) != GrantId(y)
  }

  lemma {:induction false} BatchIdsDistinct(s: State, call: Call, known: bool, nodes: seq<Node>, k: nat, now: int)
    requires k <= |nodes| && DistinctIds(NodeId, nodes)
    ensures DistinctIds(GrantId, IssueAll(s, call, known, nodes, k, now).grants) <==>
      SlotsDiffer(s, call, known, nodes, k, now)
  {
    hide SlotsDiffer, DistinctIds;
    if k == 0 {
      NoSlotsDiffer(s, call, known, nodes, now);
    } else {
      hide IssueAll;
      BatchIdsDistinct(s, call, known, nodes, k - 1, now);
      NextIdsDistinct(s, call, known, nodes, k - 1, now);
    }
  }

  lemma NoSlotsDiffer(s: State, call: Call, known: bool, nodes: seq<Node>, now: int)
    ensures SlotsDiffer(s, call, known, nodes, 0, now) && DistinctIds(GrantId, [])
  {
  }

  lemma NextIdsDistinct(s: State, call: Call, known: bool, nodes: seq<Node>, k: nat, now: int)
    requires k < |nodes| && DistinctIds(NodeId, nodes)
    requires DistinctIds(GrantId, IssueAll(s, call, known, nodes, k, now).grants) <==>
      SlotsDiffer(s, call, known, nodes, k, now)
    ensures DistinctIds(GrantId, IssueAll(s, call, known, nodes, k + 1, now).grants) <==>
            SlotsDiffer(s, call, known, nodes, k + 1, now)
  {
    SlotInBatch(s, call, known, nodes, k, now);
    hide IssueAll, IssueFor;
    var gs, r := IssueAll(s, call, known, nodes, k, now).grants, Slot(s, call, known, nodes, k, now).grant;
    JoinedIdsDistinct(gs, Listed(r));
    if SlotsDiffer(s, call, known, nodes, k + 1, now) {
      forall x, y | x in gs && y in Listed(r) ensures GrantId(x) != GrantId(y) {
        var i := ListedSlot(s, call, known, nodes, k, now, x);
        assert Gets(s, call, known, nodes, k, now, y);
      }
    }
    if DistinctIds(GrantId, gs + Listed(r)) {
      forall i, j, x, y | 0 <= i < j < k + 1 && Gets(s, call, known, nodes, i, now, x) &&
        Gets(s, call, known, nodes, j, now, y)
        ensures GrantId(x) != GrantId(y)
      {
        if j == k {
          SlotListed(s, call, known, nodes, k, now, i, x);
          assert y in Listed(r);
        }
      }
    }
  }

  /** Two lists together have distinct ids exactly when each has and none is shared. */
  lemma JoinedIdsDistinct(a: seq<Grant>, b: seq<Grant>)
    ensures DistinctIds(GrantId, a + b) <==>
      DistinctIds(GrantId, a) && DistinctIds(GrantId, b) && forall x, y :: x in a && y in b ==> GrantId(x) != GrantId(y)
  {
    var c := a + b;
    if DistinctIds(GrantId, a) && DistinctIds(GrantId, b) && forall x, y :: x in a && y in b ==>
      GrantId(x) != GrantId(y) {
      forall i, j | 0 <= i < j < |c| ensures GrantId(c[i]) != GrantId(c[j]) {
        if i < |a| <= j { assert c[i] in a && c[j] in b; }
      }
    }
    if DistinctIds(GrantId, c) {
      forall i, j | 0 <= i < j < |a| ensures GrantId(a[i]) != GrantId(a[j]) { assert GrantId(c[i]) != GrantId(c[j]); }
      forall i, j | 0 <= i < j < |b| ensures GrantId(b[i]) != GrantId(b[j]) {
        assert GrantId(c[|a| + i]) != GrantId(c[|a| + j]);
      }
      forall x, y | x in a && y in b ensures GrantId(x) != GrantId(y) {
        var i :| 0 <= i < |a| && a[i] == x;
        var j :| 0 <= j < |b| && b[j] == y;
        assert GrantId(c[i]) != GrantId(c[|a| + j]);
      }
    }
  }

  /** The grants for two alive gateways never name one gateway. */
  ghost predicate AliveDiffer(s: State, call: Call, now: int) {
    forall g, h ::
      g in AliveIds(s, now) && h in AliveIds(s, now) && g != h && Offers(s, call, g, now) && Offers(s, call, h, now) ==>
      NameOf(s, call, g, now) != NameOf(s, call, h, now)
  }

  /** No gateway is met twice among the silent entries. */
  ghost predicate SilentDiffer(s: State, call: Call, now: int) {
    forall k, j ::
      Silent(s, call, k, now) && Silent(s, call, j, now) && s.cache[k].gatewayId == s.cache[j].gatewayId ==> k == j
  }

  /** No grant for an alive gateway names the gateway of a silent entry. */
  ghost predicate NoneShared(s: State, call: Call, now: int) {
    forall g, k :: g in AliveIds(s, now) && Offers(s, call, g, now) && Silent(s, call, k, now) ==>
      NameOf(s, call, g, now) != s.cache[k].gatewayId
  }

  /** No gateway is named twice among what the call lists. */
  ghost predicate NoRivals(s: State, call: Call, now: int) {
    AliveDiffer(s, call, now) && (call.retain ==> SilentDiffer(s, call, now) && NoneShared(s, call, now))
  }

  lemma SlotsAreAlive(s: State, call: Call, now: int)
    requires Good(s)
    ensures SlotsDiffer(Prepared(s, now), call, Known(s, call, now), AliveList(s, now), |AliveList(s, now)|, now) <==>
            AliveDiffer(s, call, now)
  {
    hide Prepared, Known, AliveList, Gets, AliveGrant, Offers, NameOf, AliveIds;
    var p, known, nodes := Prepared(s, now), Known(s, call, now), AliveList(s, now);
    AliveFacts(s, now);
    if AliveDiffer(s, call, now) {
      forall i, j, x, y | 0 <= i < j < |nodes| && Gets(p, call, known, nodes, i, now, x) &&
        Gets(p, call, known, nodes, j, now, y)
        ensures GrantId(x) != GrantId(y)
      {
        SlotIsExpected(s, call, now, i, x);
        SlotIsExpected(s, call, now, j, y);
        AliveGrantFacts(s, call, now, i, x);
        AliveGrantFacts(s, call, now, j, y);
        assert NodeId(nodes[i]) != NodeId(nodes[j]);
      }
    }
    if SlotsDiffer(p, call, known, nodes, |nodes|, now) {
      forall g, h | g in AliveIds(s, now) && h in AliveIds(s, now) && g != h && g in s.nodes && h in s.nodes &&
                    Offers(s, call, g, now) && Offers(s, call, h, now)
        ensures NameOf(s, call, g, now) != NameOf(s, call, h, now)
      {
        var i, x := OfferedIsGrant(s, call, now, g);
        var j, y := OfferedIsGrant(s, call, now, h);
        SlotIsExpected(s, call, now, i, x);
        SlotIsExpected(s, call, now, j, y);
        AliveGrantFacts(s, call, now, i, x);
        AliveGrantFacts(s, call, now, j, y);
      }
      AliveAreNodes(s, now);
    }
  }

  lemma AliveAreNodes(s: State, now: int)
    ensures AliveIds(s, now) <= s.nodes.Keys
  {
  }

  ghost function StampedFor(s: State, call: Call, now: int, order: seq<string>): (gs: seq<Grant>)
    requires RetainedWalk(s, call, now, order)
    ensures |gs| == |order|
  {
    Stamped(Served(s, call, now).cache, order, Prepared(s, now).rev)
  }

  lemma StampedAt(s: State, call: Call, now: int, order: seq<string>, i: nat)
    requires Good(s) && RetainedWalk(s, call, now, order) && i < |order|
    ensures call.retain && Silent(s, call, order[i], now)
    ensures GrantId(StampedFor(s, call, now, order)[i]) == s.cache[order[i]].gatewayId
  {
    hide Silent, Prepared, Served;
    StampedIsSilentGrant(s, call, now, order, i);
    SilentGrantNames(s, call, now, order[i], StampedFor(s, call, now, order)[i]);
  }

  lemma WalkDistinct(s: State, call: Call, now: int, order: seq<string>)
    requires RetainedWalk(s, call, now, order)
    ensures forall i, j :: 0 <= i < j < |order| ==> order[i] != order[j]
  {
  }

  /** A walk of entries yields distinct ids exactly when no two entries walked name one gateway. */
  lemma DistinctWalk(gs: seq<Grant>, order: seq<string>, cache: Cache)
    requires |gs| == |order| && forall i, j :: 0 <= i < j < |order| ==> order[i] != order[j]
    requires forall i :: 0 <= i < |order| ==> order[i] in cache && GrantId(gs[i]) == cache[order[i]].gatewayId
    ensures DistinctIds(GrantId, gs) <==>
      forall k, j :: k in order && j in order && cache[k].gatewayId == cache[j].gatewayId ==> k == j
  {
    if DistinctIds(GrantId, gs) {
      forall k, j | k in order && j in order && cache[k].gatewayId == cache[j].gatewayId ensures k == j {
        var a :| 0 <= a < |order| && order[a] == k;
        var b :| 0 <= b < |order| && order[b] == j;
      }
    }
  }

  lemma WalkedAreSilent(s: State, call: Call, now: int, order: seq<string>, k: string)
    requires Good(s) && RetainedWalk(s, call, now, order)
    ensures k in order <==> call.retain && Silent(s, call, k, now)
  {
    hide Served, Silent, RetainedKeys;
    RetainedIsSilent(s, call, now, k);
  }

  lemma StampedIdsDistinct(s: State, call: Call, now: int, order: seq<string>)
    requires Good(s) && RetainedWalk(s, call, now, order)
    ensures DistinctIds(GrantId, StampedFor(s, call, now, order)) <==> (call.retain ==> SilentDiffer(s, call, now))
  {
    SilentAreCached(s, call, now);
    WalkDistinct(s, call, now, order);
    hide StampedFor, Silent, RetainedWalk, Good, DistinctIds;
    forall k ensures k in order <==> call.retain && Silent(s, call, k, now) { WalkedAreSilent(s, call, now, order, k); }
    var gs := StampedFor(s, call, now, order);
    forall i | 0 <= i < |order| ensures order[i] in s.cache && GrantId(gs[i]) == s.cache[order[i]].gatewayId {
      StampedAt(s, call, now, order, i);
    }
    DistinctWalk(gs, order, s.cache);
  }

  lemma SilentAreCached(s: State, call: Call, now: int)
    ensures forall k :: Silent(s, call, k, now) ==> k in s.cache
  {
  }

  /** Whom a listed grant of an alive gateway, and a stamped one, names. */
  lemma ListedNames(s: State, call: Call, now: int, x: Grant) returns (g: string)
    requires Good(s) && x in BatchOf(s, call, now).grants
    ensures g in AliveIds(s, now) && g in s.nodes && Offers(s, call, g, now) && GrantId(x) == NameOf(s, call, g, now)
  {
    hide BatchOf, Prepared, Offers, NameOf, AliveIds;
    var i := ListedIsAliveGrant(s, call, now, x);
    AliveGrantFacts(s, call, now, i, x);
    AliveAreNodes(s, now);
    g := AliveList(s, now)[i].gatewayId;
  }

  lemma StampedNames(s: State, call: Call, now: int, order: seq<string>, y: Grant) returns (k: string)
    requires Good(s) && RetainedWalk(s, call, now, order)
    requires y in StampedFor(s, call, now, order)
    ensures call.retain && Silent(s, call, k, now) && GrantId(y) == s.cache[k].gatewayId
  {
    var b := StampedFor(s, call, now, order);
    hide Served, Prepared, Silent;
    var j :| 0 <= j < |b| && b[j] == y;
    StampedIsSilentGrant(s, call, now, order, j);
    SilentGrantNames(s, call, now, order[j], y);
    k := order[j];
  }

  lemma OfferListed(s: State, call: Call, now: int, g: string) returns (x: Grant)
    requires Good(s) && g in AliveIds(s, now) && Offers(s, call, g, now)
    ensures x in BatchOf(s, call, now).grants && GrantId(x) == NameOf(s, call, g, now)
  {
    hide BatchOf, Prepared, NameOf, AliveGrant, Keeps;
    var i, y := OfferedIsGrant(s, call, now, g);
    AliveGrantFacts(s, call, now, i, y);
    AliveGrantListed(s, call, now, i, y);
    x := y;
  }

  lemma SilentStamped(s: State, call: Call, now: int, order: seq<string>, k: string) returns (y: Grant)
    requires Good(s) && RetainedWalk(s, call, now, order) && call.retain && Silent(s, call, k, now)
    ensures y in StampedFor(s, call, now, order) && GrantId(y) == s.cache[k].gatewayId
  {
    SilentAreCached(s, call, now);
    hide Served, Prepared, Silent;
    y := s.cache[k].grant.(policyRev := Prepared(s, now).rev);
    assert SilentGrant(s, call, now, k, y);
    SilentGrantNames(s, call, now, k, y);
    SilentGrantListed(s, call, now, order, k, y);
  }

  lemma SharedExactly(s: State, call: Call, now: int, order: seq<string>)
    requires Good(s) && RetainedWalk(s, call, now, order)
    ensures var a, b := BatchOf(s, call, now).grants, StampedFor(s, call, now, order);
      (forall x, y :: x in a && y in b ==> GrantId(x) != GrantId(y)) <==> (call.retain ==> NoneShared(s, call, now))
  {
    var a, b := BatchOf(s, call, now).grants, StampedFor(s, call, now, order);
    SilentAreCached(s, call, now);
    AliveAreNodes(s, now);
    hide BatchOf, Served, Prepared, Silent, Offers, NameOf, AliveIds, RetainedWalk, Good;
    if call.retain ==> NoneShared(s, call, now) {
      forall x, y | x in a && y in b ensures GrantId(x) != GrantId(y) {
        var g := ListedNames(s, call, now, x);
        var k := StampedNames(s, call, now, order, y);
      }
    }
    if call.retain && forall x, y :: x in a && y in b ==> GrantId(x) != GrantId(y) {
      forall g, k | g in AliveIds(s, now) && Offers(s, call, g, now) && Silent(s, call, k, now)
        ensures NameOf(s, call, g, now) != s.cache[k].gatewayId
      {
        var x := OfferListed(s, call, now, g);
        var y := SilentStamped(s, call, now, order, k);
      }
    }
  }

  lemma AllIdsDistinct(s: State, call: Call, now: int, order: seq<string>)
    requires Good(s) && RetainedWalk(s, call, now, order)
    ensures DistinctIds(GrantId, BatchOf(s, call, now).grants + StampedFor(s, call, now, order)) <==>
      NoRivals(s, call, now)
  {
    AliveFacts(s, now);
    BatchIdsDistinct(Prepared(s, now), call, Known(s, call, now), AliveList(s, now), |AliveList(s, now)|, now);
    SlotsAreAlive(s, call, now);
    hide Prepared, AliveList, Known, IssueAll, AliveDiffer, SilentDiffer, NoneShared, SlotsDiffer;
    StampedIdsDistinct(s, call, now, order);
    SharedExactly(s, call, now, order);
    JoinedIdsDistinct(BatchOf(s, call, now).grants, StampedFor(s, call, now, order));
  }

  /** When the keys hold the caller's own grants, alive gateways are named by their own and only the silent
      entries can come twice. */
  lemma OwnNoRivals(s: State, call: Call, now: int)
    requires KeysTell(s, call.owner)
    ensures NoRivals(s, call, now) <==> (call.retain ==> SilentDiffer(s, call, now))
    ensures forall g :: g in AliveIds(s, now) ==> NameOf(s, call, g, now) == g && OffersOwn(s, call, g, now)
  {
    hide Key, Fresh, Reissues, NodeFingerprint, Approved, Overwritten;
    forall g | g in AliveIds(s, now) ensures NameOf(s, call, g, now) == g && OffersOwn(s, call, g, now) {
      if Keeps(s, call, g, now) { assert IsOwn(s.cache[Key(call.owner, g)], call.owner, g); }
    }
  }
}
