/** The grant engine as the controller runs it: the tables are fields that its methods update, and
    tables are walked in an arbitrary order. */
module GatewayControl {
  import opened Text
  import opened Ranking
  import opened Gateway
  import opened GatewayRefresh
  import opened GatewayReplay

  /** What a refresh answers: the grants are sent only with a new list. */
  datatype RefreshError = AddressEmpty | DeviceEmpty | SourceMismatch | DeviceMismatch

  datatype RefreshResponse = RefreshResponse(verdict: Verdict, policyRev: uint64, grants: seq<Grant>)

  class GatewayControl {
    const conf: Config
    const replay: ReplayWindow
    var gatewayNodes: map<string, Node>
    var gatewayAllow: map<string, string>
    var gatewaySeen: map<string, Node>
    var grantCache: Cache
    var grantFingerprint: string
    var grantPolicyRev: uint64

    ghost function Model(): State
      reads this
    {
      State(conf, gatewayNodes, gatewayAllow, gatewaySeen, grantCache, grantFingerprint, grantPolicyRev)
    }

    constructor (conf: Config, allow: map<string, string>)
      ensures Model() == State(conf, map[], allow, map[], map[], "", 0) && fresh(replay) && replay.nonces == map[]
    {
      this.conf := conf;
      replay := new ReplayWindow();
      gatewayNodes, gatewayAllow, gatewaySeen, grantCache := map[], allow, map[], map[];
      grantFingerprint, grantPolicyRev := "", 0;
    }

    // --------------------------------------------------- reports and approvals

    /** A report: authenticated (signature, then replay window), recorded, and registered when allowed. */
    method HandleGatewayReport(r: Report, signed: bool, nonce: Nonce, now: int)
      returns (answer: Answer, ghost authenticated: bool)
      modifies this, replay
      ensures WellFormedReport(conf, r) ==>
        (authenticated <==>
           nonce != [] && signed && Accepted(old(replay.nonces), Submission(Trim(r.gatewayId), r.reportMs, nonce), now))
      ensures replay.nonces ==
        if WellFormedReport(conf, r) && nonce != [] && signed
        then Validate(old(replay.nonces), Submission(Trim(r.gatewayId), r.reportMs, nonce), now).1
          else old(replay.nonces)
      ensures (answer, Model()) == Admit(old(Model()), r, authenticated, now)
    {
      authenticated := false;
      if Trim(r.gatewayId) == "" || r.channel == None || r.reportMs == 0 || r.endpoint == "" {
        return Malformed, false;
      }
      if r.channel.value.kind == UDP_CHANNEL &&
        (|r.channel.value.udpPublicKey| != 32 || r.channel.value.udpKeyId == "") {
        return Malformed, false;
      }
      if Trim(r.gatewayId) == conf.defaultId && !r.hostIsDefault {
        return Malformed, false;
      }
      if nonce == [] || !signed {
        return Unauthenticated, false;
      }
      var refused := replay.ValidateGatewayReplayWindow(Trim(r.gatewayId), r.reportMs, nonce, now);
      if refused != None {
        return Unauthenticated, false;
      }
      authenticated := true;
      RecordGatewaySeen(ReportedNode(r, now));
      if !Allowed(State(conf, gatewayNodes, gatewayAllow, gatewaySeen, grantCache, grantFingerprint, grantPolicyRev),
                  r.gatewayId, r.endpoint) {
        return NotApproved, true;
      }
      RegisterGatewayNodeWithTransport(ReportedNode(r, now));
      answer := Registered;
      assert gatewaySeen == old(gatewaySeen) - {r.gatewayId};
    }

    method RecordGatewaySeen(n: Node)
      modifies this
      ensures Model() == old(Model()).(seen := old(gatewaySeen)[n.gatewayId := n])
    {
      gatewaySeen := gatewaySeen[n.gatewayId := n];
    }

    /** A node without a valid channel is skipped. */
    method RegisterGatewayNodeWithTransport(n: Node)
      modifies this
      ensures Model() == if n.endpoint == "" || n.channels == [] then old(Model()) else
        old(Model()).(allow := old(gatewayAllow)[n.gatewayId := n.endpoint],
                      nodes := old(gatewayNodes)[n.gatewayId := n],
                      seen := old(gatewaySeen) - {n.gatewayId})
    {
      if n.endpoint == "" || n.channels == [] {
        return;
      }
      gatewayAllow := gatewayAllow[n.gatewayId := n.endpoint];
      gatewayNodes := gatewayNodes[n.gatewayId := n];
      gatewaySeen := gatewaySeen - {n.gatewayId};
    }

    method ApproveGatewayNode(gatewayId: string, endpoint: string)
      modifies this
      ensures Model() == Approve(old(Model()), gatewayId, endpoint)
    {
      gatewayAllow := gatewayAllow[gatewayId := endpoint];
    }

    method ApproveGatewayNodeByID(gatewayId: string) returns (err: Option<AdminError>)
      modifies this
      ensures (err, Model()) == ApproveById(old(Model()), gatewayId)
    {
      var id := Trim(gatewayId);
      if id == "" {
        return Some(IdRequired);
      }
      if id == conf.defaultId {
        return None;
      }
      if id in gatewayAllow && Trim(gatewayAllow[id]) != "" {
        return None;
      }
      if id !in gatewaySeen || Trim(gatewaySeen[id].endpoint) == "" {
        return Some(NoPendingReport);
      }
      gatewayAllow := gatewayAllow[id := gatewaySeen[id].endpoint];
      gatewayNodes := gatewayNodes[id := gatewaySeen[id]];
      return None;
    }

    method DelistGatewayNodeByID(gatewayId: string) returns (err: Option<AdminError>)
      modifies this
      ensures (err, Model()) == Delist(old(Model()), gatewayId)
    {
      var id := Trim(gatewayId);
      if id == "" {
        return Some(IdRequired);
      }
      if id == conf.defaultId {
        return Some(DefaultGateway);
      }
      if id !in gatewayAllow && id !in gatewayNodes && id !in gatewaySeen {
        return Some(NotFound);
      }
      if id in gatewayNodes {
        gatewaySeen := gatewaySeen[id := gatewayNodes[id]];
      }
      gatewayAllow := gatewayAllow - {id};
      gatewayNodes := gatewayNodes - {id};
      DeleteGatewayGrantCacheForGateway(id);
      return None;
    }

    method DeleteGatewayGrantCacheForGateway(gatewayId: string)
      modifies this`grantCache
      ensures grantCache == map k | k in old(grantCache) &&
        old(grantCache)[k].gatewayId != gatewayId :: old(grantCache)[k]
    {
      ghost var c := grantCache;
      var todo := grantCache.Keys;
      while todo != {}
        invariant todo <= c.Keys
        invariant grantCache == map k | k in c && (k in todo || c[k].gatewayId != gatewayId) :: c[k]
        decreases todo
      {
        var key :| key in todo;
        if grantCache[key].gatewayId == gatewayId {
          grantCache := grantCache - {key};
        }
        todo := todo - {key};
      }
    }

    // --------------------------------------------------------- the parts of a call

    /** The nodes within their lease and approved, in rank order. */
    method ApprovedAliveGatewayNodes(now: int) returns (nodes: seq<Node>)
      requires SelfNamed(gatewayNodes)
      ensures nodes == AliveList(Model(), now)
    {
      ghost var s := Model();
      ghost var done := {};
      var found: seq<Node> := [];
      var todo := gatewayNodes.Keys;
      while todo != {}
        invariant todo <= gatewayNodes.Keys && done == gatewayNodes.Keys - todo
        invariant DistinctIds(NodeId, found)
        invariant forall n :: n in found <==>
          n.gatewayId in done && n.gatewayId in AliveIds(s, now) && n == s.nodes[n.gatewayId]
        decreases todo
      {
        var key :| key in todo;
        var node := gatewayNodes[key];
        if !(now - node.updatedAt > LEASE) && GatewayNodeApproved(node) {
          forall i | 0 <= i < |found| ensures NodeId(found[i]) != NodeId(node) { assert found[i] in found; }
          found := found + [node];
        }
        todo := todo - {key};
        done := done + {key};
      }
      nodes := Sort(conf.defaultId, NodeId, found);
      SortRanks(conf.defaultId, NodeId, found);
      AliveListUnique(s, now, nodes);
    }

    predicate GatewayNodeApproved(node: Node)
      reads this
      ensures GatewayNodeApproved(node) <==> Approved(Model(), node)
    {
      var endpoint := if node.gatewayId in gatewayAllow then gatewayAllow[node.gatewayId] else "";
      var approved := node.gatewayId in gatewayAllow || node.gatewayId == conf.defaultId;
      assert Trim("") == "";
      Trim(node.endpoint) != "" && approved && (Trim(endpoint) == "" || Trim(endpoint) == Trim(node.endpoint))
    }

    method SyncGatewayGrantPolicy(nodes: seq<Node>) returns (rev: uint64, changed: bool)
      modifies this`grantFingerprint, this`grantPolicyRev
      ensures Model() == Sync(old(Model()), Fingerprint(nodes))
      ensures rev == grantPolicyRev && (changed <==> Fingerprint(nodes) != old(grantFingerprint))
    {
      var fingerprint := Fingerprint(nodes);
      if fingerprint == grantFingerprint {
        if grantPolicyRev == 0 {
          grantPolicyRev := 1;
        }
        return grantPolicyRev, false;
      }
      grantFingerprint := fingerprint;
      grantPolicyRev := (grantPolicyRev + 1) % TWO64;
      if grantPolicyRev == 0 {
        grantPolicyRev := 1;
      }
      return grantPolicyRev, true;
    }

    predicate CachedGrantFresh(cached: Cached, now: int)
      reads this
      ensures CachedGrantFresh(cached, now) <==> Fresh(Model(), cached, now)
    {
      && cached.gatewayId in gatewayNodes
      && GatewayNodeApproved(gatewayNodes[cached.gatewayId])
      && !(cached.expireMs <= ThresholdMs(now))
      && cached.fingerprint == NodeFingerprint(gatewayNodes[cached.gatewayId])
    }

    method PruneGatewayGrantCache(now: int)
      modifies this`grantCache
      ensures grantCache == Pruned(old(Model()), now)
    {
      ghost var s := Model();
      var todo := grantCache.Keys;
      while todo != {}
        invariant todo <= s.cache.Keys
        invariant grantCache == map k | k in s.cache && (k in todo || Fresh(s, s.cache[k], now)) :: s.cache[k]
        decreases todo
      {
        var key :| key in todo;
        assert Fresh(Model(), grantCache[key], now) <==> Fresh(s, s.cache[key], now);
        if !CachedGrantFresh(grantCache[key], now) {
          grantCache := grantCache - {key};
        }
        todo := todo - {key};
      }
    }

    method GatewayGrantSessionKnown(owner: Owner, session: uint64) returns (known: bool)
      ensures known <==> SessionKnown(grantCache, owner, session)
    {
      var todo := grantCache.Keys;
      while todo != {}
        invariant todo <= grantCache.Keys
        invariant forall k :: k in grantCache && k !in todo ==>
          !(HasPrefix(k, Prefix(owner)) && grantCache[k].grant.session == session)
        decreases todo
      {
        var key :| key in todo;
        if HasPrefix(key, Prefix(owner)) && grantCache[key].grant.session == session {
          return true;
        }
        todo := todo - {key};
      }
      return false;
    }

    method GatewayAccessGrantForNode(call: Call, known: bool, node: Node, salt: nat, policyRev: uint64, now: int)
      returns (grant: Option<Grant>, changed: bool)
      requires policyRev == grantPolicyRev
      modifies this`grantCache
      ensures Issue(grant, changed, grantCache) == IssueFor(old(Model()), call, known, node, salt, now)
    {
      var cacheKey, fingerprint := Key(call.owner, node.gatewayId), NodeFingerprint(node);
      var ok := cacheKey in grantCache;
      if call.refresh {
        if !call.force && ok && grantCache[cacheKey].fingerprint == fingerprint &&
          grantCache[cacheKey].expireMs > ThresholdMs(now) {
          if call.lastSession == 0 || known {
            return Some(grantCache[cacheKey].grant.(policyRev := policyRev)), false;
          }
        }
      } else if ok && grantCache[cacheKey].fingerprint == fingerprint &&
        grantCache[cacheKey].expireMs > ThresholdMs(now) {
        return Some(grantCache[cacheKey].grant.(policyRev := policyRev)), false;
      }
      var session := SessionId(now, salt);
      if call.refresh && !call.force && call.lastSession != 0 && ok &&
        grantCache[cacheKey].grant.session == call.lastSession {
        session := call.lastSession;
      }
      if Unmintable(call, node) {
        grantCache := grantCache - {cacheKey};
        return None, false;
      }
      var g := Mint(conf, call.owner, node, session, policyRev, now);
      grantCache := grantCache[cacheKey := Cached(node.gatewayId, fingerprint, g.expireMs, g)];
      return Some(g), true;
    }

    method RetainedGatewayAccessGrants(call: Call, alive: set<string>, policyRev: uint64, now: int)
      returns (grants: seq<Grant>, ghost order: seq<string>)
      ensures Walks(order, RetainedKeys(Model(), call, alive, now))
      ensures grants == Stamped(grantCache, order, policyRev)
      ensures forall x :: x in grants <==>
        exists k :: k in RetainedKeys(Model(), call, alive, now) && x == grantCache[k].grant.(policyRev := policyRev)
    {
      ghost var s := Model();
      ghost var done := {};
      grants, order := [], [];
      var todo := grantCache.Keys;
      while todo != {}
        invariant todo <= grantCache.Keys && done == grantCache.Keys - todo
        invariant Walks(order, RetainedKeys(s, call, alive, now) * done)
        invariant grants == Stamped(grantCache, order, policyRev)
        decreases todo
      {
        var key :| key in todo;
        if HasPrefix(key, Prefix(call.owner)) && grantCache[key].gatewayId !in alive &&
          CachedGrantFresh(grantCache[key], now) {
          WalkOneMore(order, RetainedKeys(s, call, alive, now) * done, key);
          grants := grants + [grantCache[key].grant.(policyRev := policyRev)];
          order := order + [key];
          assert RetainedKeys(s, call, alive, now) * (done + {key}) == RetainedKeys(s, call, alive, now) * done + {key};
        } else {
          assert RetainedKeys(s, call, alive, now) * (done + {key}) == RetainedKeys(s, call, alive, now) * done;
        }
        todo := todo - {key};
        done := done + {key};
      }
      assert RetainedKeys(s, call, alive, now) * done == RetainedKeys(s, call, alive, now);
      StampedMembers(grantCache, order, RetainedKeys(s, call, alive, now), policyRev);
    }

    // ------------------------------------------------------------------ the call

    /** One grant per alive gateway, in order. */
    method IssueGrants(call: Call, known: bool, nodes: seq<Node>, policyRev: uint64, now: int)
      returns (grants: seq<Grant>, changed: bool)
      requires policyRev == grantPolicyRev
      modifies this`grantCache
      ensures Batch(grants, changed, grantCache) == IssueAll(old(Model()), call, known, nodes, |nodes|, now)
    {
      hide IssueFor;
      grants, changed := [], false;
      for index := 0 to |nodes|
        invariant policyRev == grantPolicyRev
        invariant Batch(grants, changed, grantCache) == IssueAll(old(Model()), call, known, nodes, index, now)
      {
        MintedIsGranted(Model(), call, known, nodes[index], index, now);
        var grant, grantChanged := GatewayAccessGrantForNode(call, known, nodes[index], index, policyRev, now);
        if grant != None {
          grants := grants + [grant.value];
          changed := changed || grantChanged;
        }
      }
    }

    /** The whole call. */
    method BuildGatewayAccessGrants(call: Call, now: int)
      returns (grants: seq<Grant>, policyRev: uint64, changed: bool, ghost order: seq<string>)
      requires SelfNamed(gatewayNodes)
      modifies this
      ensures Model() == Served(old(Model()), call, now) && policyRev == grantPolicyRev
      ensures changed == BatchOf(old(Model()), call, now).minted
      ensures RetainedWalk(old(Model()), call, now, order) && grants == GrantList(old(Model()), call, now, order)
    {
      hide IssueAll, AliveList, AliveIds, Pruned, Fingerprint, RetainedKeys, Sort, Stamped, SessionKnown, Sync,
           SelfNamed;
      var nodes := ApprovedAliveGatewayNodes(now);
      var rev, _ := SyncGatewayGrantPolicy(nodes);
      assert Pruned(Model(), now) ==
        Pruned(old(Model()), now) by { SyncKeepsFresh(old(Model()), Fingerprint(nodes), now); }
      PruneGatewayGrantCache(now);
      assert Model() == Prepared(old(Model()), now);
      policyRev, order := rev, [];
      if nodes == [] && !call.retain {
        EmptyCall(old(Model()), call, now);
        return [], policyRev, false, [];
      }
      var known := false;
      if call.refresh && call.lastSession != 0 {
        known := GatewayGrantSessionKnown(call.owner, call.lastSession);
      }
      grants, changed := IssueGrants(call, known, nodes, policyRev, now);
      if call.retain {
        var retained;
        AliveListNamed(old(Model()), now);
        retained, order := RetainedGatewayAccessGrants(call, set n | n in nodes :: n.gatewayId, policyRev, now);
        grants := grants + retained;
      } else {
        assert grants == grants + Stamped(grantCache, [], policyRev);
      }
      grants := Sort(conf.defaultId, GrantId, grants);
    }

    /** A refresh request: refused for the wrong sender, otherwise answered with a verdict. */
    method HandleRefreshGatewayGrant(networkKey: string, virtualIP: uint32, deviceId: string, sourceIP: uint32,
                                     owns: bool, lastSession: uint64, lastPolicyRev: uint64, force: bool,
                                     failing: set<string>, now: int)
      returns (r: Result<RefreshResponse, RefreshError>, ghost order: seq<string>)
      requires SelfNamed(gatewayNodes)
      modifies this
      ensures r.Err? <==> virtualIP == 0 || deviceId == "" || sourceIP != virtualIP || !owns
      ensures r.Err? ==> Model() == old(Model())
      ensures var call := Call(Owner(networkKey, virtualIP, deviceId), true, true, lastSession, force, failing);
        r.Ok? ==>
          && Model() == Served(old(Model()), call, now) && RetainedWalk(old(Model()), call, now, order)
          && r.value.verdict == RefreshVerdict(old(Model()), call, lastPolicyRev, now, order) &&
            r.value.policyRev == grantPolicyRev
          && r.value.grants == if r.value.verdict == Updated then GrantList(old(Model()), call, now, order) else []
    {
      order := [];
      if virtualIP == 0 {
        return Err(AddressEmpty), [];
      }
      if deviceId == "" {
        return Err(DeviceEmpty), [];
      }
      if sourceIP != virtualIP {
        return Err(SourceMismatch), [];
      }
      if !owns {
        return Err(DeviceMismatch), [];
      }
      var call := Call(Owner(networkKey, virtualIP, deviceId), true, true, lastSession, force, failing);
      var grants, policyRev, changed;
      grants, policyRev, changed, order := BuildGatewayAccessGrants(call, now);
      var verdict := VerdictOf(grants != [], policyRev, changed, call, lastPolicyRev);
      r := Ok(RefreshResponse(verdict, policyRev, if verdict == Updated then grants else []));
    }
  }

  lemma MintedIsGranted(s: State, call: Call, known: bool, n: Node, salt: nat, now: int)
    ensures IssueFor(s, call, known, n, salt, now).minted ==> IssueFor(s, call, known, n, salt, now).grant.Some?
  {
  }

  lemma SyncKeepsFresh(s: State, fingerprint: string, now: int)
    ensures Pruned(Sync(s, fingerprint), now) == Pruned(s, now)
  {
    hide NodeFingerprint, Trim;
  }

  lemma EmptyCall(s: State, call: Call, now: int)
    requires AliveList(s, now) == [] && !call.retain
    ensures Served(s, call, now) == Prepared(s, now) && !BatchOf(s, call, now).minted
    ensures RetainedWalk(s, call, now, []) && GrantList(s, call, now, []) == []
  {
  }

  lemma StampedMembers(cache: Cache, order: seq<string>, keys: set<string>, rev: uint64)
    requires Walks(order, keys) && keys <= cache.Keys
    ensures forall x :: x in Stamped(cache, order, rev) <==>
      exists k :: k in keys && x == cache[k].grant.(policyRev := rev)
  {
    var gs := Stamped(cache, order, rev);
    forall x | x in gs ensures exists k :: k in keys && x == cache[k].grant.(policyRev := rev) {
      var i :| 0 <= i < |gs| && gs[i] == x;
      assert order[i] in order;
    }
    forall k | k in keys ensures cache[k].grant.(policyRev := rev) in gs {
      assert k in order;
      var i :| 0 <= i < |order| && order[i] == k;
      assert gs[i] == cache[k].grant.(policyRev := rev);
    }
  }

  lemma WalkOneMore(order: seq<string>, keys: set<string>, key: string)
    requires Walks(order, keys) && key !in keys
    ensures Walks(order + [key], keys + {key})
  {
    forall i, j | 0 <= i < j < |order + [key]| ensures (order + [key])[i] != (order + [key])[j] {
      if j == |order| { assert order[i] in order; }
    }
  }

  lemma AliveListNamed(s: State, now: int)
    requires SelfNamed(s.nodes)
    ensures (set n | n in AliveList(s, now) :: n.gatewayId) == AliveIds(s, now)
  {
    AliveListSound(s, now);
    forall g | g in AliveIds(s, now) ensures g in (set n | n in AliveList(s, now) :: n.gatewayId) {
      assert s.nodes[g] in AliveList(s, now);
    }
  }
}
