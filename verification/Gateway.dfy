/** The gateway grant engine (control/gateway.go): approved gateways, the lease that keeps them
    alive, the per-client cache of access grants and the policy revision.

    Each handler is one step at one reading of the clock, in nanoseconds.  Signing a ticket may
    fail: the gateways for which it does are part of the call. */
module Gateway {
  import opened Text
  import opened Ranking
  import Bytes

  const MILLI: int := 1_000_000
  const SECOND: int := 1_000_000_000
  const LEASE: int := 90 * SECOND
  const MARGIN: int := 30 * SECOND
  const TWO64: nat := 0x1_0000_0000_0000_0000

  type uint64 = x: nat | x < TWO64

  datatype Channel = Channel(kind: nat, addr: string, serverName: string, udpKeyId: string,
                             udpPublicKey: seq<Bytes.byte>)

  datatype Node = Node(gatewayId: string, endpoint: string, capabilities: seq<string>, channels: seq<Channel>,
                       updatedAt: int)

  /** The claims a gateway ticket is signed over. */
  datatype Ticket = Ticket(device: string, ip: uint32, session: uint64, rev: uint64, gatewayId: string, expireMs: int)

  datatype Grant = Grant(gatewayId: string, ticket: Ticket, expireMs: int, refreshAfterMs: int, session: uint64,
                         policyRev: uint64, capabilities: seq<string>, channel: Channel)

  datatype Cached = Cached(gatewayId: string, fingerprint: string, expireMs: int, grant: Grant)

  type Cache = map<string, Cached>

  /** `defaultId` is trimmed; the time to live and the refresh lead are positive settings. */
  datatype Config = Config(defaultId: string, hardTTL: int, softLead: int)

  datatype State = State(conf: Config, nodes: map<string, Node>, allow: map<string, string>, seen: map<string, Node>,
                         cache: Cache, fingerprint: string, rev: uint64)

  /** Whom a grant is for. */
  datatype Owner = Owner(net: string, ip: uint32, device: string)

  datatype Call = Call(owner: Owner, refresh: bool, retain: bool, lastSession: uint64, force: bool,
                       failing: set<string>)

  function NodeId(n: Node): string { n.gatewayId }

  function GrantId(g: Grant): string { g.gatewayId }

  // ---------------------------------------------------------- approval and life

  predicate Approved(s: State, n: Node) {
    && Trim(n.endpoint) != ""
    && (n.gatewayId in s.allow || n.gatewayId == s.conf.defaultId)
    && (n.gatewayId in s.allow ==> Trim(s.allow[n.gatewayId]) == "" || Trim(s.allow[n.gatewayId]) == Trim(n.endpoint))
  }

  /** Heard from within the lease, and approved. */
  predicate Alive(s: State, n: Node, now: int) {
    now - n.updatedAt <= LEASE && Approved(s, n)
  }

  function AliveIds(s: State, now: int): set<string> {
    set g | g in s.nodes && Alive(s, s.nodes[g], now)
  }

  ghost predicate SelfNamed(nodes: map<string, Node>) {
    forall g :: g in nodes ==> nodes[g].gatewayId == g
  }

  /** `l` is the list of alive nodes, default first, then by id. */
  ghost predicate IsAliveList(s: State, now: int, l: seq<Node>) {
    && Ranked(s.conf.defaultId, Ids(NodeId, l))
    && (forall n :: n in l <==> n.gatewayId in AliveIds(s, now) && n == s.nodes[n.gatewayId])
  }

  ghost function Listing(nodes: map<string, Node>, ids: set<string>): seq<Node>
    requires ids <= nodes.Keys
  {
    if ids == {} then [] else var g :| g in ids; [nodes[g]] + Listing(nodes, ids - {g})
  }

  lemma {:induction false} ListingSound(nodes: map<string, Node>, ids: set<string>)
    requires SelfNamed(nodes) && ids <= nodes.Keys
    ensures DistinctIds(NodeId, Listing(nodes, ids))
    ensures forall n :: n in Listing(nodes, ids) <==> n.gatewayId in ids && n == nodes[n.gatewayId]
  {
    if ids != {} {
      var g :| g in ids && Listing(nodes, ids) == [nodes[g]] + Listing(nodes, ids - {g});
      ListingSound(nodes, ids - {g});
      var l := Listing(nodes, ids);
      forall i, j | 0 <= i < j < |l| ensures NodeId(l[i]) != NodeId(l[j]) {
        assert l[j] in Listing(nodes, ids - {g});
        if i > 0 { assert NodeId(Listing(nodes, ids - {g})[i - 1]) != NodeId(Listing(nodes, ids - {g})[j - 1]); }
      }
    }
  }

  ghost function AliveList(s: State, now: int): seq<Node> {
    Sort(s.conf.defaultId, NodeId, Listing(s.nodes, AliveIds(s, now)))
  }

  lemma AliveListSound(s: State, now: int)
    requires SelfNamed(s.nodes)
    ensures IsAliveList(s, now, AliveList(s, now))
  {
    ListingSound(s.nodes, AliveIds(s, now));
    SortRanks(s.conf.defaultId, NodeId, Listing(s.nodes, AliveIds(s, now)));
  }

  /** There is only one such list, whatever order the table is walked in. */
  lemma AliveListUnique(s: State, now: int, l: seq<Node>)
    requires SelfNamed(s.nodes) && IsAliveList(s, now, l)
    ensures l == AliveList(s, now)
  {
    AliveListSound(s, now);
    var m := AliveList(s, now);
    forall g ensures g in Ids(NodeId, l) <==> g in AliveIds(s, now) { AliveIdListed(s, now, l, g); }
    forall g ensures g in Ids(NodeId, m) <==> g in AliveIds(s, now) { AliveIdListed(s, now, m, g); }
    RankedUnique(s.conf.defaultId, Ids(NodeId, l), Ids(NodeId, m));
    forall i | 0 <= i < |l| ensures l[i] == m[i] {
      assert Ids(NodeId, l)[i] == Ids(NodeId, m)[i];
      assert l[i] in l && m[i] in m;
    }
  }

  lemma AliveIdListed(s: State, now: int, l: seq<Node>, g: string)
    requires SelfNamed(s.nodes) && IsAliveList(s, now, l)
    ensures g in Ids(NodeId, l) <==> g in AliveIds(s, now)
  {
    if g in Ids(NodeId, l) {
      var i :| 0 <= i < |l| && Ids(NodeId, l)[i] == g;
      assert l[i] in l;
    }
    if g in AliveIds(s, now) {
      assert s.nodes[g] in l;
      var i :| 0 <= i < |l| && l[i] == s.nodes[g];
      assert Ids(NodeId, l)[i] == g;
    }
  }

  // ------------------------------------------------------------- fingerprints

  function Hex(b: seq<Bytes.byte>): string {
    if b == [] then "" else ["0123456789abcdef"[b[0] as int / 16], "0123456789abcdef"[b[0] as int % 16]] + Hex(b[1..])
  }

  function ChannelText(c: Channel): string {
    Dec(c.kind) + "|" + c.addr + "|" + c.serverName + "|" + c.udpKeyId + "|" + Hex(c.udpPublicKey)
  }

  function ChannelTexts(cs: seq<Channel>): seq<string> {
    if cs == [] then [] else [ChannelText(cs[0])] + ChannelTexts(cs[1..])
  }

  function NodeFingerprint(n: Node): string {
    JoinStrings([n.gatewayId, n.endpoint, JoinStrings(n.capabilities, ",")] + ChannelTexts(n.channels), ";")
  }

  function NodeFingerprints(ns: seq<Node>): seq<string> {
    if ns == [] then [] else [NodeFingerprint(ns[0])] + NodeFingerprints(ns[1..])
  }

  function Fingerprint(ns: seq<Node>): string {
    JoinStrings(NodeFingerprints(ns), ",")
  }

  // --------------------------------------------------------- the policy revision

  function NextRev(rev: uint64): uint64 {
    if rev == TWO64 - 1 then 1 else rev + 1
  }

  /** A new fingerprint of the approved alive set starts a new revision. */
  function Sync(s: State, fingerprint: string): State {
    if fingerprint == s.fingerprint then s.(rev := if s.rev == 0 then 1 else s.rev)
    else s.(fingerprint := fingerprint, rev := NextRev(s.rev))
  }

  // --------------------------------------------------------------- the cache

  function Prefix(o: Owner): string {
    Trim(o.net) + "|" + Dec(o.ip) + "|" + o.device + "|"
  }

  function Key(o: Owner, gatewayId: string): string {
    Prefix(o) + gatewayId
  }

  function ThresholdMs(now: int): int {
    (now + MARGIN) / MILLI
  }

  /** The tests a cached grant must pass to survive pruning. */
  predicate Fresh(s: State, c: Cached, now: int) {
    && c.gatewayId in s.nodes
    && Approved(s, s.nodes[c.gatewayId])
    && c.expireMs > ThresholdMs(now)
    && c.fingerprint == NodeFingerprint(s.nodes[c.gatewayId])
  }

  function Pruned(s: State, now: int): Cache {
    map k | k in s.cache && Fresh(s, s.cache[k], now) :: s.cache[k]
  }

  /** The scan for a session id among the entries whose key has the caller's prefix. */
  predicate SessionKnown(cache: Cache, o: Owner, session: uint64) {
    exists k :: k in cache && HasPrefix(k, Prefix(o)) && cache[k].grant.session == session
  }

  // ------------------------------------------------------------ issuing grants

  function SessionId(now: int, salt: nat): uint64 {
    (now + salt) % TWO64
  }

  predicate Unmintable(call: Call, n: Node) {
    n.gatewayId in call.failing || n.channels == []
  }

  function Mint(conf: Config, o: Owner, n: Node, session: uint64, rev: uint64, now: int): Grant
    requires n.channels != []
  {
    var expireMs := (now + conf.hardTTL) / MILLI;
    Grant(n.gatewayId, Ticket(o.device, o.ip, session, rev, n.gatewayId, expireMs), expireMs,
          (now + conf.hardTTL - conf.softLead) / MILLI, session, rev, n.capabilities, n.channels[0])
  }

  datatype Issue = Issue(grant: Option<Grant>, minted: bool, cache: Cache)

  predicate Reusable(cache: Cache, key: string, n: Node, now: int) {
    key in cache && cache[key].fingerprint == NodeFingerprint(n) && cache[key].expireMs > ThresholdMs(now)
  }

  /** The cached session is carried over into a new grant. */
  predicate CarriesOver(cache: Cache, call: Call, key: string) {
    call.refresh && !call.force && call.lastSession != 0 && key in cache && cache[key].grant.session == call.lastSession
  }

  /** One alive gateway: reuse the cached grant, or mint one; `known` is the verdict on the caller's last session. */
  function IssueFor(s: State, call: Call, known: bool, n: Node, salt: nat, now: int): Issue {
    var key := Key(call.owner, n.gatewayId);
    if Reusable(s.cache, key, n, now) &&
       (call.refresh ==> !call.force && (call.lastSession == 0 || known))
    then Issue(Some(s.cache[key].grant.(policyRev := s.rev)), false, s.cache)
    else if Unmintable(call, n) then Issue(None, false, s.cache - {key})
    else
      var session := if CarriesOver(s.cache, call, key) then call.lastSession else SessionId(now, salt);
      var g := Mint(s.conf, call.owner, n, session, s.rev, now);
      Issue(Some(g), true, s.cache[key := Cached(n.gatewayId, NodeFingerprint(n), g.expireMs, g)])
  }

  datatype Batch = Batch(grants: seq<Grant>, minted: bool, cache: Cache)

  function Listed(g: Option<Grant>): seq<Grant> {
    if g.Some? then [g.value] else []
  }

  /** The first `k` alive gateways, in order, each against the cache the ones before it left. */
  function IssueAll(s: State, call: Call, known: bool, nodes: seq<Node>, k: nat, now: int): Batch
    requires k <= |nodes|
  {
    if k == 0 then Batch([], false, s.cache)
    else
      var b := IssueAll(s, call, known, nodes, k - 1, now);
      var r := IssueFor(s.(cache := b.cache), call, known, nodes[k - 1], k - 1, now);
      Batch(b.grants + Listed(r.grant), b.minted || r.minted, r.cache)
  }

  /** The entries of silent gateways an existing client keeps. */
  function RetainedKeys(s: State, call: Call, alive: set<string>, now: int): set<string> {
    set k | k in s.cache && HasPrefix(k, Prefix(call.owner)) && s.cache[k].gatewayId !in alive &&
      Fresh(s, s.cache[k], now)
  }

  function Stamped(cache: Cache, order: seq<string>, rev: uint64): (r: seq<Grant>)
    requires forall k :: k in order ==> k in cache
    ensures |r| == |order| && forall i :: 0 <= i < |order| ==> r[i] == cache[order[i]].grant.(policyRev := rev)
  {
    seq(|order|, i requires 0 <= i < |order| => cache[order[i]].grant.(policyRev := rev))
  }

  /** `order` walks exactly the keys in `keys`, each once. */
  ghost predicate Walks(order: seq<string>, keys: set<string>) {
    (forall k :: k in order <==> k in keys) && (forall i, j :: 0 <= i < j < |order| ==> order[i] != order[j])
  }

  // The whole call: state before issuing, the batch, the state after, and the list returned.

  ghost function Prepared(s: State, now: int): State {
    Sync(s, Fingerprint(AliveList(s, now))).(cache := Pruned(s, now))
  }

  ghost predicate Known(s: State, call: Call, now: int) {
    call.refresh && call.lastSession != 0 && SessionKnown(Pruned(s, now), call.owner, call.lastSession)
  }

  ghost function BatchOf(s: State, call: Call, now: int): Batch {
    var nodes := AliveList(s, now);
    IssueAll(Prepared(s, now), call, Known(s, call, now), nodes, |nodes|, now)
  }

  ghost function Served(s: State, call: Call, now: int): State {
    Prepared(s, now).(cache := BatchOf(s, call, now).cache)
  }

  /** `order` is a walk of the entries retained for the caller. */
  ghost predicate RetainedWalk(s: State, call: Call, now: int, order: seq<string>) {
    Walks(order, if call.retain then RetainedKeys(Served(s, call, now), call, AliveIds(s, now), now) else {})
  }

  ghost function GrantList(s: State, call: Call, now: int, order: seq<string>): seq<Grant>
    requires RetainedWalk(s, call, now, order)
  {
    var s' := Served(s, call, now);
    Sort(s.conf.defaultId, GrantId, BatchOf(s, call, now).grants + Stamped(s'.cache, order, s'.rev))
  }

  // ----------------------------------------------- approving, reporting, delisting

  datatype Report = Report(gatewayId: string, capabilities: seq<string>, channel: Option<Channel>, endpoint: string,
                           hostIsDefault: bool, reportMs: int)

  datatype Answer = Malformed | Unauthenticated | NotApproved | Registered

  const UDP_CHANNEL: nat := 1

  predicate WellFormedReport(conf: Config, r: Report) {
    && Trim(r.gatewayId) != "" && r.channel.Some? && r.reportMs != 0 && r.endpoint != ""
    && (r.channel.value.kind == UDP_CHANNEL ==> |r.channel.value.udpPublicKey| == 32 && r.channel.value.udpKeyId != "")
    && (Trim(r.gatewayId) == conf.defaultId ==> r.hostIsDefault)
  }

  predicate Allowed(s: State, gatewayId: string, endpoint: string) {
    Trim(gatewayId) == s.conf.defaultId || (gatewayId in s.allow && Trim(s.allow[gatewayId]) == Trim(endpoint))
  }

  function ReportedNode(r: Report, now: int): Node
    requires r.channel.Some?
  {
    Node(r.gatewayId, r.endpoint, r.capabilities, [r.channel.value], now)
  }

  /** A report: recorded as seen, and registered when the gateway is allowed. */
  function Admit(s: State, r: Report, authenticated: bool, now: int): (Answer, State) {
    if !WellFormedReport(s.conf, r) then (Malformed, s)
    else if !authenticated then (Unauthenticated, s)
    else
      var n := ReportedNode(r, now);
      if Allowed(s, r.gatewayId, r.endpoint)
      then (Registered, s.(allow := s.allow[r.gatewayId := r.endpoint], nodes := s.nodes[r.gatewayId := n],
                           seen := s.seen - {r.gatewayId}))
      else (NotApproved, s.(seen := s.seen[r.gatewayId := n]))
  }

  function Approve(s: State, gatewayId: string, endpoint: string): State {
    s.(allow := s.allow[gatewayId := endpoint])
  }

  datatype AdminError = IdRequired | NoPendingReport | DefaultGateway | NotFound

  function ApproveById(s: State, gatewayId: string): (Option<AdminError>, State) {
    var g := Trim(gatewayId);
    if g == "" then (Some(IdRequired), s)
    else if g == s.conf.defaultId then (None, s)
    else if g in s.allow && Trim(s.allow[g]) != "" then (None, s)
    else if g !in s.seen || Trim(s.seen[g].endpoint) == "" then (Some(NoPendingReport), s)
    else (None, s.(allow := s.allow[g := s.seen[g].endpoint], nodes := s.nodes[g := s.seen[g]]))
  }

  function Delist(s: State, gatewayId: string): (Option<AdminError>, State) {
    var g := Trim(gatewayId);
    if g == "" then (Some(IdRequired), s)
    else if g == s.conf.defaultId then (Some(DefaultGateway), s)
    else if g !in s.allow && g !in s.nodes && g !in s.seen then (Some(NotFound), s)
    else (None, s.(seen := if g in s.nodes then s.seen[g := s.nodes[g]] else s.seen,
                   allow := s.allow - {g}, nodes := s.nodes - {g},
                   cache := map k | k in s.cache && s.cache[k].gatewayId != g :: s.cache[k]))
  }
}
