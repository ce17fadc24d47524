/** What a fingerprint tells: with names free of its separators, the whole configuration of a gateway.  So a cached
    grant is handed out only with the channel and capabilities its gateway has now, and a change of either starts a
    new revision. */
module GatewayFingerprints {
  import opened Text
  import Bytes
  import opened Ranking
  import opened Gateway
  import opened GatewayGrants
  import opened GatewayRefresh
  import opened GatewayRuns

  // ------------------------------------------------------------ reading texts back

  ghost predicate Without(parts: seq<string>, sep: char) {
    forall i :: 0 <= i < |parts| ==> sep !in parts[i]
  }

  lemma {:induction false} JoinSingle(parts: seq<string>, sep: char)
    requires |parts| >= 1 && Without(parts, sep)
    ensures sep in JoinStrings(parts, [sep]) <==> |parts| >= 2
  {
  }

  /** Parts without the separator are read back from their join. */
  lemma {:induction false} JoinTells(a: seq<string>, b: seq<string>, sep: char)
    requires Without(a, sep) && Without(b, sep) && |a| >= 1 && |b| >= 1
    ensures JoinStrings(a, [sep]) == JoinStrings(b, [sep]) <==> a == b
  {
    JoinSingle(a, sep);
    JoinSingle(b, sep);
    if JoinStrings(a, [sep]) == JoinStrings(b, [sep]) && |a| >= 2 {
      SplitUnique(a[0], JoinStrings(a[1..], [sep]), b[0], JoinStrings(b[1..], [sep]), sep);
      JoinTells(a[1..], b[1..], sep);
      assert a == [a[0]] + a[1..] && b == [b[0]] + b[1..];
    }
  }

  lemma {:induction false} HexTells(a: seq<Bytes.byte>, b: seq<Bytes.byte>)
    requires Hex(a) == Hex(b)
    ensures a == b
  {
    if a == [] || b == [] {
      assert |Hex(a)| == 0;
    } else {
      assert Hex(a)[..2] == Hex(b)[..2] && Hex(a)[2..] == Hex(a[1..]) && Hex(b)[2..] == Hex(b[1..]);
      HexDigitTells(a[0] as int / 16, b[0] as int / 16);
      HexDigitTells(a[0] as int % 16, b[0] as int % 16);
      HexTells(a[1..], b[1..]);
      assert a == [a[0]] + a[1..] && b == [b[0]] + b[1..];
    }
  }

  lemma HexDigitTells(i: nat, j: nat)
    requires i < 16 && j < 16
    ensures "0123456789abcdef"[i] == "0123456789abcdef"[j] ==> i == j
  {
  }

  lemma {:induction false} HexPlain(b: seq<Bytes.byte>)
    ensures ';' !in Hex(b) && '|' !in Hex(b) && ',' !in Hex(b)
  {
    if b != [] { HexPlain(b[1..]); }
  }

  // ----------------------------------------------------------------- a fingerprint

  predicate PlainText(t: string) {
    '|' !in t && ';' !in t && ',' !in t
  }

  predicate PlainChannel(c: Channel) {
    PlainText(c.addr) && PlainText(c.serverName) && PlainText(c.udpKeyId)
  }

  predicate PlainCapability(c: string) {
    c != "" && ',' !in c && ';' !in c
  }

  /** No separator of the fingerprint in the texts of a gateway, which reports one channel. */
  ghost predicate PlainNode(n: Node) {
    && PlainText(n.gatewayId) && PlainText(n.endpoint) && |n.channels| == 1 && PlainChannel(n.channels[0])
    && forall i :: 0 <= i < |n.capabilities| ==> PlainCapability(n.capabilities[i])
  }

  /** Everything about a gateway but when it was heard. */
  predicate SameGateway(n: Node, m: Node) {
    n.gatewayId == m.gatewayId && n.endpoint == m.endpoint && n.capabilities == m.capabilities &&
      n.channels == m.channels
  }

  lemma ChannelTells(a: Channel, b: Channel)
    requires PlainChannel(a) && PlainChannel(b)
    ensures ChannelText(a) == ChannelText(b) <==> a == b
  {
    ChannelPlain(a);
    ChannelPlain(b);
    var x := [Dec(a.kind), a.addr, a.serverName, a.udpKeyId, Hex(a.udpPublicKey)];
    var y := [Dec(b.kind), b.addr, b.serverName, b.udpKeyId, Hex(b.udpPublicKey)];
    ChannelJoins(a);
    ChannelJoins(b);
    JoinTells(x, y, '|');
    if x == y {
      assert x[0] == y[0] && x[1] == y[1] && x[2] == y[2] && x[3] == y[3] && x[4] == y[4];
      DecInjective(a.kind, b.kind);
      HexTells(a.udpPublicKey, b.udpPublicKey);
    }
  }

  lemma ChannelPlain(c: Channel)
    requires PlainChannel(c)
    ensures ';' !in ChannelText(c) && ',' !in ChannelText(c) && '|' !in Dec(c.kind) && '|' !in Hex(c.udpPublicKey)
  {
    HexPlain(c.udpPublicKey);
  }

  lemma JoinPair(a: string, rest: seq<string>, sep: string)
    requires rest != []
    ensures JoinStrings([a] + rest, sep) == a + sep + JoinStrings(rest, sep)
  {
    assert ([a] + rest)[1..] == rest;
  }

  lemma ChannelJoins(c: Channel)
    ensures ChannelText(c) == JoinStrings([Dec(c.kind), c.addr, c.serverName, c.udpKeyId, Hex(c.udpPublicKey)], "|")
  {
    hide JoinStrings;
    var d, h := Dec(c.kind), Hex(c.udpPublicKey);
    JoinFive(d, c.addr, c.serverName, c.udpKeyId, h, "|");
    hide Dec, Hex;
    assert d + "|" + (c.addr + "|" + (c.serverName + "|" + (c.udpKeyId + "|" + h))) == ChannelText(c);
  }

  lemma JoinFour(b: string, c: string, d: string, e: string, sep: string)
    ensures JoinStrings([b, c, d, e], sep) == b + sep + (c + sep + (d + sep + e))
  {
    assert JoinStrings([e], sep) == e;
    hide JoinStrings;
    assert [d, e] == [d] + [e] && [c, d, e] == [c] + [d, e] && [b, c, d, e] == [b] + [c, d, e];
    JoinPair(d, [e], sep);
    JoinPair(c, [d, e], sep);
    JoinPair(b, [c, d, e], sep);
  }

  lemma JoinFive(a: string, b: string, c: string, d: string, e: string, sep: string)
    ensures JoinStrings([a, b, c, d, e], sep) == a + sep + (b + sep + (c + sep + (d + sep + e)))
  {
    hide JoinStrings;
    assert [a, b, c, d, e] == [a] + [b, c, d, e];
    JoinFour(b, c, d, e, sep);
    JoinPair(a, [b, c, d, e], sep);
  }

  lemma {:induction false} CapabilitiesPlain(caps: seq<string>)
    requires forall i :: 0 <= i < |caps| ==> PlainCapability(caps[i])
    ensures ';' !in JoinStrings(caps, ",") && (JoinStrings(caps, ",") == "" <==> caps == [])
  {
    if |caps| > 1 { CapabilitiesPlain(caps[1..]); }
  }

  lemma CapabilitiesTell(a: seq<string>, b: seq<string>)
    requires (forall i :: 0 <= i < |a| ==> PlainCapability(a[i])) &&
      (forall i :: 0 <= i < |b| ==> PlainCapability(b[i]))
    ensures JoinStrings(a, ",") == JoinStrings(b, ",") <==> a == b
  {
    CapabilitiesPlain(a);
    CapabilitiesPlain(b);
    if a != [] && b != [] { JoinTells(a, b, ','); }
  }

  function NodeText(n: Node): string
    requires |n.channels| == 1
  {
    n.gatewayId + ";" + (n.endpoint + ";" + (JoinStrings(n.capabilities, ",") + ";" + ChannelText(n.channels[0])))
  }

  lemma FingerprintIsText(n: Node)
    requires |n.channels| == 1
    ensures NodeFingerprint(n) == NodeText(n)
  {
    var caps, ch := JoinStrings(n.capabilities, ","), ChannelText(n.channels[0]);
    assert ChannelTexts(n.channels) == [ch] by { assert n.channels[1..] == []; }
    hide ChannelText, ChannelTexts;
    assert [n.gatewayId, n.endpoint, caps] + [ch] == [n.gatewayId, n.endpoint, caps, ch];
    JoinFour(n.gatewayId, n.endpoint, caps, ch, ";");
  }

  /** Nothing, or the rest of a list of gateways. */
  predicate Tail(t: string) {
    t == "" || t[0] == ','
  }

  lemma TextsTell(n: Node, m: Node, t: string, u: string)
    requires PlainNode(n) && PlainNode(m) && Tail(t) && Tail(u)
    ensures NodeText(n) + t == NodeText(m) + u <==> SameGateway(n, m) && t == u
  {
    var a, b := JoinStrings(n.capabilities, ","), JoinStrings(m.capabilities, ",");
    var x, y := ChannelText(n.channels[0]), ChannelText(m.channels[0]);
    CapabilitiesPlain(n.capabilities);
    CapabilitiesPlain(m.capabilities);
    ChannelPlain(n.channels[0]);
    ChannelPlain(m.channels[0]);
    assert NodeText(n) + t == n.gatewayId + ";" + (n.endpoint + ";" + (a + ";" + (x + t)));
    assert NodeText(m) + u == m.gatewayId + ";" + (m.endpoint + ";" + (b + ";" + (y + u)));
    if NodeText(n) + t == NodeText(m) + u {
      hide ChannelText;
      SplitUnique(n.gatewayId, n.endpoint + ";" + (a + ";" + (x + t)), m.gatewayId,
                  m.endpoint + ";" + (b + ";" + (y + u)), ';');
      SplitUnique(n.endpoint, a + ";" + (x + t), m.endpoint, b + ";" + (y + u), ';');
      SplitUnique(a, x + t, b, y + u, ';');
      TailTells(x, t, y, u);
      CapabilitiesTell(n.capabilities, m.capabilities);
      ChannelTells(n.channels[0], m.channels[0]);
      assert n.channels == [n.channels[0]] && m.channels == [m.channels[0]];
    }
  }

  lemma TailTells(x: string, t: string, y: string, u: string)
    requires ',' !in x && ',' !in y && Tail(t) && Tail(u) && x + t == y + u
    ensures x == y && t == u
  {
    NoLonger(x, t, y, u);
    NoLonger(y, u, x, t);
    assert (x + t)[..|x|] == x && (y + u)[..|y|] == y && (x + t)[|x|..] == t && (y + u)[|y|..] == u;
  }

  lemma NoLonger(x: string, t: string, y: string, u: string)
    requires ',' !in y && Tail(t) && x + t == y + u
    ensures |y| <= |x|
  {
    var z := y + u;
    assert |x| < |z| ==> z[|x|] == (x + t)[|x|];
    assert |x| < |z| ==> z[|x|] == ',';
  }

  /** Two gateways have one fingerprint exactly when they are configured alike. */
  lemma FingerprintTells(n: Node, m: Node)
    requires PlainNode(n) && PlainNode(m)
    ensures NodeFingerprint(n) == NodeFingerprint(m) <==> SameGateway(n, m)
  {
    hide NodeFingerprint, NodeText;
    FingerprintIsText(n);
    FingerprintIsText(m);
    TextsTell(n, m, "", "");
    assert NodeText(n) + "" == NodeText(n) && NodeText(m) + "" == NodeText(m);
  }

  /** Lists of gateways configured alike, one by one. */
  ghost predicate Alike(a: seq<Node>, b: seq<Node>) {
    |a| == |b| && forall i :: 0 <= i < |a| ==> SameGateway(a[i], b[i])
  }

  ghost predicate AllPlain(ns: seq<Node>) {
    forall i :: 0 <= i < |ns| ==> PlainNode(ns[i])
  }

  /** What follows the first gateway in a list's fingerprint. */
  function Rest(ns: seq<Node>): (t: string)
    requires ns != []
    ensures Tail(t)
  {
    if |ns| == 1 then "" else "," + Fingerprint(ns[1..])
  }

  lemma FingerprintParts(ns: seq<Node>)
    requires AllPlain(ns) && ns != []
    ensures Fingerprint(ns) == NodeText(ns[0]) + Rest(ns) && |Fingerprint(ns)| > 0
  {
    FingerprintIsText(ns[0]);
    assert NodeFingerprints(ns)[1..] == NodeFingerprints(ns[1..]);
    assert |ns| > 1 ==> ns[1..] != [] && NodeFingerprints(ns[1..]) != [];
  }

  /** Two lists of gateways have one fingerprint exactly when they are configured alike. */
  lemma {:induction false} ListTells(a: seq<Node>, b: seq<Node>)
    requires AllPlain(a) && AllPlain(b)
    ensures Fingerprint(a) == Fingerprint(b) <==> Alike(a, b)
  {
    if a == [] || b == [] {
      if a != [] { FingerprintParts(a); }
      if b != [] { FingerprintParts(b); }
    } else {
      FingerprintParts(a);
      FingerprintParts(b);
      ListTells(a[1..], b[1..]);
      hide Fingerprint, NodeText, PlainNode, SameGateway;
      TextsTell(a[0], b[0], Rest(a), Rest(b));
      RestTells(a, b);
      assert Alike(a, b) <==> SameGateway(a[0], b[0]) && Alike(a[1..], b[1..]) by { AlikeParts(a, b); }
    }
  }

  lemma AlikeParts(a: seq<Node>, b: seq<Node>)
    requires a != [] && b != []
    ensures Alike(a, b) <==> SameGateway(a[0], b[0]) && Alike(a[1..], b[1..])
  {
    hide SameGateway;
    if SameGateway(a[0], b[0]) && Alike(a[1..], b[1..]) {
      forall i | 0 <= i < |a| ensures SameGateway(a[i], b[i]) {
        if i > 0 { assert a[i] == a[1..][i - 1] && b[i] == b[1..][i - 1]; }
      }
    }
  }

  lemma RestTells(a: seq<Node>, b: seq<Node>)
    requires AllPlain(a) && AllPlain(b) && a != [] && b != []
    ensures Rest(a) == Rest(b) <==> Fingerprint(a[1..]) == Fingerprint(b[1..])
  {
    if |a| > 1 { FingerprintParts(a[1..]); }
    if |b| > 1 { FingerprintParts(b[1..]); }
    if |a| > 1 && |b| > 1 { assert Rest(a)[1..] == Fingerprint(a[1..]) && Rest(b)[1..] == Fingerprint(b[1..]); }
  }

  /** With a separator in a name the fingerprint no longer tells: a gateway that moves a bar from its server name to
      its key id, or a comma between capabilities, keeps its fingerprint. */
  lemma SeparatorsCollide(n: Node, c: Channel, a: string, b: string, k: string)
    ensures NodeFingerprint(n.(channels := [c.(serverName := a + "|" + b, udpKeyId := k)])) ==
            NodeFingerprint(n.(channels := [c.(serverName := a, udpKeyId := b + "|" + k)]))
    ensures NodeFingerprint(n.(capabilities := [a, b])) == NodeFingerprint(n.(capabilities := [a + "," + b]))
  {
    var x, y := c.(serverName := a + "|" + b, udpKeyId := k), c.(serverName := a, udpKeyId := b + "|" + k);
    var front, back := Dec(c.kind) + "|" + c.addr + "|", "|" + k + "|" + Hex(c.udpPublicKey);
    assert ChannelText(x) == front + (a + "|" + b) + back;
    assert ChannelText(y) == front + (a + "|" + b) + back;
    assert ChannelTexts([x]) == [ChannelText(x)] && ChannelTexts([y]) == [ChannelText(y)];
    assert [a, b][1..] == [b];
    assert JoinStrings([a, b], ",") == a + "," + b == JoinStrings([a + "," + b], ",");
  }

  // ------------------------------------------------------------- grants stay current

  /** The cached grant was minted for a gateway configured like `n`. */
  ghost predicate MintedFrom(c: Cached, n: Node) {
    && PlainNode(n) && c.gatewayId == n.gatewayId && c.fingerprint == NodeFingerprint(n)
    && c.grant.channel == n.channels[0] && c.grant.capabilities == n.capabilities
  }

  ghost predicate HasMint(c: Cached) {
    exists n :: MintedFrom(c, n)
  }

  ghost predicate Sourced(cache: Cache) {
    forall k :: k in cache ==> HasMint(cache[k])
  }

  ghost predicate PlainNodes(nodes: map<string, Node>) {
    forall g :: g in nodes ==> PlainNode(nodes[g])
  }

  ghost predicate Plain(s: State) {
    PlainNodes(s.nodes) && PlainNodes(s.seen) && Sourced(s.cache)
  }

  ghost predicate PlainOp(op: Op) {
    op.DoReport? && op.r.channel.Some? ==> PlainNode(ReportedNode(op.r, 0))
  }

  lemma IssueSourced(s: State, call: Call, known: bool, n: Node, salt: nat, now: int)
    requires Sourced(s.cache) && PlainNode(n)
    ensures Sourced(IssueFor(s, call, known, n, salt, now).cache)
  {
    hide NodeFingerprint, Key, PlainNode;
    var r := IssueFor(s, call, known, n, salt, now);
    if r.minted { assert MintedFrom(r.cache[Key(call.owner, n.gatewayId)], n); }
  }

  lemma {:induction false} BatchSourced(s: State, call: Call, known: bool, nodes: seq<Node>, k: nat, now: int)
    requires k <= |nodes| && Sourced(s.cache) && AllPlain(nodes)
    ensures Sourced(IssueAll(s, call, known, nodes, k, now).cache)
  {
    if k > 0 {
      hide IssueFor, Sourced, PlainNode;
      BatchSourced(s, call, known, nodes, k - 1, now);
      IssueSourced(s.(cache := IssueAll(s, call, known, nodes, k - 1, now).cache), call, known, nodes[k - 1], k - 1,
                   now);
    }
  }

  lemma AlivePlain(s: State, now: int)
    requires Good(s) && Plain(s)
    ensures AllPlain(AliveList(s, now))
  {
    AliveFacts(s, now);
    hide AliveList, PlainNode;
  }

  lemma ServePlain(s: State, call: Call, now: int)
    requires Good(s) && Plain(s)
    ensures Plain(Served(s, call, now))
  {
    AlivePlain(s, now);
    PrunedSourced(s, now);
    hide IssueAll, AliveList, PlainNode, HasMint, Fingerprint, Pruned, Known;
    BatchSourced(Prepared(s, now), call, Known(s, call, now), AliveList(s, now), |AliveList(s, now)|, now);
  }

  lemma PrunedSourced(s: State, now: int)
    requires Sourced(s.cache)
    ensures Sourced(Pruned(s, now))
  {
    hide HasMint, Fresh;
  }

  lemma StepPlain(s: State, op: Op, now: int)
    requires Good(s) && Plain(s) && PlainOp(op)
    ensures Plain(Step(s, op, now))
  {
    if op.DoServe? {
      hide Served, Good, Plain;
      ServePlain(s, op.call, now);
    } else {
      AdminPlain(s, op, now);
    }
  }

  lemma AdminPlain(s: State, op: Op, now: int)
    requires Plain(s) && PlainOp(op) && !op.DoServe?
    ensures Plain(Step(s, op, now))
  {
    hide Trim, HasMint, Fingerprint, AliveList, Allowed, PlainNode;
    if op.DoReport? && op.r.channel.Some? { ReportedPlain(op.r, now); }
  }

  lemma ReportedPlain(r: Report, now: int)
    requires r.channel.Some? && PlainNode(ReportedNode(r, 0))
    ensures PlainNode(ReportedNode(r, now))
  {
  }

  /** Over every run with such names each cached grant has the channel and the capabilities of a gateway with the
      fingerprint it is filed under. */
  lemma {:induction false} RunPlain(s: State, steps: seq<Timed>, i: nat)
    requires Good(s) && Plain(s) && i <= |steps| && forall j :: 0 <= j < |steps| ==> PlainOp(steps[j].op)
    ensures Plain(StateAt(s, steps, i))
  {
    if i > 0 {
      hide Step, Good, Plain, PlainOp;
      RunPlain(s, steps, i - 1);
      RunGood(s, steps, i - 1);
      StepPlain(StateAt(s, steps, i - 1), steps[i - 1].op, steps[i - 1].now);
    }
  }

  /** The grant has the channel and the capabilities the gateway it names has now. */
  ghost predicate Current(s: State, x: Grant) {
    && x.gatewayId in s.nodes && s.nodes[x.gatewayId].channels != []
    && x.channel == s.nodes[x.gatewayId].channels[0] && x.capabilities == s.nodes[x.gatewayId].capabilities
  }

  lemma FreshIsCurrent(s: State, c: Cached, now: int, rev: uint64)
    requires Plain(s) && Coherent(c) && HasMint(c) && Fresh(s, c, now)
    ensures Current(s, c.grant.(policyRev := rev))
  {
    var n :| MintedFrom(c, n);
    hide NodeFingerprint, PlainNode, Approved;
    FingerprintTells(n, s.nodes[c.gatewayId]);
  }

  /** Every grant handed out, kept, minted or retained, is current. */
  lemma ListedIsCurrent(s: State, call: Call, now: int, order: seq<string>, x: Grant)
    requires Good(s) && Plain(s) && RetainedWalk(s, call, now, order) && x in GrantList(s, call, now, order)
    ensures Current(s, x)
  {
    GrantListMember(s, call, now, order, x);
    hide GrantList, RetainedWalk, Prepared, NodeFingerprint, PlainNode, Key, Prefix, Approved;
    if i: nat :| AliveGrant(s, call, now, i, x) {
      SlotIsCurrent(s, call, now, i, x);
    } else {
      var k :| SilentGrant(s, call, now, k, x);
      assert Coherent(s.cache[k]) && HasMint(s.cache[k]);
      FreshIsCurrent(s, s.cache[k], now, Prepared(s, now).rev);
    }
  }

  lemma SlotIsCurrent(s: State, call: Call, now: int, i: nat, x: Grant)
    requires Good(s) && Plain(s) && AliveGrant(s, call, now, i, x)
    ensures Current(s, x)
  {
    AliveFacts(s, now);
    hide Prepared, NodeFingerprint, PlainNode, Key, Approved, AliveList, Reissues, Carried, HasMint;
    var n := AliveList(s, now)[i];
    if Keeps(s, call, n.gatewayId, now) {
      var c := s.cache[Key(call.owner, n.gatewayId)];
      assert Coherent(c) && HasMint(c);
      FreshIsCurrent(s, c, now, Prepared(s, now).rev);
    }
  }

  /** From a start with nothing registered or cached, whatever was reported, approved, delisted and served before. */
  lemma RunListsCurrent(s: State, steps: seq<Timed>, i: nat, call: Call, now: int, order: seq<string>, x: Grant)
    requires s.nodes == map[] && s.seen == map[] && s.cache == map[] && i <= |steps|
    requires forall j :: 0 <= j < |steps| ==> PlainOp(steps[j].op)
    requires RetainedWalk(StateAt(s, steps, i), call, now, order)
    requires x in GrantList(StateAt(s, steps, i), call, now, order)
    ensures Current(StateAt(s, steps, i), x)
  {
    assert Good(s) && Plain(s);
    hide StateAt, GrantList, RetainedWalk, Good, Plain, PlainOp, Current;
    RunGood(s, steps, i);
    RunPlain(s, steps, i);
    ListedIsCurrent(StateAt(s, steps, i), call, now, order, x);
  }

  // -------------------------------------------------------------- a new revision

  /** The same gateways are alive, each configured as before. */
  ghost predicate Unchanged(s: State, now: int, s': State, later: int) {
    && AliveIds(s', later) == AliveIds(s, now)
    && forall g :: g in AliveIds(s, now) ==> SameGateway(s.nodes[g], s'.nodes[g])
  }

  lemma AliveAtBoth(s: State, now: int, s': State, later: int, g: string)
    requires Good(s) && Good(s') && Alike(AliveList(s, now), AliveList(s', later)) && g in AliveIds(s, now)
    ensures g in s.nodes && g in AliveIds(s', later) && g in s'.nodes && SameGateway(s.nodes[g], s'.nodes[g])
  {
    AliveFacts(s', later);
    var i := AliveIndex(s, now, g);
    hide AliveList, AliveIds, Good, IsAliveList;
    assert IsAliveNode(s', later, AliveList(s', later)[i]);
  }

  lemma AlikeBack(a: seq<Node>, b: seq<Node>)
    requires Alike(a, b)
    ensures Alike(b, a)
  {
  }

  lemma AlikeMeansUnchanged(s: State, now: int, s': State, later: int)
    requires Good(s) && Good(s') && Alike(AliveList(s, now), AliveList(s', later))
    ensures Unchanged(s, now, s', later)
  {
    AlikeBack(AliveList(s, now), AliveList(s', later));
    hide AliveList, Alike, AliveIds, Good, SameGateway;
    forall g | g in AliveIds(s, now) ensures g in AliveIds(s', later) && SameGateway(s.nodes[g], s'.nodes[g]) {
      AliveAtBoth(s, now, s', later, g);
    }
    forall g | g in AliveIds(s', later) ensures g in AliveIds(s, now) { AliveAtBoth(s', later, s, now, g); }
  }

  lemma AliveIdsListed(s: State, now: int)
    requires Good(s)
    ensures Ranked(s.conf.defaultId, Ids(NodeId, AliveList(s, now))) &&
      |Ids(NodeId, AliveList(s, now))| == |AliveList(s, now)|
    ensures forall g :: g in Ids(NodeId, AliveList(s, now)) <==> g in AliveIds(s, now)
  {
    AliveFacts(s, now);
    hide AliveList, AliveIds;
    forall g ensures g in Ids(NodeId, AliveList(s, now)) <==> g in AliveIds(s, now) {
      AliveIdListed(s, now, AliveList(s, now), g);
    }
  }

  lemma UnchangedMeansAlike(s: State, now: int, s': State, later: int)
    requires Good(s) && Good(s') && s'.conf == s.conf && Unchanged(s, now, s', later)
    ensures Alike(AliveList(s, now), AliveList(s', later))
  {
    var l, m := AliveList(s, now), AliveList(s', later);
    AliveIdsListed(s, now);
    AliveIdsListed(s', later);
    AliveFacts(s, now);
    AliveFacts(s', later);
    hide AliveList, Good, IsAliveList, AliveIds, SameGateway, Ranked;
    RankedUnique(s.conf.defaultId, Ids(NodeId, l), Ids(NodeId, m));
    forall i | 0 <= i < |l| ensures SameGateway(l[i], m[i]) {
      assert IsAliveNode(s, now, l[i]) && IsAliveNode(s', later, m[i]);
      assert NodeId(l[i]) == Ids(NodeId, l)[i] == Ids(NodeId, m)[i] == NodeId(m[i]);
    }
  }

  /** A synced policy stays at its revision exactly when the same gateways are alive, each with the endpoint, the
      capabilities and the channel it had. */
  lemma RevisionTells(s: State, now: int, s': State, later: int)
    requires Good(s) && Good(s') && Plain(s) && Plain(s') && s'.conf == s.conf
    requires s'.rev == s.rev != 0 && s'.fingerprint == s.fingerprint == Fingerprint(AliveList(s, now))
    ensures var rev := Sync(s', Fingerprint(AliveList(s', later))).rev;
      if Unchanged(s, now, s', later) then rev == s.rev else rev == NextRev(s.rev) != s.rev
  {
    hide AliveList, Fingerprint, Good, Plain, Unchanged;
    AlivePlain(s, now);
    AlivePlain(s', later);
    ListTells(AliveList(s, now), AliveList(s', later));
    if Unchanged(s, now, s', later) { UnchangedMeansAlike(s, now, s', later); }
    if Alike(AliveList(s, now), AliveList(s', later)) { AlikeMeansUnchanged(s, now, s', later); }
  }

  lemma ReportAdmitted(s: State, r: Report, later: int)
    requires Admit(s, r, true, later).0 == Registered
    ensures var s' := Admit(s, r, true, later).1;
      && s'.conf == s.conf && s'.rev == s.rev && s'.fingerprint == s.fingerprint
      && s'.nodes == s.nodes[r.gatewayId := Node(r.gatewayId, r.endpoint, r.capabilities, [r.channel.value], later)]
  {
  }

  /** A registered report that changes the endpoint, the capabilities or the channel of an alive gateway starts a
      new revision, whatever becomes of the others. */
  lemma ReportMovesRevision(s: State, r: Report, now: int, later: int)
    requires Good(s) && Plain(s) && PlainOp(DoReport(r, true)) && s.rev != 0
    requires s.fingerprint == Fingerprint(AliveList(s, now)) && r.gatewayId in AliveIds(s, now)
    requires Admit(s, r, true, later).0 == Registered
    requires var n := s.nodes[r.gatewayId];
      n.endpoint != r.endpoint || n.capabilities != r.capabilities || n.channels != [r.channel.value]
    ensures var s' := Admit(s, r, true, later).1;
      Sync(s', Fingerprint(AliveList(s', later))).rev == NextRev(s.rev) != s.rev
  {
    var s' := Admit(s, r, true, later).1;
    ReportAdmitted(s, r, later);
    StepGood(s, DoReport(r, true), later);
    StepPlain(s, DoReport(r, true), later);
    hide AliveList, Fingerprint, Good, Plain, Admit, AliveIds, Sync;
    RevisionTells(s, now, s', later);
  }
}
