/** The hub of control streams (handlers/quic.go): three maps that must agree, by route, by
    remote address and by plain virtual IP. */
module StreamHub {
  import opened Text

  /** A control stream; `id` is its identity as an object. */
  datatype Stream = Stream(id: nat, remoteAddr: string)

  // ---------------------------------------------------------------- route keys

  function RouteKey(networkKey: string, ip: uint32): string {
    Trim(networkKey) + ['|'] + Dec(ip)
  }

  /** The address part of a route key: everything after the first bar, if it is a number. */
  function RouteIP(key: string): Option<uint32> {
    match Cut(key, '|')
    case None => None
    case Some((_, text)) => ParseUint32(text)
  }

  lemma {:induction false} CutFindsFirst(s: string)
    ensures '|' !in s ==> Cut(s, '|') == None
    ensures '|' in s ==> Cut(s, '|').Some? && '|' !in Cut(s, '|').value.0 &&
                         s == Cut(s, '|').value.0 + ['|'] + Cut(s, '|').value.1
  {
    if s != "" {
      CutFindsFirst(s[1..]);
      assert s == [s[0]] + s[1..];
    }
  }

  lemma DecHasNoBar(ip: nat)
    ensures '|' !in Dec(ip)
  {
  }

  /** A route key gives back its address exactly when the network key holds no bar. */
  lemma RouteIPOfKey(networkKey: string, ip: uint32)
    ensures RouteIP(RouteKey(networkKey, ip)) == if '|' in Trim(networkKey) then None else Some(ip)
  {
    var n, d := Trim(networkKey), Dec(ip);
    DecValue(ip);
    if '|' !in n {
      CutAtFirst(n, '|', d);
    } else {
      CutFindsFirst(n);
      var (a, b) := Cut(n, '|').value;
      assert n + ['|'] + d == a + ['|'] + (b + ['|'] + d);
      CutAtFirst(a, '|', b + ['|'] + d);
      assert (b + ['|'] + d)[|b|] == '|';
    }
  }

  /** Route keys are unambiguous for every pair of (trimmed) network key and address: the address
      is what follows the last bar. */
  lemma RouteKeyInjective(n1: string, ip1: uint32, n2: string, ip2: uint32)
    requires RouteKey(n1, ip1) == RouteKey(n2, ip2)
    ensures Trim(n1) == Trim(n2) && ip1 == ip2
  {
    DecHasNoBar(ip1);
    DecHasNoBar(ip2);
    SplitLast(Trim(n1), Dec(ip1), Trim(n2), Dec(ip2), '|');
    DecInjective(ip1, ip2);
  }

  // ------------------------------------------------------------------ the maps

  datatype Hub = Hub(byIP: map<uint32, Stream>, byRoute: map<string, Stream>,
                     byAddr: map<string, map<string, Stream>>)

  const EMPTY: Hub := Hub(map[], map[], map[])

  /** The two indexes are exact inverses without empty entries. */
  ghost predicate Inverse(h: Hub) {
    && (forall key :: key in h.byRoute ==> Indexed(h, h.byRoute[key].remoteAddr, key, h.byRoute[key]))
    && (forall addr, key :: addr in h.byAddr && key in h.byAddr[addr] ==>
          Routed(h, key, h.byAddr[addr][key]) && h.byAddr[addr][key].remoteAddr == addr)
    && (forall addr :: addr in h.byAddr ==> h.byAddr[addr] != map[])
  }

  /** The plain-IP map points only at the stream that holds the route with an empty network key. */
  ghost predicate PlainRouted(h: Hub) {
    forall ip :: ip in h.byIP ==> Routed(h, RouteKey("", ip), h.byIP[ip])
  }

  ghost predicate Consistent(h: Hub) {
    Inverse(h) && PlainRouted(h)
  }

  ghost predicate Routed(h: Hub, key: string, s: Stream) {
    key in h.byRoute && h.byRoute[key] == s
  }

  ghost predicate Indexed(h: Hub, addr: string, key: string, s: Stream) {
    addr in h.byAddr && key in h.byAddr[addr] && h.byAddr[addr][key] == s
  }

  function Without(byAddr: map<string, map<string, Stream>>, addr: string, keys: set<string>)
    : map<string, map<string, Stream>>
  {
    if addr !in byAddr then byAddr
    else if byAddr[addr] - keys == map[] then byAddr - {addr}
    else byAddr[addr := byAddr[addr] - keys]
  }

  /** Forgets the plain address of a route, if `target` holds it. */
  function DropIP(byIP: map<uint32, Stream>, key: string, target: Stream): map<uint32, Stream> {
    match RouteIP(key)
    case Some(ip) => if ip in byIP && byIP[ip] == target then byIP - {ip} else byIP
    case None => byIP
  }

  /** Removes one route, if `target` still holds it. */
  function Unroute(h: Hub, key: string, target: Stream): Hub {
    if key !in h.byRoute || h.byRoute[key] != target then h
    else
      var own := if target.remoteAddr in h.byAddr && key in h.byAddr[target.remoteAddr] &&
                    h.byAddr[target.remoteAddr][key] == target then {key} else {};
      Hub(DropIP(h.byIP, key, target), h.byRoute - {key}, Without(h.byAddr, target.remoteAddr, own))
  }

  function Register(h: Hub, addr: string, networkKey: string, ip: uint32, s: Stream): Hub {
    if ip == 0 then h
    else
      var key := RouteKey(networkKey, ip);
      var h1 := if key in h.byRoute && h.byRoute[key] != s then Unroute(h, key, h.byRoute[key]) else h;
      var ips := if addr in h1.byAddr then h1.byAddr[addr] else map[];
      Hub(if Trim(networkKey) == "" then h1.byIP[ip := s] else h1.byIP,
          h1.byRoute[key := s], h1.byAddr[addr := ips[key := s]])
  }

  /** The keys under which the address index lists `target`. */
  function OwnKeys(h: Hub, target: Stream): set<string> {
    if target.remoteAddr !in h.byAddr then {}
    else set key | key in h.byAddr[target.remoteAddr] && h.byAddr[target.remoteAddr][key] == target
  }

  /** Drops a stream that has ended or failed a write. */
  function Unregister(h: Hub, target: Stream): Hub {
    if target.remoteAddr == "" || target.remoteAddr !in h.byAddr then h
    else
      var keys := OwnKeys(h, target);
      Hub(h.byIP - IPsOf(h, keys, target), RoutesWithout(h, keys, target), Without(h.byAddr, target.remoteAddr, keys))
  }

  function IPsOf(h: Hub, keys: set<string>, target: Stream): set<uint32> {
    set key, ip | key in keys && ip in h.byIP && RouteIP(key) == Some(ip) && h.byIP[ip] == target :: ip
  }

  function RoutesWithout(h: Hub, keys: set<string>, target: Stream): map<string, Stream> {
    map key | key in h.byRoute && !(key in keys && h.byRoute[key] == target) :: h.byRoute[key]
  }

  lemma DropOneRoute(h: Hub, keys: set<string>, key: string, target: Stream)
    ensures RoutesWithout(h, keys + {key}, target) ==
            (if key in RoutesWithout(h, keys, target) && h.byRoute[key] == target
             then RoutesWithout(h, keys, target) - {key}
             else RoutesWithout(h, keys, target))
  {
  }

  lemma DropOneIP(h: Hub, keys: set<string>, key: string, target: Stream)
    ensures h.byIP - IPsOf(h, keys + {key}, target) == DropIP(h.byIP - IPsOf(h, keys, target), key, target)
  {
    var a, b := IPsOf(h, keys, target), IPsOf(h, keys + {key}, target);
    assert forall ip :: ip in b <==> ip in a || (ip in h.byIP && RouteIP(key) == Some(ip) && h.byIP[ip] == target);
  }

  // --------------------------------------------------------------- consistency

  lemma UnrouteKeepsIndex(h: Hub, key: string, target: Stream, a: string, k: string, s: Stream)
    requires Routed(h, key, target) && Indexed(h, target.remoteAddr, key, target) && Indexed(h, a, k, s) && k != key
    ensures Indexed(Unroute(h, key, target), a, k, s)
  {
    if a == target.remoteAddr { assert k in h.byAddr[a] - {key}; }
  }

  /** What is left in the address index was there before, and is not the route removed. */
  lemma UnrouteIndexWithin(h: Hub, key: string, target: Stream, a: string, k: string)
    requires Routed(h, key, target) && Indexed(h, target.remoteAddr, key, target)
    requires a in Unroute(h, key, target).byAddr && k in Unroute(h, key, target).byAddr[a]
    ensures Indexed(h, a, k, Unroute(h, key, target).byAddr[a][k]) && (k == key ==> a != target.remoteAddr)
  {
  }

  lemma UnrouteDrops(h: Hub, key: string, target: Stream)
    requires Routed(h, key, target) && Indexed(h, target.remoteAddr, key, target)
    ensures Unroute(h, key, target).byRoute == h.byRoute - {key}
    ensures (forall a :: a in h.byAddr ==> h.byAddr[a] != map[]) ==>
      forall a :: a in Unroute(h, key, target).byAddr ==> Unroute(h, key, target).byAddr[a] != map[]
  {
  }

  lemma UnrouteInverse(h: Hub, key: string, target: Stream)
    requires Inverse(h)
    ensures Inverse(Unroute(h, key, target))
  {
    var h' := Unroute(h, key, target);
    if Routed(h, key, target) {
      hide Unroute;
      assert Indexed(h, target.remoteAddr, key, target);
      UnrouteDrops(h, key, target);
      forall k | k in h'.byRoute ensures Indexed(h', h'.byRoute[k].remoteAddr, k, h'.byRoute[k]) {
        assert Indexed(h, h.byRoute[k].remoteAddr, k, h.byRoute[k]);
        UnrouteKeepsIndex(h, key, target, h.byRoute[k].remoteAddr, k, h.byRoute[k]);
      }
      forall a, k | a in h'.byAddr && k in h'.byAddr[a]
        ensures Routed(h', k, h'.byAddr[a][k]) && h'.byAddr[a][k].remoteAddr == a
      {
        UnrouteIndexWithin(h, key, target, a, k);
        assert Routed(h, k, h.byAddr[a][k]);
      }
    }
  }

  lemma RegisterInverse(h: Hub, addr: string, networkKey: string, ip: uint32, s: Stream)
    requires Inverse(h) && ip != 0
    ensures Inverse(Register(h, addr, networkKey, ip, s)) <==> s.remoteAddr == addr
  {
    var key := RouteKey(networkKey, ip);
    var h1 := if key in h.byRoute && h.byRoute[key] != s then Unroute(h, key, h.byRoute[key]) else h;
    if key in h.byRoute { UnrouteInverse(h, key, h.byRoute[key]); }
    AddInverse(h1, addr, key, s, Register(h, addr, networkKey, ip, s));
  }

  lemma AddInverse(h1: Hub, addr: string, key: string, s: Stream, h': Hub)
    requires Inverse(h1) && (key in h1.byRoute ==> h1.byRoute[key] == s)
    requires h'.byRoute == h1.byRoute[key := s]
    requires h'.byAddr == h1.byAddr[addr := (if addr in h1.byAddr then h1.byAddr[addr] else map[])[key := s]]
    ensures Inverse(h') <==> s.remoteAddr == addr
  {
    assert Indexed(h', addr, key, s);
    if s.remoteAddr == addr {
      forall k | k in h'.byRoute ensures Indexed(h', h'.byRoute[k].remoteAddr, k, h'.byRoute[k]) {
        if k != key { assert Indexed(h1, h1.byRoute[k].remoteAddr, k, h1.byRoute[k]); }
      }
      forall a, k | a in h'.byAddr && k in h'.byAddr[a]
        ensures Routed(h', k, h'.byAddr[a][k]) && h'.byAddr[a][k].remoteAddr == a
      {
        if !(a == addr && k == key) { assert Routed(h1, k, h1.byAddr[a][k]); }
      }
    }
  }

  lemma UnregisterInverse(h: Hub, target: Stream)
    requires Inverse(h)
    ensures Inverse(Unregister(h, target))
  {
    var h' := Unregister(h, target);
    if target.remoteAddr != "" && target.remoteAddr in h.byAddr {
      var keys := OwnKeys(h, target);
      forall k | k in h'.byRoute ensures Indexed(h', h'.byRoute[k].remoteAddr, k, h'.byRoute[k]) {
        var a := h.byRoute[k].remoteAddr;
        assert Indexed(h, a, k, h.byRoute[k]);
        if a == target.remoteAddr { assert k in h.byAddr[a] - keys; }
      }
      forall a, k | a in h'.byAddr && k in h'.byAddr[a]
        ensures Routed(h', k, h'.byAddr[a][k]) && h'.byAddr[a][k].remoteAddr == a
      {
        assert Routed(h, k, h.byAddr[a][k]);
      }
    }
  }

  /** The key of an empty network gives back its address and is no other route's key. */
  lemma PlainKey(j: uint32)
    ensures RouteIP(RouteKey("", j)) == Some(j)
  {
    RouteIPOfKey("", j);
  }

  lemma UnroutePlain(h: Hub, key: string, target: Stream)
    requires PlainRouted(h)
    ensures PlainRouted(Unroute(h, key, target))
  {
    var h' := Unroute(h, key, target);
    forall j | j in h'.byIP ensures Routed(h', RouteKey("", j), h'.byIP[j]) {
      PlainKey(j);
      assert Routed(h, RouteKey("", j), h.byIP[j]);
    }
  }

  lemma RegisterPlain(h: Hub, addr: string, networkKey: string, ip: uint32, s: Stream)
    requires PlainRouted(h)
    ensures PlainRouted(Register(h, addr, networkKey, ip, s))
  {
    var key := RouteKey(networkKey, ip);
    var h1 := if key in h.byRoute && h.byRoute[key] != s then Unroute(h, key, h.byRoute[key]) else h;
    if key in h.byRoute { UnroutePlain(h, key, h.byRoute[key]); }
    var h' := Register(h, addr, networkKey, ip, s);
    forall j | j in h'.byIP ensures Routed(h', RouteKey("", j), h'.byIP[j]) {
      if j in h1.byIP { assert Routed(h1, RouteKey("", j), h1.byIP[j]); }
      if RouteKey("", j) == key { RouteKeyInjective("", j, networkKey, ip); }
      if j == ip && Trim(networkKey) == "" { SameNetworkKey("", networkKey, ip); }
    }
  }

  lemma SameNetworkKey(n1: string, n2: string, ip: uint32)
    requires Trim(n1) == Trim(n2)
    ensures RouteKey(n1, ip) == RouteKey(n2, ip)
  {
  }

  lemma UnregisterPlain(h: Hub, target: Stream)
    requires Consistent(h)
    ensures PlainRouted(Unregister(h, target))
  {
    var h' := Unregister(h, target);
    forall j | j in h'.byIP ensures Routed(h', RouteKey("", j), h'.byIP[j]) {
      var key := RouteKey("", j);
      PlainKey(j);
      assert Routed(h, key, h.byIP[j]);
      assert Indexed(h, h.byRoute[key].remoteAddr, key, h.byRoute[key]);
    }
  }

  /** In a consistent hub, dropping a stream removes every entry that points at it and no other:
      a stream that was replaced cannot take its replacement with it. */
  lemma UnregisterExact(h: Hub, target: Stream)
    requires Consistent(h) && target.remoteAddr != ""
    ensures forall key, s :: Routed(Unregister(h, target), key, s) <==> Routed(h, key, s) && s != target
    ensures forall ip :: ip in Unregister(h, target).byIP <==> ip in h.byIP && h.byIP[ip] != target
    ensures forall ip :: ip in Unregister(h, target).byIP ==> Unregister(h, target).byIP[ip] == h.byIP[ip]
  {
    var h' := Unregister(h, target);
    forall key, s ensures Routed(h', key, s) <==> Routed(h, key, s) && s != target {
      if Routed(h, key, s) { assert Indexed(h, s.remoteAddr, key, s); }
    }
    forall ip | ip in h.byIP && h.byIP[ip] == target ensures ip !in h'.byIP {
      var key := RouteKey("", ip);
      PlainKey(ip);
      assert Routed(h, key, target);
      assert Indexed(h, h.byRoute[key].remoteAddr, key, target);
      assert key in OwnKeys(h, target);
    }
  }

  // ------------------------------------------------------------------- runs

  /** What happens to the hub: a registration, the end of a stream or a failed write to it, or the
      removal of one stale route. */
  datatype Op = DoRegister(addr: string, networkKey: string, ip: uint32, s: Stream)
              | DoUnregister(target: Stream)
              | DoUnroute(networkKey: string, ip: uint32, target: Stream)

  function Apply(h: Hub, op: Op): Hub {
    match op
    case DoRegister(addr, networkKey, ip, s) => Register(h, addr, networkKey, ip, s)
    case DoUnregister(target) => Unregister(h, target)
    case DoUnroute(networkKey, ip, target) =>
      if target.remoteAddr == "" then h else Unroute(h, RouteKey(networkKey, ip), target)
  }

  function Run(h: Hub, ops: seq<Op>): Hub
    decreases |ops|
  {
    if ops == [] then h else Run(Apply(h, ops[0]), ops[1..])
  }

  /** Streams are registered under their own, non-empty, address, as the session loop does. */
  predicate OwnAddress(op: Op) {
    op.DoRegister? ==> op.s.remoteAddr == op.addr && op.addr != ""
  }

  /** The simple form: one map from route to stream, last registration wins, a dropped stream
      leaves no route. */
  type Routes = map<(string, uint32), Stream>

  function SimpleApply(r: Routes, op: Op): Routes {
    match op
    case DoRegister(_, networkKey, ip, s) => if ip == 0 then r else r[(Trim(networkKey), ip) := s]
    case DoUnregister(target) =>
      if target.remoteAddr == "" then r else map k | k in r && r[k] != target :: r[k]
    case DoUnroute(networkKey, ip, target) =>
      var k := (Trim(networkKey), ip);
      if target.remoteAddr != "" && k in r && r[k] == target then r - {k} else r
  }

  function SimpleRun(r: Routes, ops: seq<Op>): Routes
    decreases |ops|
  {
    if ops == [] then r else SimpleRun(SimpleApply(r, ops[0]), ops[1..])
  }

  /** Routes are exactly the simple form's; the map of plain addresses holds nothing else, but may lack some. */
  ghost predicate Refines(h: Hub, r: Routes) {
    && (forall n: string, ip: uint32, s :: Routed(h, RouteKey(n, ip), s) <==>
        (Trim(n), ip) in r && r[(Trim(n), ip)] == s)
    && (forall ip :: ip in h.byIP ==> ("", ip) in r && r[("", ip)] == h.byIP[ip])
  }

  lemma UnrouteRoutes(h: Hub, n: string, ip: uint32, target: Stream, r: Routes)
    requires Refines(h, r) && Consistent(h)
    ensures Refines(Unroute(h, RouteKey(n, ip), target),
                    if (Trim(n), ip) in r && r[(Trim(n), ip)] == target then r - {(Trim(n), ip)} else r)
  {
    var key := RouteKey(n, ip);
    var h' := Unroute(h, key, target);
    var r' := if (Trim(n), ip) in r && r[(Trim(n), ip)] == target then r - {(Trim(n), ip)} else r;
    forall m: string, j: uint32, s
      ensures Routed(h', RouteKey(m, j), s) <==> (Trim(m), j) in r' && r'[(Trim(m), j)] == s
    {
      if RouteKey(m, j) == key { RouteKeyInjective(m, j, n, ip); }
      if Trim(m) == Trim(n) && j == ip { SameNetworkKey(m, n, ip); }
      assert Routed(h, RouteKey(m, j), s) <==> (Trim(m), j) in r && r[(Trim(m), j)] == s;
      assert Routed(h, key, target) <==> (Trim(n), ip) in r && r[(Trim(n), ip)] == target;
    }
    UnroutePlain(h, key, target);
    PlainRefines(h', r');
  }

  lemma PlainRefines(h: Hub, r: Routes)
    requires PlainRouted(h)
    requires forall n: string, ip: uint32, s :: Routed(h, RouteKey(n, ip), s) <==>
      (Trim(n), ip) in r && r[(Trim(n), ip)] == s
    ensures Refines(h, r)
  {
    forall ip | ip in h.byIP ensures ("", ip) in r && r[("", ip)] == h.byIP[ip] {
      assert Routed(h, RouteKey("", ip), h.byIP[ip]);
      assert Trim("") == "";
    }
  }

  lemma RegisterRoutes(h: Hub, addr: string, n: string, ip: uint32, s: Stream, r: Routes)
    requires Refines(h, r) && Consistent(h) && ip != 0
    ensures Refines(Register(h, addr, n, ip, s), r[(Trim(n), ip) := s])
  {
    var key := RouteKey(n, ip);
    var h', r' := Register(h, addr, n, ip, s), r[(Trim(n), ip) := s];
    forall m: string, j: uint32, t
      ensures Routed(h', RouteKey(m, j), t) <==> (Trim(m), j) in r' && r'[(Trim(m), j)] == t
    {
      if RouteKey(m, j) == key { RouteKeyInjective(m, j, n, ip); }
      if Trim(m) == Trim(n) && j == ip { SameNetworkKey(m, n, ip); }
      assert Routed(h, RouteKey(m, j), t) <==> (Trim(m), j) in r && r[(Trim(m), j)] == t;
    }
    RegisterPlain(h, addr, n, ip, s);
    PlainRefines(h', r');
  }

  lemma StepRefines(h: Hub, op: Op, r: Routes)
    requires Consistent(h) && OwnAddress(op) && Refines(h, r)
    ensures Consistent(Apply(h, op)) && Refines(Apply(h, op), SimpleApply(r, op))
  {
    match op
    case DoRegister(addr, n, ip, s) =>
      if ip != 0 {
        RegisterInverse(h, addr, n, ip, s);
        RegisterPlain(h, addr, n, ip, s);
        RegisterRoutes(h, addr, n, ip, s, r);
      }
    case DoUnregister(target) =>
      UnregisterInverse(h, target);
      UnregisterPlain(h, target);
      if target.remoteAddr != "" {
        UnregisterExact(h, target);
        PlainRefines(Apply(h, op), SimpleApply(r, op));
      }
    case DoUnroute(n, ip, target) =>
      if target.remoteAddr != "" {
        UnrouteInverse(h, RouteKey(n, ip), target);
        UnroutePlain(h, RouteKey(n, ip), target);
        UnrouteRoutes(h, n, ip, target, r);
      }
  }

  // Lookups without a network key read only the map of plain addresses.  Removing a route drops the plain
  // entry of its address whenever the same stream holds both, so such entries can be lost.

  /** The simple form with the plain addresses that lookups no longer find. */
  datatype Reference = Reference(routes: Routes, lost: set<uint32>)

  predicate IsPlain(n: string) { Trim(n) == "" }

  /** The step replaces or removes a route of `ip` under a non-blank, bar-free network key held by the very
      stream that holds the plain route. */
  predicate Evicts(r: Routes, op: Op, ip: uint32) {
    ("", ip) in r &&
    match op
    case DoRegister(_, n, j, s) =>
      j == ip != 0 && !IsPlain(n) && '|' !in Trim(n) && (Trim(n), ip) in r && r[(Trim(n), ip)] == r[("", ip)] != s
    case DoUnroute(n, j, t) =>
      j == ip && !IsPlain(n) && '|' !in Trim(n) && t.remoteAddr != "" && (Trim(n), ip) in r &&
        r[(Trim(n), ip)] == r[("", ip)] == t
    case DoUnregister(_) => false
  }

  predicate RegistersPlainly(op: Op, ip: uint32) {
    op.DoRegister? && op.ip == ip != 0 && IsPlain(op.networkKey)
  }

  /** A plain route is lost by an eviction and found again by its next registration. */
  predicate StaysLost(ref: Reference, op: Op, ip: uint32) {
    !RegistersPlainly(op, ip) && (ip in ref.lost || Evicts(ref.routes, op, ip))
  }

  function ReferenceApply(ref: Reference, op: Op): Reference {
    var r := SimpleApply(ref.routes, op);
    Reference(r, set k | k in r && k.0 == "" && StaysLost(ref, op, k.1) :: k.1)
  }

  function ReferenceRun(ref: Reference, ops: seq<Op>): Reference
    decreases |ops|
  {
    if ops == [] then ref else ReferenceRun(ReferenceApply(ref, ops[0]), ops[1..])
  }

  function ReferenceLookup(ref: Reference, n: string, ip: uint32): Option<Stream> {
    if (Trim(n), ip) !in ref.routes || (IsPlain(n) && ip in ref.lost) then None else Some(ref.routes[(Trim(n), ip)])
  }

  ghost predicate Found(h: Hub, ref: Reference) {
    forall ip :: ip in h.byIP <==> ("", ip) in ref.routes && ip !in ref.lost
  }

  lemma UnrouteByIP(h: Hub, n: string, ip: uint32, target: Stream, j: uint32)
    ensures var h' := Unroute(h, RouteKey(n, ip), target);
      && (j in h'.byIP <==>
            j in h.byIP && !(Routed(h, RouteKey(n, ip), target) && j == ip && '|' !in Trim(n) && h.byIP[j] == target))
      && (j in h'.byIP ==> h'.byIP[j] == h.byIP[j])
  {
    RouteIPOfKey(n, ip);
    hide RouteIP, RouteKey, Trim;
  }

  lemma RegisterByIP(h: Hub, addr: string, n: string, ip: uint32, s: Stream, j: uint32)
    requires ip != 0
    ensures var key := RouteKey(n, ip);
      j in Register(h, addr, n, ip, s).byIP <==>
        (j == ip && IsPlain(n)) ||
        (j in h.byIP && !(key in h.byRoute && h.byRoute[key] != s && j == ip && '|' !in Trim(n) &&
                          h.byIP[j] == h.byRoute[key]))
  {
    var key := RouteKey(n, ip);
    if key in h.byRoute { UnrouteByIP(h, n, ip, h.byRoute[key], j); }
    hide Unroute, RouteKey, Trim;
  }

  lemma LostMember(ref: Reference, op: Op, ip: uint32)
    ensures ip in ReferenceApply(ref, op).lost <==> ("", ip) in SimpleApply(ref.routes, op) && StaysLost(ref, op, ip)
  {
    hide SimpleApply, StaysLost;
    var r := SimpleApply(ref.routes, op);
    if ("", ip) in r && StaysLost(ref, op, ip) {
      var k := ("", ip);
      assert k in r && k.0 == "" && StaysLost(ref, op, k.1);
    }
  }

  lemma PlainTrim()
    ensures Trim("") == ""
  {
  }

  /** Routes and plain addresses of one step, at one address. */
  lemma RegisterFound(h: Hub, op: Op, ref: Reference, j: uint32)
    requires op.DoRegister? && op.ip != 0 && Refines(h, ref.routes) && Found(h, ref)
    ensures j in Apply(h, op).byIP <==> ("", j) in SimpleApply(ref.routes, op) && !StaysLost(ref, op, j)
  {
    RegisterByIP(h, op.addr, op.networkKey, op.ip, op.s, j);
    PlainTrim();
    var key := RouteKey(op.networkKey, op.ip);
    hide Register, RouteKey, Trim;
    if key in h.byRoute { assert Routed(h, key, h.byRoute[key]); }
    if (Trim(op.networkKey), op.ip) in ref.routes { assert Routed(h, key, ref.routes[(Trim(op.networkKey), op.ip)]); }
  }

  lemma UnrouteFound(h: Hub, op: Op, ref: Reference, j: uint32)
    requires op.DoUnroute? && op.target.remoteAddr != "" && Refines(h, ref.routes) && Found(h, ref)
    ensures j in Apply(h, op).byIP <==> ("", j) in SimpleApply(ref.routes, op) && !StaysLost(ref, op, j)
  {
    UnrouteByIP(h, op.networkKey, op.ip, op.target, j);
    PlainTrim();
    var key := RouteKey(op.networkKey, op.ip);
    hide Unroute, RouteKey, Trim;
    assert Routed(h, key, op.target) <==>
      (Trim(op.networkKey), op.ip) in ref.routes && ref.routes[(Trim(op.networkKey), op.ip)] == op.target;
  }

  lemma UnregisterFound(h: Hub, op: Op, ref: Reference, j: uint32)
    requires op.DoUnregister? && Consistent(h) && Refines(h, ref.routes) && Found(h, ref)
    ensures j in Apply(h, op).byIP <==> ("", j) in SimpleApply(ref.routes, op) && !StaysLost(ref, op, j)
  {
    if op.target.remoteAddr != "" { UnregisterExact(h, op.target); }
    hide Unregister, Consistent, Trim, RouteKey;
  }

  /** One step: routes as in the simple form, and a plain route is lost exactly by an eviction. */
  lemma StepFound(h: Hub, op: Op, ref: Reference)
    requires Consistent(h) && OwnAddress(op) && Refines(h, ref.routes) && Found(h, ref)
    ensures Consistent(Apply(h, op)) && Refines(Apply(h, op), ReferenceApply(ref, op).routes)
    ensures Found(Apply(h, op), ReferenceApply(ref, op))
  {
    StepRefines(h, op, ref.routes);
    hide Consistent, Refines, Register, Unregister, Unroute, SimpleApply, StaysLost;
    forall j ensures j in Apply(h, op).byIP <==>
      ("", j) in ReferenceApply(ref, op).routes && j !in ReferenceApply(ref, op).lost {
      LostMember(ref, op, j);
      if op.DoUnregister? {
        UnregisterFound(h, op, ref, j);
      } else if op.DoRegister? && op.ip != 0 {
        RegisterFound(h, op, ref, j);
      } else if op.DoUnroute? && op.target.remoteAddr != "" {
        UnrouteFound(h, op, ref, j);
      } else {
        IdleFound(op, ref, j);
      }
    }
  }

  lemma IdleFound(op: Op, ref: Reference, j: uint32)
    requires (op.DoRegister? && op.ip == 0) || (op.DoUnroute? && op.target.remoteAddr == "")
    ensures SimpleApply(ref.routes, op) == ref.routes && (StaysLost(ref, op, j) <==> j in ref.lost)
  {
  }

  lemma LookupExact(h: Hub, ref: Reference, n: string, ip: uint32)
    requires Refines(h, ref.routes) && Found(h, ref)
    ensures Lookup(h, n, ip) == ReferenceLookup(ref, n, ip)
  {
    var key := RouteKey(n, ip);
    hide RouteKey, Trim;
    if key in h.byRoute { assert Routed(h, key, h.byRoute[key]); }
    if (Trim(n), ip) in ref.routes { assert Routed(h, key, ref.routes[(Trim(n), ip)]); }
  }

  /** Over any sequence of registrations, replacements, removals and failed writes the three maps stay
      consistent, and every lookup answers as the reference does: under a network key as the simple
      last-registration-wins map, without one the same except for the plain routes lost. */
  lemma {:induction false} HubRefinesRoutes(h: Hub, ref: Reference, ops: seq<Op>)
    requires Consistent(h) && Refines(h, ref.routes) && Found(h, ref)
    requires forall i :: 0 <= i < |ops| ==> OwnAddress(ops[i])
    ensures Consistent(Run(h, ops)) && ReferenceRun(ref, ops).routes == SimpleRun(ref.routes, ops)
    ensures forall n, ip :: Lookup(Run(h, ops), n, ip) == ReferenceLookup(ReferenceRun(ref, ops), n, ip)
    decreases |ops|
  {
    hide Consistent, Refines, Found, Apply, ReferenceLookup, Lookup, SimpleApply, OwnAddress;
    if ops == [] {
      forall n, ip ensures Lookup(h, n, ip) == ReferenceLookup(ref, n, ip) { LookupExact(h, ref, n, ip); }
    } else {
      StepFound(h, ops[0], ref);
      HubRefinesRoutes(Apply(h, ops[0]), ReferenceApply(ref, ops[0]), ops[1..]);
    }
  }

  /** A plain route that the simple map still has is not found: a stream registered without a network key
      and under one, then replaced under the key only. */
  lemma PlainRouteLost(n: string, ip: uint32, a: Stream, b: Stream)
    requires !IsPlain(n) && '|' !in Trim(n) && ip != 0 && a != b && a.remoteAddr != "" && b.remoteAddr != ""
    ensures var ops := [DoRegister(a.remoteAddr, "", ip, a), DoRegister(a.remoteAddr, n, ip, a),
                        DoRegister(b.remoteAddr, n, ip, b)];
      && Lookup(Run(EMPTY, ops), "", ip) == None
      && ("", ip) in SimpleRun(map[], ops) && SimpleRun(map[], ops)[("", ip)] == a
  {
    var x, y, z := DoRegister(a.remoteAddr, "", ip, a), DoRegister(a.remoteAddr, n, ip, a),
      DoRegister(b.remoteAddr, n, ip, b);
    EmptyHub();
    HubRefinesRoutes(EMPTY, Reference(map[], {}), [x, y, z]);
    ThreeSteps(Reference(map[], {}), x, y, z);
    PlainTrim();
    hide Run, Lookup, Consistent, Refines, Trim, ReferenceRun, SimpleRun;
    LostMember(ReferenceApply(ReferenceApply(Reference(map[], {}), x), y), z, ip);
  }

  lemma ThreeSteps(ref: Reference, x: Op, y: Op, z: Op)
    ensures ReferenceRun(ref, [x, y, z]) == ReferenceApply(ReferenceApply(ReferenceApply(ref, x), y), z)
  {
    hide ReferenceApply;
    assert [x, y, z][1..] == [y, z] && [y, z][1..] == [z] && [z][1..] == [];
    assert ReferenceRun(ReferenceApply(ref, x), [y, z]) == ReferenceRun(ReferenceApply(ReferenceApply(ref, x), y), [z]);
  }

  lemma EmptyHub()
    ensures Consistent(EMPTY) && Refines(EMPTY, map[]) && Found(EMPTY, Reference(map[], {}))
  {
  }

  // ------------------------------------------------------------------ the hub

  class StreamHub {
    var byIP: map<uint32, Stream>
    var byRoute: map<string, Stream>
    var ipsByAddr: map<string, map<string, Stream>>

    ghost function Model(): Hub
      reads this
    {
      Hub(byIP, byRoute, ipsByAddr)
    }

    constructor ()
      ensures Model() == EMPTY
    {
      byIP, byRoute, ipsByAddr := map[], map[], map[];
    }

    /** Returns the stream that was replaced, for the caller to close. */
    method RegisterSession(remoteAddr: string, networkKey: string, virtualIP: uint32, stream: Stream)
      returns (replaced: Option<Stream>)
      modifies this
      ensures Model() == Register(old(Model()), remoteAddr, networkKey, virtualIP, stream)
      ensures virtualIP != 0 ==> Routed(Model(), RouteKey(networkKey, virtualIP), stream)
      ensures replaced.Some? <==> virtualIP != 0 && RouteKey(networkKey, virtualIP) in old(byRoute) &&
                                  old(byRoute)[RouteKey(networkKey, virtualIP)] != stream
      ensures replaced.Some? ==> replaced.value == old(byRoute)[RouteKey(networkKey, virtualIP)]
    {
      replaced := None;
      if virtualIP == 0 {
        return;
      }
      var key := RouteKey(networkKey, virtualIP);
      if key in byRoute && byRoute[key] != stream {
        replaced := Some(byRoute[key]);
        UnregisterLocked(key, byRoute[key]);
      }
      byRoute := byRoute[key := stream];
      if Trim(networkKey) == "" {
        byIP := byIP[virtualIP := stream];
      }
      var ips := if remoteAddr in ipsByAddr then ipsByAddr[remoteAddr] else map[];
      ipsByAddr := ipsByAddr[remoteAddr := ips[key := stream]];
    }

    method UnregisterLocked(key: string, target: Stream)
      modifies this
      ensures Model() == Unroute(old(Model()), key, target)
    {
      if key !in byRoute || byRoute[key] != target {
        return;
      }
      byRoute := byRoute - {key};
      var virtualIP := RouteIP(key);
      if virtualIP.Some? && virtualIP.value in byIP && byIP[virtualIP.value] == target {
        byIP := byIP - {virtualIP.value};
      }
      if target.remoteAddr in ipsByAddr {
        var ips := ipsByAddr[target.remoteAddr];
        if key in ips && ips[key] == target {
          ips := ips - {key};
        } else {
          assert ips - {} == ips;
        }
        ipsByAddr := if ips == map[] then ipsByAddr - {target.remoteAddr} else ipsByAddr[target.remoteAddr := ips];
      }
    }

    method UnregisterStaleRoute(networkKey: string, virtualIP: uint32, target: Stream)
      modifies this
      ensures Model() == Apply(old(Model()), DoUnroute(networkKey, virtualIP, target))
    {
      if target.remoteAddr == "" {
        return;
      }
      UnregisterLocked(RouteKey(networkKey, virtualIP), target);
    }

    method UnregisterSession(target: Stream)
      modifies this
      ensures Model() == Unregister(old(Model()), target)
    {
      if target.remoteAddr == "" || target.remoteAddr !in ipsByAddr {
        return;
      }
      var ips := ForgetRoutes(target);
      ipsByAddr := if ips == map[] then ipsByAddr - {target.remoteAddr} else ipsByAddr[target.remoteAddr := ips];
    }

    /** Walks the routes of the stream's remote address, in whatever order the map yields them. */
    method ForgetRoutes(target: Stream) returns (ips: map<string, Stream>)
      requires target.remoteAddr in ipsByAddr
      modifies this`byRoute, this`byIP
      ensures byRoute == RoutesWithout(old(Model()), OwnKeys(old(Model()), target), target)
      ensures byIP == old(byIP) - IPsOf(old(Model()), OwnKeys(old(Model()), target), target)
      ensures ips == ipsByAddr[target.remoteAddr] - OwnKeys(old(Model()), target)
    {
      ghost var h := Model();
      var routes := ipsByAddr[target.remoteAddr];
      var todo, gone := routes.Keys, {};
      while todo != {}
        invariant todo <= routes.Keys
        invariant gone <= OwnKeys(h, target) <= gone + todo
        invariant byRoute == RoutesWithout(h, gone, target)
        invariant byIP == h.byIP - IPsOf(h, gone, target)
        decreases |todo|
      {
        var key :| key in todo;
        todo := todo - {key};
        if routes[key] == target {
          ForgetRoute(key, target, h, gone);
          gone := gone + {key};
        }
      }
      assert gone == OwnKeys(h, target);
      ips := routes - gone;
    }

    method ForgetRoute(key: string, target: Stream, ghost h: Hub, ghost gone: set<string>)
      requires byRoute == RoutesWithout(h, gone, target) && byIP == h.byIP - IPsOf(h, gone, target)
      modifies this`byRoute, this`byIP
      ensures byRoute == RoutesWithout(h, gone + {key}, target) && byIP == h.byIP - IPsOf(h, gone + {key}, target)
    {
      DropOneRoute(h, gone, key, target);
      DropOneIP(h, gone, key, target);
      if key in byRoute && byRoute[key] == target {
        byRoute := byRoute - {key};
      }
      byIP := DropIP(byIP, key, target);
    }

    /** Picks the stream for a route; a failed write drops it from every map. */
    method WriteToRoute(networkKey: string, virtualIP: uint32, writeFails: bool) returns (target: Option<Stream>)
      modifies this
      ensures target == Lookup(old(Model()), networkKey, virtualIP)
      ensures Model() == if target.Some? && writeFails then Unregister(old(Model()), target.value) else old(Model())
    {
      if Trim(networkKey) == "" {
        target := if virtualIP in byIP then Some(byIP[virtualIP]) else None;
      } else {
        var key := RouteKey(networkKey, virtualIP);
        target := if key in byRoute then Some(byRoute[key]) else None;
      }
      if target.Some? && writeFails {
        UnregisterSession(target.value);
      }
    }
  }

  function Lookup(h: Hub, networkKey: string, ip: uint32): Option<Stream> {
    if Trim(networkKey) == "" then
      if ip in h.byIP then Some(h.byIP[ip]) else None
    else if RouteKey(networkKey, ip) in h.byRoute then Some(h.byRoute[RouteKey(networkKey, ip)]) else None
  }
}
