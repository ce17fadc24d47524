/** What each step does to each client, its hold and its network: whom a closed connection, a failed check, a
    deletion, a renaming or a sign of life concerns, and that it concerns nobody else. */
module NetworkEffects {
  import opened Text
  import opened Subnet
  import opened Identity
  import opened Network
  import opened NetworkRuns

  // ------------------------------------------------------------- going offline

  /** The client's record as an offline one, nothing else about it changed. */
  ghost predicate WentOffline(c: Client, c': Client, now: int) {
    && !c'.online && !c'.reachable && !c'.hasStatus && c'.lastSeen == now / SECOND
    && c'.deviceId == c.deviceId && c'.name == c.name && c'.userId == c.userId && c'.networkKey == c.networkKey
    && c'.authGroup == c.authGroup && c'.address == c.address && c'.virtualIP == c.virtualIP &&
      c'.lastJoin == c.lastJoin
  }

  /** One client before and after a step that takes some offline: it went with a new hold of 24 hours, or record
      and hold are as before. */
  ghost predicate OfflineExactly(s: State, s': State, k: string, ip: uint32, goes: bool, now: int)
    requires HasClient(s.networks, k, ip)
  {
    && HasClient(s'.networks, k, ip)
    && var c, c' := s.networks[k].clients[ip], s'.networks[k].clients[ip];
    if goes then WentOffline(c, c', now) && (k, ip) in s'.holds && s'.holds[(k, ip)].1 == now + 86_400_000_000_000
    else c' == c && ((k, ip) in s'.holds <==> (k, ip) in Tick(s.holds, now)) &&
         ((k, ip) in s'.holds ==> s'.holds[(k, ip)] == s.holds[(k, ip)])
  }

  /** The end of a connection takes offline exactly the online clients of that address, in every network. */
  lemma LeaveExactly(s: State, addr: string, now: int, k: string, ip: uint32)
    requires HasClient(s.networks, k, ip)
    ensures var c := s.networks[k].clients[ip];
      OfflineExactly(s, Leave(s, addr, now), k, ip, c.online && c.address == addr, now)
  {
    OfflineGone(s, AllLeaving(s.networks, addr), now, k, ip);
  }

  lemma OfflineGone(s: State, gone: map<string, set<uint32>>, now: int, k: string, ip: uint32)
    requires gone.Keys == s.networks.Keys && HasClient(s.networks, k, ip)
    ensures OfflineExactly(s, TakeOffline(s, gone, now), k, ip, ip in gone[k], now)
  {
    assert (k, ip) in HoldKeys(gone, {}) <==> ip in gone[k];
  }

  /** A failed check takes offline exactly the live clients of that device and group. */
  lemma ClearStaleExactly(s: State, group: string, device: string, now: int, k: string, ip: uint32)
    requires Good(s) && HasClient(s.networks, k, ip)
    ensures var c := s.networks[k].clients[ip];
      OfflineExactly(s, ClearStale(s, group, device, now), k, ip,
                     c.deviceId == device && AuthGroup(c, k) == group && (c.online || c.hasStatus || c.reachable), now)
  {
    assert GoodNet(k, s.networks[k]);
    OfflineGone(s, AllStale(s.networks, group, device), now, k, ip);
  }

  /** Nobody appears, no hold is made without a client, and a network none of whose clients goes is as before. */
  lemma OfflineFrame(s: State, gone: map<string, set<uint32>>, now: int, k: string)
    requires gone.Keys == s.networks.Keys
    requires forall n :: n in gone ==> gone[n] <= s.networks[n].clients.Keys
    ensures var s' := TakeOffline(s, gone, now);
      && s'.networks.Keys == s.networks.Keys
      && (k in s.networks ==>
            && s'.networks[k].clients.Keys == s.networks[k].clients.Keys
            && s'.networks[k] == s.networks[k].(clients := s'.networks[k].clients, epoch := s'.networks[k].epoch)
            && (gone[k] == {} ==> s'.networks[k] == s.networks[k]))
      && (forall h :: h in s'.holds && h !in s.holds ==> HasClient(s.networks, h.0, h.1))
  {
    if k in s.networks && gone[k] ==
      {} { assert OfflineClients(s.networks[k].clients, {}, now) == s.networks[k].clients; }
  }

  /** A network without an online client of the address is left alone by the end of the connection. */
  lemma LeaveSpares(s: State, addr: string, now: int, k: string)
    requires k in s.networks
    requires forall ip :: ip in s.networks[k].clients && s.networks[k].clients[ip].online ==>
      s.networks[k].clients[ip].address != addr
    ensures Leave(s, addr, now).networks.Keys == s.networks.Keys && Leave(s, addr, now).networks[k] == s.networks[k]
  {
    assert AllLeaving(s.networks, addr)[k] == {};
    OfflineFrame(s, AllLeaving(s.networks, addr), now, k);
  }

  // ------------------------------------------------------- deleting and renaming

  /** A deletion removes exactly the clients whose record was deleted, with their holds. */
  lemma RemoveExactly(s: State, devices: set<string>, now: int, k: string, ip: uint32)
    requires Good(s) && HasClient(s.networks, k, ip)
    ensures var s', c := RemoveDevices(s, devices, now), s.networks[k].clients[ip];
      && k in s'.networks
      && (HasClient(s'.networks, k, ip) <==> AuthKey(AuthGroup(c, k), c.deviceId) !in devices)
      && (HasClient(s'.networks, k, ip) ==> s'.networks[k].clients[ip] == c)
      && ((k, ip) in s'.holds <==> (k, ip) in Tick(s.holds, now) && HasClient(s'.networks, k, ip))
      && ((k, ip) in s'.holds ==> s'.holds[(k, ip)] == s.holds[(k, ip)])
  {
    assert GoodNet(k, s.networks[k]);
    assert (k, ip) in HoldKeys(AllDoomed(s.networks, devices), {}) <==> ip in Doomed(s.networks[k], devices);
  }

  /** A renaming gives exactly the clients of the device and group the name, and changes nothing else about them. */
  lemma RenameExactly(s: State, group: string, device: string, name: string, now: int, k: string, ip: uint32)
    requires Good(s) && HasClient(s.networks, k, ip)
    ensures var s', c := RenameDevice(s, group, device, name, now), s.networks[k].clients[ip];
      && s'.networks.Keys == s.networks.Keys && s'.networks[k].clients.Keys == s.networks[k].clients.Keys
      && s'.networks[k].clients[ip] == c.(name := if c.deviceId == device && AuthGroup(c, k) == group then name
                                          else c.name)
      && s'.holds == Tick(s.holds, now)
  {
    assert GoodNet(k, s.networks[k]);
  }

  // ------------------------------------------------------------- signs of life

  /** A ping or a report makes exactly its client live, and every other client stays as it is. */
  lemma LifeExactly(s: State, op: Op, now: int, k: string, ip: uint32)
    requires HasClient(s.networks, k, ip) && (op.DoTouch? || op.DoReport?)
    ensures var s', c := Step(s, op, now), s.networks[k].clients[ip];
      && s'.networks.Keys == s.networks.Keys && HasClient(s'.networks, k, ip) && s'.holds == Tick(s.holds, now)
      && s'.networks[k].epoch == s.networks[k].epoch
      && s'.networks[k].clients[ip] ==
         if k != op.key || ip != op.ip then c
         else if op.DoTouch? then c.(online := true, lastSeen := now / SECOND)
         else c.(online := true, lastSeen := now / SECOND, reachable := op.reachable, hasStatus := true)
  {
  }

  // ------------------------------------------------------------- registering

  /** The device was at the address already, and had reported a status. */
  ghost predicate HadStatus(networks: map<string, Info>, key: string, ip: uint32, device: string) {
    HasClient(networks, key, ip) && networks[key].clients[ip].deviceId == device && networks[key].clients[ip].hasStatus
  }

  /** A request for an address is met exactly when the address is usable and no other device has it; with no fallback
      allowed, the two ways to fail tell which of these it was. */
  lemma RequestExactly(n: Info, held: set<uint32>, requested: uint32, deviceId: string)
    requires WellFormed(n) && requested != 0
    ensures AllocatorReady(n)
    ensures Assign(n, held, requested, deviceId, false) ==
      if !n.subnet.Usable(requested) then Err(OutOfRange)
      else if exists d :: d != deviceId && d in n.byDevice && n.byDevice[d] == requested then Err(InUse)
      else Ok(requested)
  {
    RequestAgreesWithRange(n.subnet, requested);
    hide FirstFree;
    if requested in n.clients { assert n.byDevice[n.clients[requested].deviceId] == requested; }
  }

  /** The record a registration leaves for the device is the one of the request. */
  lemma JoinRecords(s: State, key: string, subnet: ValidNet, reserved: set<uint32>, q: JoinRequest, now: int)
    requires Good(s) && q.deviceId != ""
    ensures AllocatorReady(NetworkFor(s, key, subnet, reserved))
    ensures var r := Join(s, key, subnet, reserved, q, now);
      r.0.Ok? ==>
        && HasClient(r.1.networks, key, r.0.value)
        && var c := r.1.networks[key].clients[r.0.value];
        && c.deviceId == q.deviceId && c.name == q.name && c.userId == q.userId && c.networkKey == key
        && c.authGroup == q.authGroup && c.online && c.lastSeen == c.lastJoin == now / SECOND && !c.reachable
        && c.address == q.address && c.virtualIP == r.0.value && (key, r.0.value) !in r.1.holds
        && (c.hasStatus <==> HadStatus(s.networks, key, r.0.value, q.deviceId))
  {
    ReadyToJoin(s, key, subnet, reserved);
    hide FirstFree, WellFormed;
  }

  /** What a registration leaves of another network, and of an address of its own that it neither gives nor vacates. */
  lemma JoinFrame(s: State, key: string, subnet: ValidNet, reserved: set<uint32>, q: JoinRequest, now: int,
                  k: string, ip: uint32)
    requires AllocatorReady(NetworkFor(s, key, subnet, reserved)) && HasClient(s.networks, k, ip)
    ensures var s', n := Join(s, key, subnet, reserved, q, now).1, NetworkFor(s, key, subnet, reserved);
      var r := Assign(n, Held(Tick(s.holds, now), n.group), q.requested, q.deviceId, q.allowChange);
      && (k != key ==> k in s'.networks && s'.networks[k] == s.networks[k])
      && (k == key ==> k in s'.networks && s'.networks[k] == if r.Ok? then Settle(n, r.value, q, now) else n)
      && (k != key || r.Err? || (ip != r.value && ip != FindIP(n, q.deviceId)) ==>
            ((k, ip) in s'.holds <==> (k, ip) in Tick(s.holds, now)))
  {
    hide Settle, Assign;
  }

  /** A registration changes no other device's client that was online or held, and no other network. */
  lemma JoinSpares(s: State, key: string, subnet: ValidNet, reserved: set<uint32>, q: JoinRequest, now: int,
                   k: string, ip: uint32)
    requires Good(s) && q.deviceId != "" && HasClient(s.networks, k, ip)
    requires k != key || s.networks[k].clients[ip].deviceId != q.deviceId
    requires k != key || s.networks[k].clients[ip].online || (key, ip) in Tick(s.holds, now)
    ensures AllocatorReady(NetworkFor(s, key, subnet, reserved))
    ensures var s' := Join(s, key, subnet, reserved, q, now).1;
      && HasClient(s'.networks, k, ip) && s'.networks[k].clients[ip] == s.networks[k].clients[ip]
      && (k != key ==> s'.networks[k] == s.networks[k])
      && ((k, ip) in s'.holds <==> (k, ip) in Tick(s.holds, now))
  {
    ReadyToJoin(s, key, subnet, reserved);
    JoinFrame(s, key, subnet, reserved, q, now, k, ip);
    if k == key {
      var n := s.networks[key];
      if !n.clients[ip].online { assert ip in Held(Tick(s.holds, now), n.group); }
      SettleProtects(n, Held(Tick(s.holds, now), n.group), q, now, ip);
    }
    hide Settle, Assign, WellFormed, Join, Good;
  }

  // ------------------------------------------------------------ who stays online

  /** The device at the address is online, over the connection `addr`. */
  ghost predicate OnlineFrom(s: State, key: string, ip: uint32, deviceId: string, addr: string) {
    && HasClient(s.networks, key, ip)
    && var c := s.networks[key].clients[ip]; c.deviceId == deviceId && c.online && c.address == addr
  }

  /** The steps that can end it: its own connection closes, its check fails, it is deleted, or it registers. */
  predicate Concerns(op: Op, key: string, group: string, deviceId: string, addr: string) {
    match op
    case DoLeave(a) => a == addr
    case DoClearStale(g, d) => g == group && d == deviceId
    case DoRemove(devices) => AuthKey(group, deviceId) in devices
    case DoJoin(k, _, _, q) => k == key && q.deviceId == deviceId
    case _ => false
  }

  lemma StepOnline(s: State, op: Op, now: int, key: string, ip: uint32, deviceId: string, addr: string)
    requires Good(s) && Sensible(op) && OnlineFrom(s, key, ip, deviceId, addr)
    requires !Concerns(op, key, AuthGroup(s.networks[key].clients[ip], key), deviceId, addr)
    ensures op.DoJoin? ==> AllocatorReady(NetworkFor(s, op.key, op.subnet, op.reserved))
    ensures OnlineFrom(Step(s, op, now), key, ip, deviceId, addr)
    ensures AuthGroup(Step(s, op, now).networks[key].clients[ip], key) == AuthGroup(s.networks[key].clients[ip], key)
  {
    hide Good, Join, TakeOffline, RemoveDevices, RenameDevice, Touch, Report;
    match op
    case DoJoin(k, subnet, reserved, q) => JoinSpares(s, k, subnet, reserved, q, now, key, ip);
    case DoLeave(a) => LeaveExactly(s, a, now, key, ip);
    case DoClearStale(g, d) => ClearStaleExactly(s, g, d, now, key, ip);
    case DoRemove(devices) => RemoveExactly(s, devices, now, key, ip);
    case DoRename(g, d, name) => RenameExactly(s, g, d, name, now, key, ip);
    case _ => LifeExactly(s, op, now, key, ip);
  }

  /** A device that registered from one address is online, at that address and over that connection, as long as
      no step concerns it: other connections may close, and other devices come and go. */
  lemma {:induction false} StaysOnline(s: State, steps: seq<Timed>, from: int, key: string, ip: uint32,
                                       deviceId: string,
                                       addr: string)
    requires Good(s) && Ordered(steps, from) && OnlineFrom(s, key, ip, deviceId, addr)
    requires forall i :: 0 <= i < |steps| ==>
      !Concerns(steps[i].op, key, AuthGroup(s.networks[key].clients[ip], key), deviceId, addr)
    ensures OnlineFrom(Run(s, steps, from), key, ip, deviceId, addr)
    decreases |steps|
  {
    hide Good, Step, OnlineFrom, Concerns, AuthGroup;
    if steps != [] {
      var now, op := steps[0].now, steps[0].op;
      OnlineIsClient(s, key, ip, deviceId, addr);
      StepGood(s, op, now);
      StepOnline(s, op, now, key, ip, deviceId, addr);
      OnlineIsClient(Step(s, op, now), key, ip, deviceId, addr);
      StaysOnline(Step(s, op, now), steps[1..], now, key, ip, deviceId, addr);
    }
  }

  lemma OnlineIsClient(s: State, key: string, ip: uint32, deviceId: string, addr: string)
    requires OnlineFrom(s, key, ip, deviceId, addr)
    ensures HasClient(s.networks, key, ip)
  {
  }

  /** A successful registration puts the device online over its own connection. */
  lemma JoinedOnline(s: State, key: string, subnet: ValidNet, reserved: set<uint32>, q: JoinRequest, now: int)
    requires Good(s) && q.deviceId != ""
    ensures AllocatorReady(NetworkFor(s, key, subnet, reserved))
    ensures var r := Join(s, key, subnet, reserved, q, now);
      r.0.Ok? ==> OnlineFrom(r.1, key, r.0.value, q.deviceId, q.address)
  {
    JoinRecords(s, key, subnet, reserved, q, now);
    hide Join, Good;
  }
}
