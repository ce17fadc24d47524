/** What every run of the virtual networks keeps: the invariant, the protection of held addresses,
    and the epochs. */
module NetworkRuns {
  import opened Text
  import opened Subnet
  import opened Identity
  import opened Network
  import TimedMap

  // ---------------------------------------------------- the invariant, step by step

  lemma ReplaceGoodNet(networks: map<string, Info>, key: string, n': Info)
    requires GoodNets(networks) && GoodNet(key, n')
    ensures GoodNets(networks[key := n'])
  {
    var nets := networks[key := n'];
    forall k | k in nets ensures GoodNet(k, nets[k]) {
      if k != key { assert GoodNet(k, networks[k]); }
    }
  }

  lemma ReplaceNoLeak(networks: map<string, Info>, holds: Holds, key: string, n': Info, holds': Holds)
    requires NoLeak(networks, holds)
    requires forall h :: h in holds' ==> h in holds && (h.0 == key ==> h.1 in n'.clients)
    ensures NoLeak(networks[key := n'], holds')
  {
    forall h | h in holds' ensures HasClient(networks[key := n'], h.0, h.1) {
      assert HasClient(networks, h.0, h.1);
    }
  }

  /** Putting one well-formed network in place, with no new holds. */
  lemma ReplaceGood(s: State, key: string, n': Info, holds': Holds)
    requires Good(s) && GoodNet(key, n')
    requires forall h :: h in holds' ==> h in s.holds && (h.0 == key ==> h.1 in n'.clients)
    ensures Good(State(s.networks[key := n'], holds'))
  {
    ReplaceGoodNet(s.networks, key, n');
    ReplaceNoLeak(s.networks, s.holds, key, n', holds');
  }

  lemma JoinGood(s: State, key: string, subnet: ValidNet, reserved: set<uint32>, q: JoinRequest, now: int)
    requires Good(s) && q.deviceId != ""
    ensures AllocatorReady(NetworkFor(s, key, subnet, reserved))
    ensures Good(Join(s, key, subnet, reserved, q, now).1)
  {
    ReadyToJoin(s, key, subnet, reserved);
    var n := NetworkFor(s, key, subnet, reserved);
    var holds := Tick(s.holds, now);
    var r := Assign(n, Held(holds, n.group), q.requested, q.deviceId, q.allowChange);
    if r.Ok? {
      SettleWellFormed(n, Held(holds, n.group), q, now);
      SettledHolds(s, key, n, r.value, q, now);
      ReplaceGood(s, key, Settle(n, r.value, q, now), holds - Released(key, n, r.value, q.deviceId));
    } else {
      ReplaceGood(s, key, n, holds);
    }
  }

  lemma SettledHolds(s: State, key: string, n: Info, ip: uint32, q: JoinRequest, now: int)
    requires NoLeak(s.networks, s.holds) && q.deviceId != "" && WellFormed(n) &&
      (key in s.networks ==> n == s.networks[key])
    ensures forall h :: h in Tick(s.holds, now) - Released(key, n, ip, q.deviceId) ==>
      h in s.holds && (h.0 == key ==> h.1 in Settle(n, ip, q, now).clients)
  {
    ZeroNeverHeld(n);
    SettleClients(n, ip, q, now);
    SettledHoldsFrom(s, key, n, ip, q.deviceId, Settle(n, ip, q, now).clients, now);
  }

  lemma SettledHoldsFrom(s: State, key: string, n: Info, ip: uint32, deviceId: string, clients: map<uint32, Client>,
                         now: int)
    requires NoLeak(s.networks, s.holds) && (key in s.networks ==> n == s.networks[key])
    requires ip in clients
    requires forall j :: j != ip ==> (j in clients <==> j in n.clients && j != FindIP(n, deviceId))
    requires 0 !in n.clients
    ensures forall h :: h in Tick(s.holds, now) - Released(key, n, ip, deviceId) ==>
      h in s.holds && (h.0 == key ==> h.1 in clients)
  {
    forall h | h in Tick(s.holds, now) - Released(key, n, ip, deviceId)
      ensures h in s.holds && (h.0 == key ==> h.1 in clients)
    {
      assert HasClient(s.networks, h.0, h.1);
      assert h == (h.0, h.1);
    }
  }

  lemma OfflineWellFormed(n: Info, gone: set<uint32>, now: int)
    requires WellFormed(n)
    ensures WellFormed(Offline(n, gone, now)) && Offline(n, gone, now).clients.Keys == n.clients.Keys
  {
  }

  lemma TakeOfflineGood(s: State, gone: map<string, set<uint32>>, now: int)
    requires Good(s) && gone.Keys == s.networks.Keys
    requires forall k :: k in gone ==> gone[k] <= s.networks[k].clients.Keys
    ensures Good(TakeOffline(s, gone, now))
  {
    forall k | k in s.networks { OfflineWellFormed(s.networks[k], gone[k], now); }
  }

  lemma ExpelWellFormed(n: Info, gone: set<uint32>)
    requires WellFormed(n)
    ensures WellFormed(Expel(n, gone))
  {
  }

  lemma RemoveGood(s: State, devices: set<string>, now: int)
    requires Good(s)
    ensures Good(RemoveDevices(s, devices, now))
  {
    forall k | k in s.networks { ExpelWellFormed(s.networks[k], Doomed(s.networks[k], devices)); }
    var s' := RemoveDevices(s, devices, now);
    var gone := AllDoomed(s.networks, devices);
    forall h | h in s'.holds ensures HasClient(s'.networks, h.0, h.1) {
      assert HasClient(s.networks, h.0, h.1);
      assert h == (h.0, h.1) && h !in HoldKeys(gone, {});
    }
  }

  lemma RenamedWellFormed(n: Info, ips: set<uint32>, name: string)
    requires WellFormed(n)
    ensures WellFormed(Renamed(n, ips, name))
  {
  }

  lemma RenameGood(s: State, authGroup: string, deviceId: string, name: string, now: int)
    requires Good(s)
    ensures Good(RenameDevice(s, authGroup, deviceId, name, now))
  {
    forall k | k in s.networks {
      RenamedWellFormed(s.networks[k], ToRename(s.networks[k], authGroup, deviceId, name), name);
    }
  }

  /** Rewriting the record of a known device in place leaves the index alone. */
  lemma RewriteWellFormed(n: Info, ip: uint32, c: Client)
    requires WellFormed(n) && ip in n.clients && c.deviceId == n.clients[ip].deviceId
    ensures Upsert(n, ip, c) == n.(clients := n.clients[ip := c])
    ensures WellFormed(Upsert(n, ip, c))
  {
    UpsertInverse(n, ip, c);
    assert n.byDevice - {} == n.byDevice == n.byDevice[c.deviceId := ip];
  }

  lemma RewriteGood(s: State, key: string, ip: uint32, c: Client, now: int)
    requires Good(s) && key in s.networks && ip in s.networks[key].clients
    requires c.deviceId == s.networks[key].clients[ip].deviceId
    ensures Good(State(s.networks[key := Upsert(s.networks[key], ip, c)], Tick(s.holds, now)))
  {
    RewriteWellFormed(s.networks[key], ip, c);
    ReplaceGood(s, key, Upsert(s.networks[key], ip, c), Tick(s.holds, now));
  }

  lemma TickGood(s: State, now: int)
    requires Good(s)
    ensures Good(s.(holds := Tick(s.holds, now)))
  {
  }

  lemma StepGood(s: State, op: Op, now: int)
    requires Good(s) && Sensible(op)
    ensures op.DoJoin? ==> AllocatorReady(NetworkFor(s, op.key, op.subnet, op.reserved))
    ensures Good(Step(s, op, now))
  {
    hide Good, Join, TakeOffline, RemoveDevices, RenameDevice, Upsert;
    TickGood(s, now);
    match op
    case DoJoin(key, subnet, reserved, q) => JoinGood(s, key, subnet, reserved, q, now);
    case DoLeave(addr) => TakeOfflineGood(s, AllLeaving(s.networks, addr), now);
    case DoClearStale(g, d) => TakeOfflineGood(s, AllStale(s.networks, g, d), now);
    case DoRemove(devices) => RemoveGood(s, devices, now);
    case DoRename(g, d, name) => RenameGood(s, g, d, name, now);
    case DoTouch(key, ip) =>
      if key in s.networks && ip in s.networks[key].clients {
        RewriteGood(s, key, ip, s.networks[key].clients[ip].(online := true, lastSeen := now / SECOND), now);
      }
    case DoReport(key, ip, reachable) =>
      if key in s.networks && ip in s.networks[key].clients {
        RewriteGood(s, key, ip,
          s.networks[key].clients[ip].(online := true, lastSeen := now / SECOND, reachable := reachable,
                                       hasStatus := true), now);
      }
  }

  /** A step does not depend on when expired holds are dropped: the lazily cleaned table and the
      model's table, compared at any earlier time, lead to the same state. */
  lemma StepForgets(s: State, op: Op, earlier: int, now: int)
    requires op.DoJoin? ==> AllocatorReady(NetworkFor(s, op.key, op.subnet, op.reserved))
    requires earlier <= now
    ensures Step(State(s.networks, Tick(s.holds, earlier)), op, now) == Step(s, op, now)
  {
    TimedMap.AtLater(s.holds, earlier, now);
  }

  // ------------------------------------------------------------------- runs

  datatype Timed = Timed(now: int, op: Op)

  /** Times never go back, and every registration is sensible. */
  ghost predicate Ordered(steps: seq<Timed>, from: int) {
    steps == [] || (from <= steps[0].now && Sensible(steps[0].op) && Ordered(steps[1..], steps[0].now))
  }

  ghost function Run(s: State, steps: seq<Timed>, from: int): State
    requires Good(s) && Ordered(steps, from)
    decreases |steps|
  {
    if steps == [] then s
    else
      StepGood(s, steps[0].op, steps[0].now);
      Run(Step(s, steps[0].op, steps[0].now), steps[1..], steps[0].now)
  }

  /** Every reachable state: exact inverse indexes, addresses strictly inside the subnet and never
      the gateway or 0, and no hold without its client. */
  lemma {:induction false} RunGood(s: State, steps: seq<Timed>, from: int)
    requires Good(s) && Ordered(steps, from)
    ensures Good(Run(s, steps, from))
    decreases |steps|
  {
    if steps != [] {
      StepGood(s, steps[0].op, steps[0].now);
      RunGood(Step(s, steps[0].op, steps[0].now), steps[1..], steps[0].now);
    }
  }

  lemma EmptyStateGood()
    ensures Good(State(map[], map[]))
  {
  }

  // ------------------------------------------------- addresses keep their holder

  /** `deviceId` holds `ip`: online, or offline with a hold lasting to `until`. */
  ghost predicate HeldThrough(s: State, key: string, ip: uint32, deviceId: string, until: int) {
    && HasClient(s.networks, key, ip) && s.networks[key].clients[ip].deviceId == deviceId
    && (s.networks[key].clients[ip].online || ((key, ip) in s.holds && until <= s.holds[(key, ip)].1))
  }

  /** The only steps by which a holder gives up its address: it moves to another, or it is deleted. */
  ghost predicate GivesUp(s: State, op: Op, now: int, key: string, ip: uint32)
    requires HasClient(s.networks, key, ip)
    requires op.DoJoin? ==> AllocatorReady(NetworkFor(s, op.key, op.subnet, op.reserved))
  {
    var c := s.networks[key].clients[ip];
    match op
    case DoJoin(k, subnet, reserved, q) =>
      k == key && q.deviceId == c.deviceId && Moves(Join(s, k, subnet, reserved, q, now).0, ip)
    case DoRemove(devices) => AuthKey(AuthGroup(c, key), c.deviceId) in devices
    case _ => false
  }

  predicate Moves(r: Result<uint32, AssignError>, ip: uint32) {
    r.Ok? && r.value != ip
  }

  /** One network after a registration: everybody protected, other than the device, is untouched. */
  lemma SettleProtects(n: Info, held: set<uint32>, q: JoinRequest, now: int, ip: uint32)
    requires WellFormed(n) && q.deviceId != ""
    requires Protected(n, held, ip) && n.clients[ip].deviceId != q.deviceId
    ensures AllocatorReady(n)
    ensures var r := Assign(n, held, q.requested, q.deviceId, q.allowChange);
      r.Ok? ==> r.value != ip && FindIP(n, q.deviceId) != ip && ip in Settle(n, r.value, q, now).clients &&
                Settle(n, r.value, q, now).clients[ip] == n.clients[ip]
  {
    AssignSafe(n, held, q.requested, q.deviceId, q.allowChange);
    ZeroNeverHeld(n);
    FindIPSound(n, q.deviceId);
    var r := Assign(n, held, q.requested, q.deviceId, q.allowChange);
    if r.Ok? { SettleClients(n, r.value, q, now); }
  }

  /** A step that leaves the record and the live hold alone keeps the address held. */
  lemma Untouched(s: State, s': State, k: string, ip: uint32, deviceId: string, until: int)
    requires HeldThrough(s, k, ip, deviceId, until)
    requires HasClient(s'.networks, k, ip)
    requires var c, c' := s.networks[k].clients[ip], s'.networks[k].clients[ip];
      c'.deviceId == c.deviceId && (c.online ==> c'.online)
    requires (k, ip) in s.holds && until <= s.holds[(k, ip)].1 ==>
      (k, ip) in s'.holds && s'.holds[(k, ip)] == s.holds[(k, ip)]
    ensures HeldThrough(s', k, ip, deviceId, until)
  {
  }

  lemma HoldKept(h: Holds, now: int, until: int, k: string, ip: uint32, key: string, n: Info, a: uint32, d: string)
    requires now <= until && !(k == key && (ip == a || ip == FindIP(n, d)))
    ensures (k, ip) in h && until <= h[(k, ip)].1 ==>
      (k, ip) in Tick(h, now) - Released(key, n, a, d) && (Tick(h, now) - Released(key, n, a, d))[(k, ip)] == h[(k, ip)]
  {
  }

  /** Another device's registration. */
  lemma JoinProtects(s: State, key: string, subnet: ValidNet, reserved: set<uint32>, q: JoinRequest, now: int,
                     k: string, ip: uint32, deviceId: string, until: int)
    requires Good(s) && q.deviceId != ""
    requires HeldThrough(s, k, ip, deviceId, until) && now <= until
    requires !(k == key && q.deviceId == deviceId)
    ensures AllocatorReady(NetworkFor(s, key, subnet, reserved))
    ensures HeldThrough(Join(s, key, subnet, reserved, q, now).1, k, ip, deviceId, until)
  {
    ReadyToJoin(s, key, subnet, reserved);
    if k == key {
      var n := s.networks[key];
      var holds := Tick(s.holds, now);
      if !n.clients[ip].online { assert (key, ip) in holds; }
      SettleProtects(n, Held(holds, n.group), q, now, ip);
    }
    var r := Assign(NetworkFor(s, key, subnet, reserved), Held(Tick(s.holds, now), key), q.requested, q.deviceId,
                    q.allowChange);
    if r.Ok? {
      HoldKept(s.holds, now, until, k, ip, key, NetworkFor(s, key, subnet, reserved), r.value, q.deviceId);
    }
    Untouched(s, Join(s, key, subnet, reserved, q, now).1, k, ip, deviceId, until);
  }

  /** One network after a registration of a device that holds `ip`. */
  lemma OwnSettle(n: Info, q: JoinRequest, now: int, ip: uint32, a: uint32)
    requires WellFormed(n) && q.deviceId != "" && ip in n.clients && n.clients[ip].deviceId == q.deviceId
    ensures var n' := Settle(n, a, q, now);
      && (a == ip ==> ip in n'.clients && n'.clients[ip].deviceId == q.deviceId && n'.clients[ip].online)
      && (a != ip ==> ip !in n'.clients)
  {
    ZeroNeverHeld(n);
    FindIPSound(n, q.deviceId);
    SettleClients(n, a, q, now);
  }

  /** The holder's own registration keeps the address held exactly when it does not move: refused, or
      answered with the same address, it holds on. */
  lemma OwnJoinProtects(s: State, key: string, subnet: ValidNet, reserved: set<uint32>, q: JoinRequest, now: int,
                        ip: uint32, until: int)
    requires Good(s) && q.deviceId != "" && HeldThrough(s, key, ip, q.deviceId, until) && now <= until
    ensures AllocatorReady(NetworkFor(s, key, subnet, reserved))
    ensures HeldThrough(Join(s, key, subnet, reserved, q, now).1, key, ip, q.deviceId, until) <==>
            !Moves(Join(s, key, subnet, reserved, q, now).0, ip)
  {
    ReadyToJoin(s, key, subnet, reserved);
    var n := s.networks[key];
    var r := Assign(n, Held(Tick(s.holds, now), key), q.requested, q.deviceId, q.allowChange);
    if r.Ok? { OwnSettle(n, q, now, ip, r.value); }
    hide Settle, WellFormed, Assign;
  }

  lemma TakeOfflineProtects(s: State, gone: map<string, set<uint32>>, now: int,
                            k: string, ip: uint32, deviceId: string, until: int)
    requires gone.Keys == s.networks.Keys
    requires HeldThrough(s, k, ip, deviceId, until) && now <= until <= now + HOLD_TTL
    ensures HeldThrough(TakeOffline(s, gone, now), k, ip, deviceId, until)
  {
    var s' := TakeOffline(s, gone, now);
    if ip in gone[k] {
      assert (k, ip) in HoldKeys(gone, {});
      assert (k, ip) in s'.holds && s'.holds[(k, ip)] == ((), now + HOLD_TTL);
    } else {
      Untouched(s, s', k, ip, deviceId, until);
    }
  }

  lemma RenameProtects(s: State, g: string, d: string, name: string, now: int,
                       key: string, ip: uint32, deviceId: string, until: int)
    requires HeldThrough(s, key, ip, deviceId, until) && now <= until
    ensures HeldThrough(RenameDevice(s, g, d, name, now), key, ip, deviceId, until)
  {
    Untouched(s, RenameDevice(s, g, d, name, now), key, ip, deviceId, until);
  }

  lemma RewriteProtects(s: State, k: string, j: uint32, c: Client, now: int,
                        key: string, ip: uint32, deviceId: string, until: int)
    requires HeldThrough(s, key, ip, deviceId, until) && now <= until
    requires k in s.networks && WellFormed(s.networks[k]) && j in s.networks[k].clients
    requires c.deviceId == s.networks[k].clients[j].deviceId && c.online
    ensures HeldThrough(State(s.networks[k := Upsert(s.networks[k], j, c)], Tick(s.holds, now)), key, ip, deviceId,
                        until)
  {
    hide Upsert, WellFormed;
    RewriteWellFormed(s.networks[k], j, c);
    Untouched(s, State(s.networks[k := Upsert(s.networks[k], j, c)], Tick(s.holds, now)), key, ip, deviceId, until);
  }

  lemma QuietStepProtects(s: State, op: Op, now: int, key: string, ip: uint32, deviceId: string, until: int)
    requires Good(s) && HeldThrough(s, key, ip, deviceId, until) && now <= until
    requires op.DoTouch? || op.DoReport?
    ensures HeldThrough(Step(s, op, now), key, ip, deviceId, until)
  {
    if op.key in s.networks && op.ip in s.networks[op.key].clients {
      assert GoodNet(op.key, s.networks[op.key]);
      var c := s.networks[op.key].clients[op.ip].(online := true, lastSeen := now / SECOND);
      var c' := if op.DoTouch? then c else c.(reachable := op.reachable, hasStatus := true);
      RewriteProtects(s, op.key, op.ip, c', now, key, ip, deviceId, until);
    } else {
      Untouched(s, Step(s, op, now), key, ip, deviceId, until);
    }
  }

  /** A deletion keeps the address held exactly when it does not name the holder. */
  lemma RemoveProtects(s: State, devices: set<string>, now: int, key: string, ip: uint32, deviceId: string, until: int)
    requires Good(s) && HeldThrough(s, key, ip, deviceId, until) && now <= until
    ensures HeldThrough(RemoveDevices(s, devices, now), key, ip, deviceId, until) <==>
            AuthKey(AuthGroup(s.networks[key].clients[ip], key), deviceId) !in devices
  {
    assert GoodNet(key, s.networks[key]);
    if ip !in Doomed(s.networks[key], devices) {
      Untouched(s, RemoveDevices(s, devices, now), key, ip, deviceId, until);
    }
  }

  /** One step inside the hold: the address stays its holder's exactly when the holder does not give it up.
      Not another device's registration, not a request for that very address, not a departure takes it. */
  lemma StepProtects(s: State, op: Op, now: int, key: string, ip: uint32, deviceId: string, until: int)
    requires Good(s) && Sensible(op)
    requires HeldThrough(s, key, ip, deviceId, until) && now <= until <= now + HOLD_TTL
    ensures op.DoJoin? ==> AllocatorReady(NetworkFor(s, op.key, op.subnet, op.reserved))
    ensures HeldThrough(Step(s, op, now), key, ip, deviceId, until) <==> !GivesUp(s, op, now, key, ip)
  {
    hide Good, HeldThrough, Join, TakeOffline, RemoveDevices, RenameDevice, Touch, Report, Moves;
    HolderNamed(s, key, ip, deviceId, until);
    match op
    case DoJoin(k, subnet, reserved, q) =>
      if k == key && q.deviceId == deviceId {
        OwnJoinProtects(s, k, subnet, reserved, q, now, ip, until);
      } else {
        JoinProtects(s, k, subnet, reserved, q, now, key, ip, deviceId, until);
      }
    case DoLeave(addr) => TakeOfflineProtects(s, AllLeaving(s.networks, addr), now, key, ip, deviceId, until);
    case DoClearStale(g, d) => TakeOfflineProtects(s, AllStale(s.networks, g, d), now, key, ip, deviceId, until);
    case DoRemove(devices) => RemoveProtects(s, devices, now, key, ip, deviceId, until);
    case DoRename(g, d, name) => RenameProtects(s, g, d, name, now, key, ip, deviceId, until);
    case _ => QuietStepProtects(s, op, now, key, ip, deviceId, until);
  }

  lemma HolderNamed(s: State, key: string, ip: uint32, deviceId: string, until: int)
    requires HeldThrough(s, key, ip, deviceId, until)
    ensures HasClient(s.networks, key, ip) && s.networks[key].clients[ip].deviceId == deviceId
  {
  }

  /** The holder does not give up its address at any step of the run. */
  ghost predicate NeverGivesUp(s: State, steps: seq<Timed>, from: int, key: string, ip: uint32)
    requires Good(s) && Ordered(steps, from)
    decreases |steps|
  {
    steps == [] ||
    (StepGood(s, steps[0].op, steps[0].now);
     && HasClient(s.networks, key, ip) && !GivesUp(s, steps[0].op, steps[0].now, key, ip)
     && NeverGivesUp(Step(s, steps[0].op, steps[0].now), steps[1..], steps[0].now, key, ip))
  }

  ghost predicate HeldAllAlong(s: State, steps: seq<Timed>, from: int, key: string, ip: uint32, deviceId: string,
                               until: int)
    requires Good(s) && Ordered(steps, from)
    decreases |steps|
  {
    && HeldThrough(s, key, ip, deviceId, until)
    && (steps == [] ||
        (StepGood(s, steps[0].op, steps[0].now);
         HeldAllAlong(Step(s, steps[0].op, steps[0].now), steps[1..], steps[0].now, key, ip, deviceId, until)))
  }

  /** Over any run of at most 24 hours, an address whose holder was online at the start (or whose hold lasts
      to the end) is that device's throughout, whatever drops and reconnections come, exactly when the device
      neither moves to another address nor is deleted. */
  lemma {:induction false} RunProtects(s: State, steps: seq<Timed>, from: int, key: string, ip: uint32,
                                       deviceId: string, until: int)
    requires Good(s) && Ordered(steps, from)
    requires HeldThrough(s, key, ip, deviceId, until) && until <= from + HOLD_TTL
    requires forall i :: 0 <= i < |steps| ==> steps[i].now <= until
    ensures HeldAllAlong(s, steps, from, key, ip, deviceId, until) <==> NeverGivesUp(s, steps, from, key, ip)
    ensures NeverGivesUp(s, steps, from, key, ip) ==> HeldThrough(Run(s, steps, from), key, ip, deviceId, until)
    decreases |steps|
  {
    hide Good, HeldThrough, Step, GivesUp;
    HolderNamed(s, key, ip, deviceId, until);
    if steps != [] {
      var now, op := steps[0].now, steps[0].op;
      StepGood(s, op, now);
      StepProtects(s, op, now, key, ip, deviceId, until);
      var s' := Step(s, op, now);
      if HeldThrough(s', key, ip, deviceId, until) {
        RunProtects(s', steps[1..], now, key, ip, deviceId, until);
      } else {
        NotHeldNotAllAlong(s', steps[1..], now, key, ip, deviceId, until);
      }
    }
  }

  lemma NotHeldNotAllAlong(s: State, steps: seq<Timed>, from: int, key: string, ip: uint32, deviceId: string,
                           until: int)
    requires Good(s) && Ordered(steps, from) && !HeldThrough(s, key, ip, deviceId, until)
    ensures !HeldAllAlong(s, steps, from, key, ip, deviceId, until)
  {
  }

  /** A holder moves exactly when it asks for another address that the network allows and nobody else has a
      record for; any other registration of it is refused or answered with its own address. */
  lemma MovesExactly(s: State, key: string, subnet: ValidNet, reserved: set<uint32>, q: JoinRequest, now: int,
                     ip: uint32)
    requires Good(s) && q.deviceId != "" && HasClient(s.networks, key, ip) &&
      s.networks[key].clients[ip].deviceId == q.deviceId
    ensures AllocatorReady(NetworkFor(s, key, subnet, reserved))
    ensures var n, r := s.networks[key], Join(s, key, subnet, reserved, q, now).0;
      && (Moves(r, ip) <==>
            q.requested != 0 && q.requested != ip && n.subnet.RequestAllowed(q.requested) && q.requested !in n.clients)
      && (q.requested == 0 || (q.allowChange && q.requested in n.clients) ==> r == Ok(ip))
  {
    ReadyToJoin(s, key, subnet, reserved);
    var n := s.networks[key];
    assert GoodNet(key, n);
    ZeroNeverHeld(n);
    assert FindIP(n, q.deviceId) == ip;
    if q.requested in n.clients { RequestAgreesWithRange(n.subnet, q.requested); }
    hide Settle, FirstFree, Released;
  }

  /** A device that drops and comes back inside its hold, asking for no address, gets its own again. */
  lemma ReconnectsToItsOwn(s: State, steps: seq<Timed>, from: int, key: string, ip: uint32, until: int,
                           subnet: ValidNet, reserved: set<uint32>, q: JoinRequest, now: int)
    requires Good(s) && Ordered(steps, from) && q.deviceId != "" && q.requested == 0
    requires HeldThrough(s, key, ip, q.deviceId, until) && until <= from + HOLD_TTL
    requires forall i :: 0 <= i < |steps| ==> steps[i].now <= until
    requires NeverGivesUp(s, steps, from, key, ip) && now <= until
    ensures AllocatorReady(NetworkFor(Run(s, steps, from), key, subnet, reserved))
    ensures var r := Join(Run(s, steps, from), key, subnet, reserved, q, now);
      r.0 == Ok(ip) && HeldThrough(r.1, key, ip, q.deviceId, until)
  {
    RunGood(s, steps, from);
    RunProtects(s, steps, from, key, ip, q.deviceId, until);
    hide Good, HeldThrough, Run, Join, NeverGivesUp;
    var s' := Run(s, steps, from);
    HolderNamed(s', key, ip, q.deviceId, until);
    MovesExactly(s', key, subnet, reserved, q, now, ip);
    OwnJoinProtects(s', key, subnet, reserved, q, now, ip, until);
  }

  // ------------------------------------------------------ failures and epochs

  /** In any reachable state, after runs of any length: an address that a step takes from its holder was
      given up by the holder, or its holder was offline and its hold had lapsed. */
  lemma PassesOnOnlyAfterLapse(start: State, steps: seq<Timed>, from: int, op: Op, now: int, key: string, ip: uint32)
    requires Good(start) && Ordered(steps, from) && Sensible(op)
    requires HasClient(Run(start, steps, from).networks, key, ip)
    ensures op.DoJoin? ==> AllocatorReady(NetworkFor(Run(start, steps, from), op.key, op.subnet, op.reserved))
    ensures var s := Run(start, steps, from);
      var s', c := Step(s, op, now), s.networks[key].clients[ip];
      !(HasClient(s'.networks, key, ip) && s'.networks[key].clients[ip].deviceId == c.deviceId) ==>
        GivesUp(s, op, now, key, ip) || (!c.online && !((key, ip) in s.holds && now <= s.holds[(key, ip)].1))
  {
    RunGood(start, steps, from);
    hide Run, Good, Step, GivesUp;
    var s := Run(start, steps, from);
    var c := s.networks[key].clients[ip];
    StepGood(s, op, now);
    if c.online || ((key, ip) in s.holds && now <= s.holds[(key, ip)].1) {
      StepProtects(s, op, now, key, ip, c.deviceId, now);
    }
  }

  /** A refused registration leaves every client of every network as it was. */
  lemma FailedJoinChangesNothing(s: State, key: string, subnet: ValidNet, reserved: set<uint32>, q: JoinRequest,
                                 now: int)
    requires AllocatorReady(NetworkFor(s, key, subnet, reserved))
    requires Join(s, key, subnet, reserved, q, now).0.Err?
    ensures var s' := Join(s, key, subnet, reserved, q, now).1;
      && (forall k :: k in s.networks ==> k in s'.networks && s'.networks[k] == s.networks[k])
      && (forall k :: k in s'.networks && k !in s.networks ==> s'.networks[k].clients == map[])
      && s'.holds == Tick(s.holds, now)
  {
  }

  /** The registration comes down to the scan: the device has no address, and asked for none or, with
      fallback allowed, for one that another device holds. */
  predicate FallsThrough(n: Info, q: JoinRequest)
    requires n.subnet.mask <= UINT32_MAX
  {
    FindIP(n, q.deviceId) == 0 &&
    (q.requested == 0 ||
     (n.subnet.RequestAllowed(q.requested) && q.allowChange && q.requested in n.clients &&
      n.clients[q.requested].deviceId != q.deviceId))
  }

  ghost predicate Displaced(n: Info, n': Info, deviceId: string, ip: uint32) {
    ip in n.clients && n.clients[ip].deviceId != deviceId && !(ip in n'.clients && n'.clients[ip] == n.clients[ip])
  }

  /** Another device's client is displaced by a successful registration exactly when the registration comes
      down to the scan and that client sits at the address the scan returns; it is then offline and has no
      live hold. */
  lemma DisplacedExactly(n: Info, held: set<uint32>, q: JoinRequest, now: int, ip: uint32)
    requires WellFormed(n) && q.deviceId != ""
    ensures AllocatorReady(n)
    ensures var r := Assign(n, held, q.requested, q.deviceId, q.allowChange);
      r.Ok? ==>
        && (Displaced(n, Settle(n, r.value, q, now), q.deviceId, ip) <==>
              FallsThrough(n, q) && ip in n.clients && FirstFree(n, held, n.subnet.First()) == Some(ip))
        && (Displaced(n, Settle(n, r.value, q, now), q.deviceId, ip) ==>
            ip == r.value && !n.clients[ip].online && ip !in held)
  {
    AssignSafe(n, held, q.requested, q.deviceId, q.allowChange);
    ZeroNeverHeld(n);
    FindIPSound(n, q.deviceId);
    FirstFreeIsLowest(n, held, n.subnet.First());
    var r := Assign(n, held, q.requested, q.deviceId, q.allowChange);
    if r.Ok? {
      SettleClients(n, r.value, q, now);
      hide Settle, WellFormed, FirstFree;
    }
  }

  /** In particular a plain request, with no fallback allowed, displaces nobody. */
  lemma PlainRequestDisplacesNobody(n: Info, held: set<uint32>, q: JoinRequest, now: int, ip: uint32)
    requires WellFormed(n) && q.deviceId != "" && q.requested != 0 && !q.allowChange
    ensures AllocatorReady(n)
    ensures var r := Assign(n, held, q.requested, q.deviceId, q.allowChange);
      r.Ok? ==> !Displaced(n, Settle(n, r.value, q, now), q.deviceId, ip)
  {
    hide Assign, Settle, WellFormed, FirstFree, Displaced;
    DisplacedExactly(n, held, q, now, ip);
  }

  /** With fallback a request can take the very address asked for from a lapsed holder: when no lower one is free. */
  lemma FallbackTakesRequested(n: Info, held: set<uint32>, q: JoinRequest, now: int)
    requires WellFormed(n) && q.deviceId != "" && FindIP(n, q.deviceId) == 0 && q.requested != 0 && q.allowChange
    requires q.requested in n.clients && n.clients[q.requested].deviceId != q.deviceId && Free(n, held, q.requested)
    requires forall ip: uint32 :: n.subnet.First() <= ip < q.requested ==> !Free(n, held, ip)
    ensures AllocatorReady(n)
    ensures Assign(n, held, q.requested, q.deviceId, q.allowChange) == Ok(q.requested)
    ensures Displaced(n, Settle(n, q.requested, q, now), q.deviceId, q.requested)
  {
    RequestAgreesWithRange(n.subnet, q.requested);
    FirstFreeIsLowest(n, held, n.subnet.First());
    DisplacedExactly(n, held, q, now, q.requested);
    hide Settle, FirstFree;
  }

  /** In any reachable state a device without an address that asks for none is refused exactly when each
      assignable address has an online holder or one inside its hold, and otherwise gets the lowest other one. */
  lemma JoinAllocates(s: State, key: string, subnet: ValidNet, reserved: set<uint32>, q: JoinRequest, now: int)
    requires Good(s) && q.requested == 0 && FindIP(NetworkFor(s, key, subnet, reserved), q.deviceId) == 0
    ensures AllocatorReady(NetworkFor(s, key, subnet, reserved))
    ensures var n, r := NetworkFor(s, key, subnet, reserved), Join(s, key, subnet, reserved, q, now).0;
      var held := Held(Tick(s.holds, now), key);
      && (r.Err? <==> forall ip: uint32 :: Assignable(n, ip) ==> Protected(n, held, ip))
      && (r.Ok? ==> Assignable(n, r.value) && !Protected(n, held, r.value) &&
                    forall ip: uint32 :: Assignable(n, ip) && ip < r.value ==> Protected(n, held, ip))
  {
    ReadyToJoin(s, key, subnet, reserved);
    var n, held := NetworkFor(s, key, subnet, reserved), Held(Tick(s.holds, now), key);
    forall ip | ip in held ensures ip in n.clients {
      assert (key, ip) in Tick(s.holds, now);
      assert HasClient(s.networks, key, ip);
    }
    AutomaticAllocation(n, held, q.deviceId, q.allowChange);
    hide Assign, Protected, Assignable, Settle, Good, WellFormed;
  }

  /** Who holds what. */
  function Members(n: Info): map<uint32, string> {
    map ip | ip in n.clients :: n.clients[ip].deviceId
  }

  ghost predicate TookOffline(n: Info, n': Info) {
    exists ip :: ip in n.clients && ip in n'.clients && n.clients[ip].online && !n'.clients[ip].online
  }

  ghost predicate RenamedSome(n: Info, n': Info) {
    exists ip :: ip in n.clients && ip in n'.clients && n.clients[ip].name != n'.clients[ip].name
  }

  /** The epoch moves by at most one, and does move when the membership changes or a client is
      taken offline or renamed. */
  ghost predicate EpochKept(n: Info, n': Info) {
    && n.epoch <= n'.epoch <= n.epoch + 1
    && (Members(n') != Members(n) || TookOffline(n, n') || RenamedSome(n, n') ==> n'.epoch == n.epoch + 1)
  }

  lemma SameMembers(n: Info, n': Info)
    requires n'.clients.Keys == n.clients.Keys && n'.epoch == n.epoch
    requires forall ip :: ip in n.clients ==>
      n'.clients[ip].deviceId == n.clients[ip].deviceId && n'.clients[ip].name == n.clients[ip].name &&
        (n.clients[ip].online ==> n'.clients[ip].online)
    ensures EpochKept(n, n')
  {
    assert Members(n') == Members(n);
  }

  lemma TakeOfflineEpoch(n: Info, gone: set<uint32>, now: int)
    ensures EpochKept(n, Offline(n, gone, now))
  {
    if gone == {} { SameMembers(n, Offline(n, gone, now)); }
  }

  lemma ExpelEpoch(n: Info, gone: set<uint32>)
    ensures EpochKept(n, Expel(n, gone))
  {
    if gone == {} { SameMembers(n, Expel(n, gone)); }
  }

  lemma RenameEpoch(n: Info, ips: set<uint32>, name: string)
    ensures EpochKept(n, Renamed(n, ips, name))
  {
    assert Members(Renamed(n, ips, name)) == Members(n);
  }

  lemma JoinEpoch(s: State, k: string, subnet: ValidNet, reserved: set<uint32>, q: JoinRequest, now: int, key: string)
    requires Good(s) && q.deviceId != "" && key in s.networks
    ensures AllocatorReady(NetworkFor(s, k, subnet, reserved))
    ensures key in Join(s, k, subnet, reserved, q, now).1.networks
    ensures EpochKept(s.networks[key], Join(s, k, subnet, reserved, q, now).1.networks[key])
  {
    ReadyToJoin(s, k, subnet, reserved);
    var n := s.networks[key];
    ZeroNeverHeld(NetworkFor(s, k, subnet, reserved));
    SameMembers(n, n);
    var r := Assign(NetworkFor(s, k, subnet, reserved), Held(Tick(s.holds, now), k), q.requested, q.deviceId,
                    q.allowChange);
    if k == key && r.Ok? { SettleInverse(n, r.value, q, now); }
  }

  lemma RewriteEpoch(n: Info, ip: uint32, c: Client)
    requires WellFormed(n) && ip in n.clients && c.deviceId == n.clients[ip].deviceId && c.online
    requires c.name == n.clients[ip].name
    ensures EpochKept(n, Upsert(n, ip, c))
  {
    RewriteWellFormed(n, ip, c);
    SameMembers(n, Upsert(n, ip, c));
  }

  /** Networks never vanish, and every step of every run keeps the epochs. */
  lemma EpochStep(s: State, op: Op, now: int, key: string)
    requires Good(s) && Sensible(op) && key in s.networks
    ensures op.DoJoin? ==> AllocatorReady(NetworkFor(s, op.key, op.subnet, op.reserved))
    ensures key in Step(s, op, now).networks
    ensures EpochKept(s.networks[key], Step(s, op, now).networks[key])
  {
    var n := s.networks[key];
    assert GoodNet(key, n);
    match op
    case DoJoin(k, subnet, reserved, q) => JoinEpoch(s, k, subnet, reserved, q, now, key);
    case DoLeave(addr) => TakeOfflineEpoch(n, Leaving(n, addr), now);
    case DoClearStale(g, d) => TakeOfflineEpoch(n, Stale(n, g, d), now);
    case DoRemove(devices) => ExpelEpoch(n, Doomed(n, devices));
    case DoRename(g, d, name) => RenameEpoch(n, ToRename(n, g, d, name), name);
    case DoTouch(k, ip) =>
      SameMembers(n, n);
      if k == key && ip in n.clients { RewriteEpoch(n, ip, n.clients[ip].(online := true, lastSeen := now / SECOND)); }
    case DoReport(k, ip, reachable) =>
      SameMembers(n, n);
      if k == key && ip in n.clients {
        RewriteEpoch(n, ip, n.clients[ip].(online := true, lastSeen := now / SECOND, reachable := reachable,
                                           hasStatus := true));
      }
  }
}
