/** The virtual networks as the controller keeps them: a table of networks, an expiring map of
    address holds, and the handlers that rewrite both. */
module NetworkControl {
  import opened Text
  import opened Subnet
  import opened Network
  import TimedMap

  lemma DropMore(a: Holds, b: Holds, k: HoldKey, ks: set<HoldKey>)
    requires a - {k} == b - {k} && k in ks
    ensures a - ks == b - ks
  {
    assert a - ks == (a - {k}) - ks;
    assert b - ks == (b - {k}) - ks;
  }

  /** The addresses of one network with a live hold. */
  ghost function HeldIn(m: Holds, group: string, now: int): set<uint32> {
    Held(Tick(m, now), group)
  }

  lemma HeldInIsLive(m: Holds, group: string, now: int, ip: uint32)
    ensures ip in HeldIn(m, group, now) <==> (group, ip) in Tick(m, now)
  {
    if (group, ip) in Tick(m, now) {
      assert (group, ip) in Tick(m, now);
    }
  }

  lemma HeldInSame(m: Holds, m': Holds, group: string, now: int)
    requires Tick(m, now) == Tick(m', now)
    ensures HeldIn(m, group, now) == HeldIn(m', group, now)
  {
  }

  /** Part of the way through a sweep: the networks in `todo` are still as before. */
  function Mixed(before: map<string, Info>, after: map<string, Info>, todo: set<string>): map<string, Info>
    requires after.Keys == before.Keys
  {
    map k | k in before :: if k in todo then before[k] else after[k]
  }

  lemma MixedStep(before: map<string, Info>, after: map<string, Info>, todo: set<string>, key: string)
    requires after.Keys == before.Keys && key in before
    ensures Mixed(before, after, todo)[key := after[key]] == Mixed(before, after, todo - {key})
  {
  }

  lemma MixedEnds(before: map<string, Info>, after: map<string, Info>)
    requires after.Keys == before.Keys
    ensures Mixed(before, after, before.Keys) == before && Mixed(before, after, {}) == after
  {
  }

  class NetworkControl {
    var networks: map<string, Info>
    const holds: TimedMap.ExpireMap<HoldKey, ()>

    ghost predicate Valid()
      reads this, holds
    {
      holds.Valid() && holds.ttl == HOLD_TTL
    }

    ghost function Model(): State
      reads this, holds
    {
      State(networks, holds.Entries())
    }

    constructor ()
      ensures Valid() && fresh(holds) && Model() == State(map[], map[])
    {
      networks := map[];
      holds := new TimedMap.ExpireMap(HOLD_TTL);
    }

    // ---------------------------------------------------------- registration

    /** Puts a hold on an address that has none. */
    method ClaimHold(key: HoldKey, now: int) returns (claimed: bool)
      requires Valid()
      modifies holds
      ensures Valid() && claimed == (key !in Tick(old(holds.Entries()), now))
      ensures !claimed ==> Tick(holds.Entries(), now) == Tick(old(holds.Entries()), now)
      ensures claimed ==> Tick(holds.Entries(), now) - {key} == Tick(old(holds.Entries()), now) - {key}
    {
      var occupied := holds.Get(key, now);
      if occupied.Some? {
        return false;
      }
      TimedMap.AtUpdateOther(holds.Entries(), key, ((), TimedMap.Deadline(HOLD_TTL, now)), now);
      holds.Set(key, (), now);
      return true;
    }

    /** One round of the scan: takes `ip` if it is free, evicting a lapsed holder. */
    method TryAddress(network: Info, ip: uint32, now: int) returns (taken: bool, network': Info)
      requires Valid()
      modifies holds
      ensures Valid() && taken == Free(network, HeldIn(old(holds.Entries()), network.group, now), ip)
      ensures network' == if taken then Remove(network, ip) else network
      ensures !taken ==> Tick(holds.Entries(), now) == Tick(old(holds.Entries()), now)
      ensures taken ==> Tick(holds.Entries(), now) - {(network.group, ip)} ==
                        Tick(old(holds.Entries()), now) - {(network.group, ip)}
    {
      HeldInIsLive(holds.Entries(), network.group, now, ip);
      network' := network;
      if ip == network.subnet.gateway || ip in network.reserved {
        return false, network;
      }
      var key := (network.group, ip);
      if ip in network.clients {
        if network.clients[ip].online {
          return false, network;
        }
        var hold := holds.Get(key, now);
        if hold.Some? {
          return false, network;
        }
        network' := Remove(network, ip);
      }
      taken := ClaimHold(key, now);
    }

    /** The scan for a free address: the lowest one, evicting a holder only when it is offline and
        its hold has run out. */
    method ScanFree(network: Info, now: int) returns (r: Option<uint32>, network': Info)
      requires Valid() && AllocatorReady(network)
      modifies holds
      ensures Valid()
      ensures r == FirstFree(network, HeldIn(old(holds.Entries()), network.group, now), network.subnet.First())
      ensures network' == if r.Some? then Remove(network, r.value) else network
      ensures r == None ==> Tick(holds.Entries(), now) == Tick(old(holds.Entries()), now)
      ensures r.Some? ==> Tick(holds.Entries(), now) - {(network.group, r.value)} ==
                          Tick(old(holds.Entries()), now) - {(network.group, r.value)}
    {
      ghost var m := holds.Entries();
      ghost var held := HeldIn(m, network.group, now);
      var ip := network.subnet.First();
      var last := network.subnet.Last();
      while ip <= last
        invariant Valid() && Tick(holds.Entries(), now) == Tick(m, now)
        invariant FirstFree(network, held, network.subnet.First()) == FirstFree(network, held, ip)
        decreases UINT32_MAX - ip
      {
        HeldInSame(m, holds.Entries(), network.group, now);
        var taken;
        taken, network' := TryAddress(network, ip, now);
        if taken {
          return Some(ip), network';
        }
        ip := ip + 1;
      }
      return None, network;
    }

    /** Chooses the address for a registering device. */
    method GenerateIP(network: Info, requestedIP: uint32, deviceID: string, allowIPChange: bool, now: int)
      returns (r: Result<uint32, AssignError>, oldIP: uint32, network': Info)
      requires Valid() && WellFormed(network) && AllocatorReady(network) && deviceID != ""
      modifies holds
      ensures Valid()
      ensures r == Assign(network, HeldIn(old(holds.Entries()), network.group, now), requestedIP, deviceID,
                          allowIPChange)
      ensures oldIP == FindIP(network, deviceID)
      ensures network' == Evict(network, r, deviceID)
      ensures r.Err? ==> Tick(holds.Entries(), now) == Tick(old(holds.Entries()), now)
      ensures r.Ok? ==> Tick(holds.Entries(), now) - {(network.group, r.value)} ==
                        Tick(old(holds.Entries()), now) - {(network.group, r.value)}
    {
      FindIPSound(network, deviceID);
      oldIP, network' := FindIP(network, deviceID), network;
      if requestedIP != 0 {
        if !network.subnet.RequestAllowed(requestedIP) {
          return Err(OutOfRange), oldIP, network;
        }
        if requestedIP !in network.clients || network.clients[requestedIP].deviceId == deviceID {
          return Ok(requestedIP), oldIP, network;
        }
        if !allowIPChange {
          return Err(InUse), oldIP, network;
        }
      }
      if oldIP != 0 {
        return Ok(oldIP), oldIP, network;
      }
      var free;
      free, network' := ScanFree(network, now);
      match free
      case Some(ip) => r := Ok(ip);
      case None => r := Err(NoAddress);
    }

    /** Lifts the holds on the address given and on the one vacated. */
    method ReleaseHolds(group: string, ip: uint32, oldIP: uint32, now: int)
      requires Valid()
      modifies holds
      ensures Valid()
      ensures Tick(holds.Entries(), now) == Tick(old(holds.Entries()), now) -
              (if oldIP == 0 then {(group, ip)} else {(group, oldIP), (group, ip)})
    {
      if oldIP != 0 && oldIP != ip {
        holds.Delete((group, oldIP));
      }
      holds.Delete((group, ip));
    }

    /** The network half of a registration, in its network. */
    method RegisterIn(network: Info, q: JoinRequest, now: int) returns (r: Result<uint32, AssignError>, network': Info)
      requires Valid() && WellFormed(network) && AllocatorReady(network) && q.deviceId != ""
      modifies holds
      ensures Valid()
      ensures r == Assign(network, HeldIn(old(holds.Entries()), network.group, now), q.requested, q.deviceId,
                          q.allowChange)
      ensures network' == if r.Ok? then Settle(network, r.value, q, now) else network
      ensures r.Err? ==> Tick(holds.Entries(), now) == Tick(old(holds.Entries()), now)
      ensures r.Ok? ==> Tick(holds.Entries(), now) == Tick(old(holds.Entries()), now) -
                        Released(network.group, network, r.value, q.deviceId)
    {
      var oldIP: uint32;
      r, oldIP, network' := GenerateIP(network, q.requested, q.deviceId, q.allowChange, now);
      if r.Err? {
        return;
      }
      var ip := r.value;
      DropMore(Tick(holds.Entries(), now), Tick(old(holds.Entries()), now), (network.group, ip),
               Released(network.group, network, ip, q.deviceId));
      if oldIP != 0 && oldIP != ip {
        network' := Remove(network', oldIP);
      }
      var c := if ip in network'.clients then network'.clients[ip] else NO_CLIENT;
      network' := Upsert(network', ip, Joined(c, network.group, ip, q, now));
      network' := network'.(epoch := network'.epoch + 1);
      ReleaseHolds(network.group, ip, oldIP, now);
    }

    /** The network half of a registration: finds or creates the network, then registers in it. */
    method Register(key: string, subnet: ValidNet, reserved: set<uint32>, q: JoinRequest, now: int)
      returns (r: Result<uint32, AssignError>)
      requires Valid() && q.deviceId != "" && AllocatorReady(NetworkFor(Model(), key, subnet, reserved))
      requires GoodNet(key, NetworkFor(Model(), key, subnet, reserved))
      modifies this, holds
      ensures Valid()
      ensures r == Join(old(Model()), key, subnet, reserved, q, now).0
      ensures Ticked(Model(), now) == Join(old(Model()), key, subnet, reserved, q, now).1
    {
      ghost var s := Model();
      var network := if key in networks then networks[key] else NewInfo(key, subnet, reserved);
      r, network := RegisterDecided(network, key, subnet, reserved, q, now, s);
      networks := networks[key := network];
    }

    method RegisterDecided(network: Info, ghost key: string, ghost subnet: ValidNet, ghost reserved: set<uint32>,
                           q: JoinRequest, now: int, ghost s: State)
      returns (r: Result<uint32, AssignError>, network': Info)
      requires Valid() && q.deviceId != "" && AllocatorReady(network) && GoodNet(key, network)
      requires s.holds == holds.Entries() && network == NetworkFor(s, key, subnet, reserved)
      modifies holds
      ensures Valid()
      ensures Join(s, key, subnet, reserved, q, now) ==
              (r, State(s.networks[key := network'], Tick(holds.Entries(), now)))
    {
      ghost var m := holds.Entries();
      r, network' := RegisterIn(network, q, now);
      JoinDecided(s, key, subnet, reserved, q, now, r, network', m, holds.Entries());
    }

    // ------------------------------------------------- departures and deletions

    /** The selected clients of one network go offline one by one, each with a hold on its address. */
    method TakeOfflineIn(network: Info, gone: set<uint32>, now: int) returns (network': Info)
      requires Valid() && Inverse(network) && gone <= network.clients.Keys
      modifies holds
      ensures Valid() && network' == Offline(network, gone, now)
      ensures holds.Entries() == old(holds.Entries()) + NewHolds(KeysIn(network.group, gone), now)
    {
      ghost var h := holds.Entries();
      ghost var done := {};
      var todo := gone;
      network' := network;
      assert network.clients == OfflineClients(network.clients, {}, now);
      assert h + NewHolds(KeysIn(network.group, {}), now) == h;
      while todo != {}
        invariant done + todo == gone && done !! todo && Valid()
        invariant network' == network.(clients := OfflineClients(network.clients, done, now))
        invariant holds.Entries() == h + NewHolds(KeysIn(network.group, done), now)
        decreases todo
      {
        var ip :| ip in todo;
        OfflineOneMore(network, done, ip, now);
        WithOneMore(h, network.group, done, ip, now);
        network' := Upsert(network', ip, TakenOffline(network'.clients[ip], now));
        holds.Set((network.group, ip), (), now);
        todo, done := todo - {ip}, done + {ip};
      }
      assert done == gone;
      if gone != {} {
        network' := network'.(epoch := network'.epoch + 1);
      }
    }

    method TakeOfflineAt(key: string, sel: set<uint32>, now: int, ghost before: map<string, Info>,
                         ghost after: map<string, Info>,
                         ghost h: Holds, ghost gone: map<string, set<uint32>>, ghost todo: set<string>)
      requires Valid() && before.Keys == after.Keys && key in before && key in todo &&
        networks == Mixed(before, after, todo)
      requires key in gone && gone[key] == sel && after[key] == Offline(before[key], sel, now)
      requires sel <= before[key].clients.Keys && Inverse(before[key]) && before[key].group == key
      requires holds.Entries() == h + NewHolds(HoldKeys(gone, todo), now)
      modifies this, holds
      ensures Valid() && networks == Mixed(before, after, todo - {key})
      ensures holds.Entries() == h + NewHolds(HoldKeys(gone, todo - {key}), now)
    {
      MixedStep(before, after, todo, key);
      WithOneMoreNetwork(h, gone, todo, key, now);
      var network := TakeOfflineIn(networks[key], sel, now);
      networks := networks[key := network];
    }

    /** A connection is gone: every online client behind it goes offline, under a hold. */
    method LeaveByRemoteAddr(addr: string, now: int)
      requires Valid() && GoodNets(networks)
      modifies this, holds
      ensures Valid() && Ticked(Model(), now) == Leave(old(Model()), addr, now)
    {
      ghost var s := Model();
      ghost var gone := AllLeaving(s.networks, addr);
      ghost var after := OfflineAll(s.networks, gone, now);
      SweepStarts(s.networks, after, s.holds, gone, now);
      LeaveEverywhere(addr, now, s.networks, after, s.holds, gone);
      TickAllHolds(s.holds, HoldKeys(gone, {}), now);
    }

    method LeaveEverywhere(addr: string, now: int, ghost before: map<string, Info>, ghost after: map<string, Info>,
                  ghost h: Holds, ghost gone: map<string, set<uint32>>)
      requires Valid() && before.Keys == after.Keys == gone.Keys
      requires networks == before == Mixed(before, after, before.Keys) && Mixed(before, after, {}) == after
      requires forall k :: k in before ==> GoodNet(k, before[k]) && gone[k] == Leaving(before[k], addr) &&
                                           after[k] == Offline(before[k], gone[k], now)
      requires holds.Entries() == h + NewHolds(HoldKeys(gone, gone.Keys), now)
      modifies this, holds
      ensures Valid() && networks == after
      ensures holds.Entries() == h + NewHolds(HoldKeys(gone, {}), now)
    {
      var todo := networks.Keys;
      while todo != {}
        invariant Valid() && todo <= before.Keys
        invariant networks == Mixed(before, after, todo)
        invariant holds.Entries() == h + NewHolds(HoldKeys(gone, todo), now)
        decreases todo
      {
        var key :| key in todo;
        TakeOfflineAt(key, Leaving(networks[key], addr), now, before, after, h, gone, todo);
        todo := todo - {key};
      }
    }

    /** A device failed its authorisation check: its clients lose their live state, under a hold. */
    method ClearStaleClientState(authGroup: string, deviceID: string, now: int)
      requires Valid() && GoodNets(networks)
      modifies this, holds
      ensures Valid() && Ticked(Model(), now) == ClearStale(old(Model()), authGroup, deviceID, now)
    {
      ghost var s := Model();
      ghost var gone := AllStale(s.networks, authGroup, deviceID);
      ghost var after := OfflineAll(s.networks, gone, now);
      SweepStarts(s.networks, after, s.holds, gone, now);
      ClearStaleEverywhere(authGroup, deviceID, now, s.networks, after, s.holds, gone);
      TickAllHolds(s.holds, HoldKeys(gone, {}), now);
    }

    method ClearStaleEverywhere(authGroup: string, deviceID: string, now: int, ghost before: map<string, Info>,
                                ghost after: map<string, Info>,
                  ghost h: Holds, ghost gone: map<string, set<uint32>>)
      requires Valid() && before.Keys == after.Keys == gone.Keys
      requires networks == before == Mixed(before, after, before.Keys) && Mixed(before, after, {}) == after
      requires forall k :: k in before ==> GoodNet(k, before[k]) && gone[k] == Stale(before[k], authGroup, deviceID) &&
                                           after[k] == Offline(before[k], gone[k], now)
      requires holds.Entries() == h + NewHolds(HoldKeys(gone, gone.Keys), now)
      modifies this, holds
      ensures Valid() && networks == after
      ensures holds.Entries() == h + NewHolds(HoldKeys(gone, {}), now)
    {
      var todo := networks.Keys;
      while todo != {}
        invariant Valid() && todo <= before.Keys
        invariant networks == Mixed(before, after, todo)
        invariant holds.Entries() == h + NewHolds(HoldKeys(gone, todo), now)
        decreases todo
      {
        var key :| key in todo;
        TakeOfflineAt(key, Stale(networks[key], authGroup, deviceID), now, before, after, h, gone, todo);
        todo := todo - {key};
      }
    }

    /** The doomed clients of one network, removed one by one with their holds. */
    method ExpelIn(network: Info, gone: set<uint32>) returns (network': Info)
      requires Valid() && Inverse(network) && gone <= network.clients.Keys
      modifies holds
      ensures Valid() && network' == Expel(network, gone)
      ensures holds.Entries() == old(holds.Entries()) - KeysIn(network.group, gone)
    {
      ghost var h := holds.Entries();
      ghost var done := {};
      var todo := gone;
      network' := network;
      assert network == WithoutClients(network, {}) by { assert network.clients - {} == network.clients; }
      assert h - KeysIn(network.group, {}) == h;
      while todo != {}
        invariant done + todo == gone && done !! todo && Valid()
        invariant network' == WithoutClients(network, done)
        invariant holds.Entries() == h - KeysIn(network.group, done)
        decreases todo
      {
        var ip :| ip in todo;
        ExpelOneMore(network, done, ip);
        MinusOneMore(h, network.group, done, ip);
        network' := Remove(network', ip);
        holds.Delete((network.group, ip));
        todo, done := todo - {ip}, done + {ip};
      }
      assert done == gone;
      if gone != {} {
        network' := network'.(epoch := network'.epoch + 1);
      }
    }

    method ExpelAt(key: string, sel: set<uint32>, ghost before: map<string, Info>, ghost after: map<string, Info>,
                   ghost h: Holds, ghost gone: map<string, set<uint32>>, ghost todo: set<string>)
      requires Valid() && before.Keys == after.Keys && key in before && key in todo &&
        networks == Mixed(before, after, todo)
      requires key in gone && gone[key] == sel && after[key] == Expel(before[key], sel)
      requires sel <= before[key].clients.Keys && Inverse(before[key]) && before[key].group == key
      requires holds.Entries() == h - HoldKeys(gone, todo)
      modifies this, holds
      ensures Valid() && networks == Mixed(before, after, todo - {key})
      ensures holds.Entries() == h - HoldKeys(gone, todo - {key})
    {
      MixedStep(before, after, todo, key);
      MinusOneMoreNetwork(h, gone, todo, key);
      var network := ExpelIn(networks[key], sel);
      networks := networks[key := network];
    }

    /** Deleted devices lose their runtime state everywhere. */
    method RemoveAuthedDeviceRuntimeState(devices: set<string>, now: int)
      requires Valid() && GoodNets(networks)
      modifies this, holds
      ensures Valid() && Ticked(Model(), now) == RemoveDevices(old(Model()), devices, now)
    {
      ghost var s := Model();
      ghost var gone := AllDoomed(s.networks, devices);
      ghost var after := Expelled(s.networks, gone);
      SweepStarts(s.networks, after, s.holds, gone, now);
      RemoveEverywhere(devices, s.networks, after, s.holds, gone);
      TickMinus(s.holds, HoldKeys(gone, {}), now);
    }

    method RemoveEverywhere(devices: set<string>, ghost before: map<string, Info>, ghost after: map<string, Info>,
                            ghost h: Holds, ghost gone: map<string, set<uint32>>)
      requires Valid() && before.Keys == after.Keys == gone.Keys
      requires networks == before == Mixed(before, after, before.Keys) && Mixed(before, after, {}) == after
      requires forall k :: k in before ==> GoodNet(k, before[k]) && gone[k] == Doomed(before[k], devices) &&
                                           after[k] == Expel(before[k], gone[k])
      requires holds.Entries() == h - HoldKeys(gone, gone.Keys)
      modifies this, holds
      ensures Valid() && networks == after
      ensures holds.Entries() == h - HoldKeys(gone, {})
    {
      var todo := networks.Keys;
      while todo != {}
        invariant Valid() && todo <= before.Keys
        invariant networks == Mixed(before, after, todo)
        invariant holds.Entries() == h - HoldKeys(gone, todo)
        decreases todo
      {
        var key :| key in todo;
        ExpelAt(key, Doomed(networks[key], devices), before, after, h, gone, todo);
        todo := todo - {key};
      }
    }

    /** A renamed device shows its new name wherever it is registered. */
    method UpdateAuthedDeviceRuntimeName(authGroup: string, deviceID: string, displayName: string, now: int)
      requires Valid() && GoodNets(networks)
      modifies this
      ensures Valid() && Ticked(Model(), now) ==
        if Trim(displayName) == "" then Ticked(old(Model()), now)
        else RenameDevice(old(Model()), authGroup, deviceID, Trim(displayName), now)
    {
      var name := Trim(displayName);
      if name == "" {
        return;
      }
      ghost var s := Model();
      ghost var after := RenameDevice(s, authGroup, deviceID, name, now).networks;
      MixedEnds(s.networks, after);
      RenameEverywhere(authGroup, deviceID, name, s.networks, after);
    }

    method RenameEverywhere(authGroup: string, deviceID: string, name: string,
                            ghost before: map<string, Info>, ghost after: map<string, Info>)
      requires before.Keys == after.Keys
      requires networks == before == Mixed(before, after, before.Keys) && Mixed(before, after, {}) == after
      requires forall k :: k in before ==>
        GoodNet(k, before[k]) && after[k] == Renamed(before[k], ToRename(before[k], authGroup, deviceID, name), name)
      modifies this
      ensures networks == after
    {
      var todo := networks.Keys;
      while todo != {}
        invariant todo <= before.Keys
        invariant networks == Mixed(before, after, todo)
        decreases todo
      {
        var key :| key in todo;
        MixedStep(before, after, todo, key);
        var network := RenameIn(networks[key], ToRename(networks[key], authGroup, deviceID, name), name);
        networks := networks[key := network];
        todo := todo - {key};
      }
    }

    method RenameIn(network: Info, ips: set<uint32>, name: string) returns (network': Info)
      requires Inverse(network) && ips <= network.clients.Keys
      ensures network' == Renamed(network, ips, name)
    {
      ghost var done := {};
      var todo := ips;
      network' := network;
      assert network.clients == RenamedClients(network.clients, {}, name);
      while todo != {}
        invariant done + todo == ips && done !! todo
        invariant network' == network.(clients := RenamedClients(network.clients, done, name))
        decreases todo
      {
        var ip :| ip in todo;
        RenameOneMore(network, done, ip, name);
        network' := Upsert(network', ip, network'.clients[ip].(name := name));
        todo, done := todo - {ip}, done + {ip};
      }
      assert done == ips;
      if ips != {} {
        network' := network'.(epoch := network'.epoch + 1);
      }
    }

    // ----------------------------------------------------------- signs of life

    /** The first network found, in whatever order, that has the address; only the named one when a key is given. */
    method FindClient(networkKey: string, ip: uint32) returns (found: Option<string>)
      ensures found.Some? ==> HasClient(networks, found.value, ip) && Selected(networkKey, found.value)
      ensures found == None ==> forall k :: Selected(networkKey, k) ==> !HasClient(networks, k, ip)
    {
      var todo := networks.Keys;
      while todo != {}
        invariant todo <= networks.Keys
        invariant forall k :: k !in todo && Selected(networkKey, k) ==> !HasClient(networks, k, ip)
        decreases todo
      {
        var key :| key in todo;
        if Selected(networkKey, key) && ip in networks[key].clients {
          return Some(key);
        }
        todo := todo - {key};
      }
      return None;
    }

    predicate Selected(networkKey: string, key: string) {
      Trim(networkKey) == "" || key == networkKey
    }

    /** A ping: the client found under the address is online; the answer is its network's 16-bit epoch, 0 when
        there is none. */
    method TouchClientByIPInNetwork(networkKey: string, ip: uint32, now: int) returns (epoch: nat, ghost key: string)
      requires Valid()
      modifies this
      ensures Valid() && Selected(networkKey, key) && Ticked(Model(), now) == Touch(old(Model()), key, ip, now)
      ensures epoch == if HasClient(networks, key, ip) then networks[key].epoch % 0x1_0000 else 0
      ensures !HasClient(old(networks), key, ip) ==> forall k :: Selected(networkKey, k) ==> !HasClient(networks, k, ip)
    {
      var found := FindClient(networkKey, ip);
      if found == None {
        assert !HasClient(networks, networkKey, ip);
        return 0, networkKey;
      }
      key := found.value;
      var client := networks[found.value].clients[ip].(online := true, lastSeen := now / SECOND);
      networks := networks[found.value := Upsert(networks[found.value], ip, client)];
      epoch := networks[found.value].epoch % 0x1_0000;
    }

    /** A status report: online, with its reachability on the data plane. */
    method HandleClientStatusInfo(networkKey: string, ip: uint32, reachable: bool, now: int)
      returns (known: bool, ghost key: string)
      requires Valid()
      modifies this
      ensures Valid() && Selected(networkKey, key) &&
        Ticked(Model(), now) == Report(old(Model()), key, ip, reachable, now)
      ensures known == HasClient(old(networks), key, ip)
      ensures !known ==> forall k :: Selected(networkKey, k) ==> !HasClient(old(networks), k, ip)
    {
      var found := FindClient(networkKey, ip);
      if found == None {
        assert !HasClient(networks, networkKey, ip);
        return false, networkKey;
      }
      key := found.value;
      var client := networks[found.value].clients[ip];
      client := client.(online := true, lastSeen := now / SECOND, reachable := reachable, hasStatus := true);
      networks := networks[found.value := Upsert(networks[found.value], ip, client)];
      known := true;
    }

    /** One janitor round on the holds changes nothing a later step can see. */
    method SweepHolds(now: int)
      requires Valid()
      modifies holds
      ensures Valid() && Model() == Ticked(old(Model()), now)
    {
      holds.Sweep(now);
    }
  }

  lemma SweepStarts(before: map<string, Info>, after: map<string, Info>, h: Holds, gone: map<string, set<uint32>>,
                    now: int)
    requires after.Keys == before.Keys == gone.Keys
    ensures Mixed(before, after, before.Keys) == before && Mixed(before, after, {}) == after
    ensures h + NewHolds(HoldKeys(gone, gone.Keys), now) == h && h - HoldKeys(gone, gone.Keys) == h
  {
    MixedEnds(before, after);
    assert HoldKeys(gone, gone.Keys) == {};
  }

  lemma RenameOneMore(n: Info, done: set<uint32>, ip: uint32, name: string)
    requires Inverse(n) && ip in n.clients && ip !in done
    ensures var n' := n.(clients := RenamedClients(n.clients, done, name));
      Upsert(n', ip, n'.clients[ip].(name := name)) == n.(clients := RenamedClients(n.clients, done + {ip}, name))
  {
    var n' := n.(clients := RenamedClients(n.clients, done, name));
    assert n'.clients[ip := n'.clients[ip].(name := name)] == RenamedClients(n.clients, done + {ip}, name);
    assert n.byDevice - {} == n.byDevice == n.byDevice[n.clients[ip].deviceId := ip];
  }

  lemma MinusOneMoreNetwork(h: Holds, gone: map<string, set<uint32>>, todo: set<string>, key: string)
    requires key in gone
    ensures (h - HoldKeys(gone, todo)) - KeysIn(key, gone[key]) == h - HoldKeys(gone, todo - {key})
  {
    assert HoldKeys(gone, todo - {key}) == HoldKeys(gone, todo) + KeysIn(key, gone[key]);
  }

  /** What the registration on one record amounts to for the whole state. */
  lemma JoinDecided(s: State, key: string, subnet: ValidNet, reserved: set<uint32>, q: JoinRequest, now: int,
                    r: Result<uint32, AssignError>, n': Info,
                    m: Holds, m': Holds)
    requires AllocatorReady(NetworkFor(s, key, subnet, reserved)) && NetworkFor(s, key, subnet, reserved).group == key
    requires s.holds == m
    requires var n := NetworkFor(s, key, subnet, reserved);
      && r == Assign(n, HeldIn(m, key, now), q.requested, q.deviceId, q.allowChange)
      && n' == (if r.Ok? then Settle(n, r.value, q, now) else n)
      && (r.Err? ==> Tick(m', now) == Tick(m, now))
      && (r.Ok? ==> Tick(m', now) == Tick(m, now) - Released(key, n, r.value, q.deviceId))
    ensures Join(s, key, subnet, reserved, q, now) == (r, State(s.networks[key := n'], Tick(m', now)))
  {
  }

  lemma OfflineOneMore(n: Info, done: set<uint32>, ip: uint32, now: int)
    requires Inverse(n) && ip in n.clients && ip !in done
    ensures var n' := n.(clients := OfflineClients(n.clients, done, now));
      Upsert(n', ip, TakenOffline(n'.clients[ip], now)) == n.(clients := OfflineClients(n.clients, done + {ip}, now))
  {
    var n' := n.(clients := OfflineClients(n.clients, done, now));
    assert n'.clients[ip := TakenOffline(n'.clients[ip], now)] == OfflineClients(n.clients, done + {ip}, now);
    assert n.byDevice - {} == n.byDevice == n.byDevice[n.clients[ip].deviceId := ip];
  }

  lemma ExpelOneMore(n: Info, done: set<uint32>, ip: uint32)
    requires Inverse(n) && ip in n.clients && ip !in done
    ensures Remove(WithoutClients(n, done), ip) == WithoutClients(n, done + {ip})
  {
    var m := WithoutClients(n, done);
    assert m.clients - {ip} == n.clients - (done + {ip});
    assert Remove(m, ip).byDevice == WithoutClients(n, done + {ip}).byDevice;
  }

  lemma MinusOneMore(h: Holds, group: string, ips: set<uint32>, ip: uint32)
    ensures (h - KeysIn(group, ips)) - {(group, ip)} == h - KeysIn(group, ips + {ip})
  {
    assert KeysIn(group, ips + {ip}) == KeysIn(group, ips) + {(group, ip)};
  }

  lemma TickMinus(h: Holds, keys: set<HoldKey>, now: int)
    ensures Tick(h - keys, now) == Tick(h, now) - keys
  {
  }

  function KeysIn(group: string, ips: set<uint32>): set<HoldKey> {
    set ip | ip in ips :: (group, ip)
  }

  lemma NewHoldsUnion(h: Holds, a: set<HoldKey>, b: set<HoldKey>, now: int)
    ensures (h + NewHolds(a, now)) + NewHolds(b, now) == h + NewHolds(a + b, now)
  {
  }

  lemma WithOneMore(h: Holds, group: string, ips: set<uint32>, ip: uint32, now: int)
    ensures (h + NewHolds(KeysIn(group, ips), now))[(group, ip) := ((), now + HOLD_TTL)] == h +
      NewHolds(KeysIn(group, ips + {ip}), now)
  {
    assert KeysIn(group, ips + {ip}) == KeysIn(group, ips) + {(group, ip)};
  }

  lemma WithOneMoreNetwork(h: Holds, gone: map<string, set<uint32>>, todo: set<string>, key: string, now: int)
    requires key in gone
    ensures (h + NewHolds(HoldKeys(gone, todo), now)) + NewHolds(KeysIn(key, gone[key]), now) ==
            h + NewHolds(HoldKeys(gone, todo - {key}), now)
  {
    NewHoldsUnion(h, HoldKeys(gone, todo), KeysIn(key, gone[key]), now);
    assert HoldKeys(gone, todo - {key}) == HoldKeys(gone, todo) + KeysIn(key, gone[key]);
  }

  lemma TickAllHolds(h: Holds, keys: set<HoldKey>, now: int)
    ensures Tick(h + NewHolds(keys, now), now) == Tick(h, now) + NewHolds(keys, now)
  {
  }

  ghost function Ticked(s: State, now: int): State {
    s.(holds := Tick(s.holds, now))
  }

  /** The network after the allocator has answered: an address taken over has lost its holder. */
  ghost function Evict(n: Info, r: Result<uint32, AssignError>, deviceId: string): Info {
    if r.Ok? && r.value in n.clients && n.clients[r.value].deviceId != deviceId then Remove(n, r.value) else n
  }
}
