/** Virtual networks (control/network.go, control/ip.go and the membership half of
    control/registration.go): who holds which virtual address, the index by device, the timed
    holds on addresses of devices that went offline, and the epoch of each network.

    Time is in nanoseconds.  A step sees the holds that are live at its time; the address stored
    with a hold is never read, so only its deadline is kept. */
module Network {
  import opened Text
  import opened Subnet
  import opened Identity
  import TimedMap

  const SECOND: int := 1_000_000_000
  const HOLD_TTL: int := 24 * 3600 * SECOND

  datatype Client = Client(deviceId: string, name: string, userId: string, networkKey: string,
                           authGroup: string, online: bool, lastSeen: int, reachable: bool,
                           hasStatus: bool, address: string, virtualIP: uint32, lastJoin: int)

  /** The zero record a first registration starts from. */
  const NO_CLIENT: Client := Client("", "", "", "", "", false, 0, false, false, "", 0, 0)

  datatype Info = Info(group: string, subnet: ValidNet, epoch: nat, clients: map<uint32, Client>,
                       byDevice: map<string, uint32>, reserved: set<uint32>)

  type HoldKey = (string, uint32)

  type Holds = TimedMap.Entries<HoldKey, ()>

  datatype State = State(networks: map<string, Info>, holds: Holds)

  // ------------------------------------------------------------ one network

  function NewInfo(group: string, subnet: ValidNet, reserved: set<uint32>): Info {
    Info(group, subnet, 0, map[], map[], reserved)
  }

  function Upsert(n: Info, ip: uint32, c: Client): Info {
    var stale := if ip in n.clients && n.clients[ip].deviceId != "" && n.clients[ip].deviceId != c.deviceId &&
                    n.clients[ip].deviceId in n.byDevice && n.byDevice[n.clients[ip].deviceId] == ip
                 then {n.clients[ip].deviceId} else {};
    var byDevice := n.byDevice - stale;
    n.(clients := n.clients[ip := c],
       byDevice := if c.deviceId != "" then byDevice[c.deviceId := ip] else byDevice)
  }

  function Remove(n: Info, ip: uint32): Info {
    if ip !in n.clients then n
    else
      var d := n.clients[ip].deviceId;
      n.(clients := n.clients - {ip},
         byDevice := if d != "" && d in n.byDevice && n.byDevice[d] == ip then n.byDevice - {d} else n.byDevice)
  }

  /** The address of a device, 0 for none. */
  function FindIP(n: Info, deviceId: string): uint32 {
    if deviceId != "" && deviceId in n.byDevice then n.byDevice[deviceId] else 0
  }

  /** Client table and device index are exact inverses. */
  ghost predicate Inverse(n: Info) {
    && (forall ip :: ip in n.clients ==>
          n.clients[ip].deviceId != "" && n.clients[ip].deviceId in n.byDevice &&
            n.byDevice[n.clients[ip].deviceId] == ip)
    && (forall d :: d in n.byDevice ==> n.byDevice[d] in n.clients && n.clients[n.byDevice[d]].deviceId == d)
  }

  /** Every held address is strictly inside the subnet and not the gateway. */
  ghost predicate WellPlaced(n: Info) {
    n.clients.Keys <= n.subnet.UsableSet()
  }

  ghost predicate WellFormed(n: Info) {
    Inverse(n) && WellPlaced(n)
  }

  /** In a well-formed network 0 is a sound "not found". */
  lemma FindIPSound(n: Info, d: string)
    requires WellFormed(n)
    ensures FindIP(n, d) != 0 ==> FindIP(n, d) in n.clients && n.clients[FindIP(n, d)].deviceId == d
    ensures FindIP(n, d) == 0 ==> forall ip :: ip in n.clients ==> n.clients[ip].deviceId != d
  {
    if d != "" && d in n.byDevice { RequestAgreesWithRange(n.subnet, n.byDevice[d]); }
  }

  lemma RemoveInverse(n: Info, ip: uint32)
    requires Inverse(n)
    ensures Inverse(Remove(n, ip))
  {
  }

  /** Storing a record keeps the index exact when the device holds no other address. */
  lemma UpsertInverse(n: Info, ip: uint32, c: Client)
    requires Inverse(n) && c.deviceId != ""
    requires c.deviceId in n.byDevice ==> n.byDevice[c.deviceId] == ip
    ensures Inverse(Upsert(n, ip, c))
  {
  }

  // ------------------------------------------------------ choosing an address

  datatype AssignError = OutOfRange | InUse | NoAddress

  /** The allocator's test on one address; `held` are the addresses with a live hold. */
  predicate Free(n: Info, held: set<uint32>, ip: uint32) {
    ip != n.subnet.gateway && ip !in n.reserved && ip !in held && (ip in n.clients ==> !n.clients[ip].online)
  }

  function FirstFree(n: Info, held: set<uint32>, from: nat): Option<uint32>
    requires n.subnet.mask <= UINT32_MAX && n.subnet.Last() < UINT32_MAX
    decreases UINT32_MAX - from
  {
    if from > n.subnet.Last() then None
    else if Free(n, held, from) then Some(from)
    else FirstFree(n, held, from + 1)
  }

  lemma {:induction false} FirstFreeIsLowest(n: Info, held: set<uint32>, from: nat)
    requires n.subnet.mask <= UINT32_MAX && n.subnet.Last() < UINT32_MAX
    ensures var r := FirstFree(n, held, from);
      && (r == None <==> forall ip: uint32 :: from <= ip <= n.subnet.Last() ==> !Free(n, held, ip))
      && (r.Some? ==> from <= r.value <= n.subnet.Last() && Free(n, held, r.value) &&
                      forall ip: uint32 :: from <= ip < r.value ==> !Free(n, held, ip))
    decreases UINT32_MAX - from
  {
    if from <= n.subnet.Last() && !Free(n, held, from) {
      FirstFreeIsLowest(n, held, from + 1);
    }
  }

  /** The address a registering device gets. */
  function Assign(n: Info, held: set<uint32>, requested: uint32, deviceId: string, allowChange: bool): Result<uint32,
    AssignError>
    requires n.subnet.mask <= UINT32_MAX && n.subnet.Last() < UINT32_MAX
  {
    if requested != 0 && !n.subnet.RequestAllowed(requested) then Err(OutOfRange)
    else if requested != 0 && !(requested in n.clients && n.clients[requested].deviceId != deviceId) then Ok(requested)
    else if requested != 0 && !allowChange then Err(InUse)
    else if FindIP(n, deviceId) != 0 then Ok(FindIP(n, deviceId))
    else match FirstFree(n, held, n.subnet.First())
      case Some(ip) => Ok(ip)
      case None => Err(NoAddress)
  }

  /** An address is taken for good while its holder is online or inside its hold. */
  ghost predicate Protected(n: Info, held: set<uint32>, ip: uint32) {
    ip in n.clients && (n.clients[ip].online || ip in held)
  }

  /** An address the allocator may hand out at all. */
  ghost predicate Assignable(n: Info, ip: uint32)
    requires n.subnet.mask <= UINT32_MAX
  {
    n.subnet.Usable(ip) && ip !in n.reserved
  }

  /** Automatic allocation, for a device without an address: when every live hold belongs to a
      client, it fails exactly when each assignable address is protected, and otherwise returns
      the lowest one that is not. */
  lemma AutomaticAllocation(n: Info, held: set<uint32>, deviceId: string, allowChange: bool)
    requires WellFormed(n) && held <= n.clients.Keys && FindIP(n, deviceId) == 0
    ensures n.subnet.Last() < UINT32_MAX
    ensures var r := Assign(n, held, 0, deviceId, allowChange);
      && (r == Err(NoAddress) <==> forall ip: uint32 :: Assignable(n, ip) ==> Protected(n, held, ip))
      && (r != Err(NoAddress) ==> r.Ok? && Assignable(n, r.value) && !Protected(n, held, r.value))
      && (r.Ok? ==> forall ip: uint32 :: Assignable(n, ip) && ip < r.value ==> Protected(n, held, ip))
  {
    RequestAgreesWithRange(n.subnet, 0);
    FirstFreeIsLowest(n, held, n.subnet.First());
    forall ip: uint32 | n.subnet.First() <= ip <= n.subnet.Last()
      ensures Free(n, held, ip) <==> Assignable(n, ip) && !Protected(n, held, ip)
    {
      RequestAgreesWithRange(n.subnet, ip);
    }
    forall ip: uint32 | Assignable(n, ip) ensures n.subnet.First() <= ip <= n.subnet.Last() {
      RequestAgreesWithRange(n.subnet, ip);
    }
  }

  /** Whatever was asked for, the address is usable; it never belongs to a protected other device;
      and a plain request (no fallback allowed) is never given an address anyone else holds. */
  lemma AssignSafe(n: Info, held: set<uint32>, requested: uint32, deviceId: string, allowChange: bool)
    requires WellFormed(n) && deviceId != ""
    ensures n.subnet.Last() < UINT32_MAX
    ensures var r := Assign(n, held, requested, deviceId, allowChange);
      r.Ok? ==>
        && n.subnet.Usable(r.value)
        && (Protected(n, held, r.value) ==> n.clients[r.value].deviceId == deviceId)
        && (requested != 0 && !allowChange ==> r.value == requested)
        && (requested != 0 && !allowChange && requested in n.clients ==> n.clients[requested].deviceId == deviceId)
  {
    RequestAgreesWithRange(n.subnet, 0);
    RequestAgreesWithRange(n.subnet, requested);
    FindIPSound(n, deviceId);
    FirstFreeIsLowest(n, held, n.subnet.First());
    var r := Assign(n, held, requested, deviceId, allowChange);
    if r.Ok? { RequestAgreesWithRange(n.subnet, r.value); }
  }

  // ------------------------------------------------------------------ steps

  function Tick(h: Holds, now: int): Holds {
    TimedMap.At(h, now)
  }

  function Held(h: Holds, group: string): set<uint32> {
    set k | k in h && k.0 == group :: k.1
  }

  /** The group a client was authorised for. */
  function AuthGroup(c: Client, group: string): string {
    if Trim(c.authGroup) != "" then Trim(c.authGroup) else Trim(group)
  }

  function TakenOffline(c: Client, now: int): Client {
    c.(online := false, lastSeen := now / SECOND, reachable := false, hasStatus := false)
  }

  datatype JoinRequest = JoinRequest(deviceId: string, name: string, userId: string, authGroup: string,
                                     requested: uint32, allowChange: bool, address: string)

  function Joined(c: Client, key: string, ip: uint32, q: JoinRequest, now: int): Client {
    Client(q.deviceId, q.name, q.userId, key, q.authGroup, true, now / SECOND, false, c.hasStatus, q.address, ip,
           now / SECOND)
  }

  /** Makes room at `ip` for a device: a lapsed holder is evicted, the device's former address vacated. */
  function MakeRoom(n: Info, ip: uint32, deviceId: string): Info {
    var n1 := if ip in n.clients && n.clients[ip].deviceId != deviceId then Remove(n, ip) else n;
    var former := FindIP(n, deviceId);
    if former != 0 && former != ip then Remove(n1, former) else n1
  }

  /** One network after `q` has been given `ip`: room is made, the record stored, the epoch raised. */
  function Settle(n: Info, ip: uint32, q: JoinRequest, now: int): Info {
    var n2 := MakeRoom(n, ip, q.deviceId);
    var c := if ip in n2.clients then n2.clients[ip] else NO_CLIENT;
    var n3 := Upsert(n2, ip, Joined(c, n.group, ip, q, now));
    n3.(epoch := n3.epoch + 1)
  }

  function NetworkFor(s: State, key: string, subnet: ValidNet, reserved: set<uint32>): Info {
    if key in s.networks then s.networks[key] else NewInfo(key, subnet, reserved)
  }

  ghost predicate AllocatorReady(n: Info) {
    n.subnet.mask <= UINT32_MAX && n.subnet.Last() < UINT32_MAX
  }

  /** The network half of a registration. */
  ghost function Join(s: State, key: string, subnet: ValidNet, reserved: set<uint32>, q: JoinRequest, now: int)
    : (r: (Result<uint32, AssignError>, State))
    requires AllocatorReady(NetworkFor(s, key, subnet, reserved))
  {
    var n := NetworkFor(s, key, subnet, reserved);
    var holds := Tick(s.holds, now);
    match Assign(n, Held(holds, n.group), q.requested, q.deviceId, q.allowChange)
    case Err(e) => (Err(e), State(s.networks[key := n], holds))
    case Ok(ip) =>
      (Ok(ip), State(s.networks[key := Settle(n, ip, q, now)], holds - Released(key, n, ip, q.deviceId)))
  }

  /** The holds a successful registration lifts: on the address given and on the one vacated. */
  function Released(key: string, n: Info, ip: uint32, deviceId: string): set<HoldKey> {
    var former := FindIP(n, deviceId);
    if former == 0 then {(key, ip)} else {(key, former), (key, ip)}
  }

  // Taking clients offline: a closed connection, or a failed authorisation check.

  function Leaving(n: Info, addr: string): set<uint32> {
    set ip | ip in n.clients && n.clients[ip].address == addr && n.clients[ip].online
  }

  function Stale(n: Info, authGroup: string, deviceId: string): set<uint32> {
    set ip | ip in n.clients && n.clients[ip].deviceId == deviceId && AuthGroup(n.clients[ip], n.group) == authGroup &&
             (n.clients[ip].online || n.clients[ip].hasStatus || n.clients[ip].reachable)
  }

  function OfflineClients(clients: map<uint32, Client>, gone: set<uint32>, now: int): map<uint32, Client> {
    map ip | ip in clients :: if ip in gone then TakenOffline(clients[ip], now) else clients[ip]
  }

  function Offline(n: Info, gone: set<uint32>, now: int): Info {
    n.(clients := OfflineClients(n.clients, gone, now),
       epoch := if gone == {} then n.epoch else n.epoch + 1)
  }

  function OfflineAll(networks: map<string, Info>, gone: map<string, set<uint32>>, now: int): map<string, Info>
    requires gone.Keys == networks.Keys
  {
    map k | k in networks :: Offline(networks[k], gone[k], now)
  }

  /** Takes the selected clients of every network offline and puts a hold on their addresses. */
  function TakeOffline(s: State, gone: map<string, set<uint32>>, now: int): State
    requires gone.Keys == s.networks.Keys
  {
    State(OfflineAll(s.networks, gone, now), Tick(s.holds, now) + NewHolds(HoldKeys(gone, {}), now))
  }

  function NewHolds(keys: set<HoldKey>, now: int): Holds {
    map k | k in keys :: ((), now + HOLD_TTL)
  }

  /** The selected addresses of all networks but those still in `todo`. */
  function HoldKeys(gone: map<string, set<uint32>>, todo: set<string>): (r: set<HoldKey>)
    ensures forall x :: x in r <==> x.0 in gone && x.0 !in todo && x.1 in gone[x.0]
  {
    set k, ip | k in gone && k !in todo && ip in gone[k] :: (k, ip)
  }

  function Leave(s: State, addr: string, now: int): State {
    TakeOffline(s, AllLeaving(s.networks, addr), now)
  }

  function AllLeaving(networks: map<string, Info>, addr: string): map<string, set<uint32>> {
    map k | k in networks :: Leaving(networks[k], addr)
  }

  function ClearStale(s: State, authGroup: string, deviceId: string, now: int): State {
    TakeOffline(s, AllStale(s.networks, authGroup, deviceId), now)
  }

  function AllStale(networks: map<string, Info>, authGroup: string, deviceId: string): map<string, set<uint32>> {
    map k | k in networks :: Stale(networks[k], authGroup, deviceId)
  }

  // Deleting and renaming devices.

  function Doomed(n: Info, devices: set<string>): set<uint32> {
    set ip | ip in n.clients && AuthKey(AuthGroup(n.clients[ip], n.group), n.clients[ip].deviceId) in devices
  }

  function WithoutClients(n: Info, gone: set<uint32>): Info {
    n.(clients := n.clients - gone, byDevice := map d | d in n.byDevice && n.byDevice[d] !in gone :: n.byDevice[d])
  }

  function Expel(n: Info, gone: set<uint32>): Info {
    WithoutClients(n, gone).(epoch := if gone == {} then n.epoch else n.epoch + 1)
  }

  /** Removes the selected clients of every network, with their holds. */
  function ExpelAll(s: State, gone: map<string, set<uint32>>, now: int): State
    requires gone.Keys == s.networks.Keys
  {
    State(Expelled(s.networks, gone), Tick(s.holds, now) - HoldKeys(gone, {}))
  }

  function Expelled(networks: map<string, Info>, gone: map<string, set<uint32>>): map<string, Info>
    requires gone.Keys == networks.Keys
  {
    map k | k in networks :: Expel(networks[k], gone[k])
  }

  function RemoveDevices(s: State, devices: set<string>, now: int): State {
    ExpelAll(s, AllDoomed(s.networks, devices), now)
  }

  function AllDoomed(networks: map<string, Info>, devices: set<string>): map<string, set<uint32>> {
    map k | k in networks :: Doomed(networks[k], devices)
  }

  function ToRename(n: Info, authGroup: string, deviceId: string, name: string): set<uint32> {
    set ip | ip in n.clients && n.clients[ip].deviceId == deviceId && AuthGroup(n.clients[ip], n.group) == authGroup &&
             n.clients[ip].name != name
  }

  function RenamedClients(clients: map<uint32, Client>, ips: set<uint32>, name: string): map<uint32, Client> {
    map ip | ip in clients :: if ip in ips then clients[ip].(name := name) else clients[ip]
  }

  function Renamed(n: Info, ips: set<uint32>, name: string): Info {
    n.(clients := RenamedClients(n.clients, ips, name), epoch := if ips == {} then n.epoch else n.epoch + 1)
  }

  function RenameDevice(s: State, authGroup: string, deviceId: string, name: string, now: int): State {
    State(map k | k in s.networks :: Renamed(s.networks[k], ToRename(s.networks[k], authGroup, deviceId, name), name),
          Tick(s.holds, now))
  }

  // Signs of life from a registered client: a ping, or a status report.

  function Touch(s: State, key: string, ip: uint32, now: int): State {
    var holds := Tick(s.holds, now);
    if key in s.networks && ip in s.networks[key].clients then
      var c := s.networks[key].clients[ip].(online := true, lastSeen := now / SECOND);
      State(s.networks[key := Upsert(s.networks[key], ip, c)], holds)
    else s.(holds := holds)
  }

  function Report(s: State, key: string, ip: uint32, reachable: bool, now: int): State {
    var holds := Tick(s.holds, now);
    if key in s.networks && ip in s.networks[key].clients then
      var c := s.networks[key].clients[ip].(online := true, lastSeen := now / SECOND, reachable := reachable,
                                            hasStatus := true);
      State(s.networks[key := Upsert(s.networks[key], ip, c)], holds)
    else s.(holds := holds)
  }

  datatype Op =
    | DoJoin(key: string, subnet: ValidNet, reserved: set<uint32>, q: JoinRequest)
    | DoLeave(addr: string)
    | DoClearStale(authGroup: string, deviceId: string)
    | DoRemove(devices: set<string>)
    | DoRename(authGroup: string, deviceId: string, name: string)
    | DoTouch(key: string, ip: uint32)
    | DoReport(key: string, ip: uint32, reachable: bool)

  /** Registrations name a device. */
  ghost predicate Sensible(op: Op) {
    op.DoJoin? ==> op.q.deviceId != ""
  }

  ghost function Step(s: State, op: Op, now: int): State
    requires op.DoJoin? ==> AllocatorReady(NetworkFor(s, op.key, op.subnet, op.reserved))
  {
    match op
    case DoJoin(key, subnet, reserved, q) => Join(s, key, subnet, reserved, q, now).1
    case DoLeave(addr) => Leave(s, addr, now)
    case DoClearStale(authGroup, deviceId) => ClearStale(s, authGroup, deviceId, now)
    case DoRemove(devices) => RemoveDevices(s, devices, now)
    case DoRename(authGroup, deviceId, name) => RenameDevice(s, authGroup, deviceId, name, now)
    case DoTouch(key, ip) => Touch(s, key, ip, now)
    case DoReport(key, ip, reachable) => Report(s, key, ip, reachable, now)
  }

  // ------------------------------------------------------------- the invariant

  ghost predicate HasClient(networks: map<string, Info>, group: string, ip: uint32) {
    group in networks && ip in networks[group].clients
  }

  /** No hold outlives the client record it was made for. */
  ghost predicate NoLeak(networks: map<string, Info>, holds: Holds) {
    forall k :: k in holds ==> HasClient(networks, k.0, k.1)
  }

  ghost predicate GoodNet(k: string, n: Info) {
    n.group == k && WellFormed(n)
  }

  ghost predicate GoodNets(networks: map<string, Info>) {
    forall k :: k in networks ==> GoodNet(k, networks[k])
  }

  ghost predicate Good(s: State) {
    GoodNets(s.networks) && NoLeak(s.networks, s.holds)
  }

  lemma ReadyToJoin(s: State, key: string, subnet: ValidNet, reserved: set<uint32>)
    requires Good(s)
    ensures var n := NetworkFor(s, key, subnet, reserved);
      WellFormed(n) && n.group == key && AllocatorReady(n)
  {
    RequestAgreesWithRange(NetworkFor(s, key, subnet, reserved).subnet, 0);
  }

  lemma MakeRoomFacts(n: Info, ip: uint32, deviceId: string)
    requires Inverse(n) && deviceId != "" && 0 !in n.clients
    ensures var m := MakeRoom(n, ip, deviceId);
      && Inverse(m)
      && (deviceId in m.byDevice ==> m.byDevice[deviceId] == ip)
      && (ip in m.clients ==> m.clients[ip].deviceId == deviceId)
      && m == n.(clients := m.clients, byDevice := m.byDevice)
  {
    var n1 := if ip in n.clients && n.clients[ip].deviceId != deviceId then Remove(n, ip) else n;
    RemoveInverse(n, ip);
    RemoveInverse(n1, FindIP(n, deviceId));
  }

  lemma MakeRoomClients(n: Info, ip: uint32, deviceId: string)
    requires Inverse(n) && deviceId != "" && 0 !in n.clients
    ensures forall j :: j != ip ==>
      (j in MakeRoom(n, ip, deviceId).clients <==> j in n.clients && j != FindIP(n, deviceId))
    ensures forall j :: j in MakeRoom(n, ip, deviceId).clients ==>
      j in n.clients && MakeRoom(n, ip, deviceId).clients[j] == n.clients[j]
  {
  }

  /** Settling keeps the index exact and changes only the device's own two addresses. */
  lemma SettleInverse(n: Info, ip: uint32, q: JoinRequest, now: int)
    requires Inverse(n) && q.deviceId != "" && 0 !in n.clients
    ensures Inverse(Settle(n, ip, q, now))
    ensures var n' := Settle(n, ip, q, now);
      n' == n.(clients := n'.clients, byDevice := n'.byDevice, epoch := n.epoch + 1)
  {
    MakeRoomFacts(n, ip, q.deviceId);
    var m := MakeRoom(n, ip, q.deviceId);
    var c := if ip in m.clients then m.clients[ip] else NO_CLIENT;
    UpsertInverse(m, ip, Joined(c, n.group, ip, q, now));
  }

  lemma SettleClients(n: Info, ip: uint32, q: JoinRequest, now: int)
    requires Inverse(n) && q.deviceId != "" && 0 !in n.clients
    ensures var n' := Settle(n, ip, q, now);
      && ip in n'.clients && n'.clients[ip].deviceId == q.deviceId && n'.clients[ip].online
      && (forall j :: j != ip ==> (j in n'.clients <==> j in n.clients && j != FindIP(n, q.deviceId)))
      && (forall j :: j in n'.clients && j != ip ==> n'.clients[j] == n.clients[j])
  {
    MakeRoomClients(n, ip, q.deviceId);
  }

  lemma ZeroNeverHeld(n: Info)
    requires WellPlaced(n)
    ensures 0 !in n.clients
  {
    RequestAgreesWithRange(n.subnet, 0);
  }

  lemma SettleWellFormed(n: Info, held: set<uint32>, q: JoinRequest, now: int)
    requires WellFormed(n) && q.deviceId != ""
    ensures AllocatorReady(n)
    ensures var r := Assign(n, held, q.requested, q.deviceId, q.allowChange);
      r.Ok? ==> WellFormed(Settle(n, r.value, q, now)) && Settle(n, r.value, q, now).group == n.group
  {
    AssignSafe(n, held, q.requested, q.deviceId, q.allowChange);
    ZeroNeverHeld(n);
    var r := Assign(n, held, q.requested, q.deviceId, q.allowChange);
    if r.Ok? {
      SettleInverse(n, r.value, q, now);
      SettleClients(n, r.value, q, now);
    }
  }
}
