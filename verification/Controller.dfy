/** Accounts and networks together (control/registration.go, control/controller_user.go): registering a
    device, deleting and renaming it, and the promise that no client outlives its authorisation. */
module Controller {
  import opened Text
  import opened Identity
  import opened Names
  import A = Accounts
  import R = AccountsRuns
  import D = Domains
  import N = Network
  import NR = NetworkRuns
  import Subnet

  datatype State = State(accounts: A.State, nets: N.State)

  datatype Registration = Registration(token: string, device: string, pubKey: A.Blob, kxPub: A.Blob, name: string,
                                       requested: uint32, allowChange: bool, address: string, addressParses: bool)

  datatype Failure =
    | Malformed | UnknownGroup | NotAuthorised(why: A.Error) | NoName(error: A.Error) | BadAddress
    | NoAddress(cause: N.AssignError)

  function Request(r: Registration, record: Record): N.JoinRequest {
    N.JoinRequest(r.device, Trim(record.name), record.user, r.token, r.requested, r.allowChange, r.address)
  }

  ghost predicate Ready(s: State) {
    N.GoodNets(s.nets.networks)
  }

  /** Names of one to 128 bytes, a device key, and a key-exchange key of 32 bytes. */
  predicate Acceptable(r: Registration) {
    && r.token != "" && A.Utf8Length(r.token) <= 128 && r.device != "" && A.Utf8Length(r.device) <= 128
    && r.name != "" && A.Utf8Length(r.name) <= 128 && r.pubKey != [] && |r.kxPub| == 32
  }

  /** A registration is let through: the device is known under the token, with the key it proved. */
  predicate Admitted(s: State, env: R.Env, r: Registration, now: int) {
    A.CheckDevice(s.accounts, env.digest, r.token, r.device, r.pubKey, now) == None
  }

  /** A registration: the token must name a configured group, the device must be authorised (or loses its live
      state), gets a name if it has none, and then an address in the network of its user and group. */
  ghost function Register(s: State, env: R.Env, r: Registration, cfg: D.Config, saved: bool, now: int)
    : (Result<uint32, Failure>, State)
    requires DigitsUnfolded(env.fold) && Ready(s)
  {
    var group := D.Resolve(cfg, r.token);
    if !Acceptable(r) then (Err(Malformed), s)
    else if group == None then (Err(UnknownGroup), s)
    else
      var check := A.CheckDevice(s.accounts, env.digest, r.token, r.device, r.pubKey, now);
      if check.Some? then (Err(NotAuthorised(check.value)), s.(nets := N.ClearStale(s.nets, r.token, r.device, now)))
      else
        var key := AuthKey(r.token, r.device);
        var named := if Trim(s.accounts.authed[key].name) == ""
                     then A.AssignName(s.accounts, env.fold, r.token, r.device, Trim(r.name), saved)
                       else (None, s.accounts);
        var s1 := s.(accounts := named.1);
        if named.0.Some? then (Err(NoName(named.0.value)), s1)
        else if !r.addressParses then (Err(BadAddress), s1)
        else
          AssignKeeps(s.accounts, env, r.token, r.device, Trim(r.name), saved);
          var record := named.1.authed[key];
          JoinReady(s.nets, NetworkKey(r.token, record.user), group.value);
          var j := N.Join(s.nets, NetworkKey(r.token, record.user), group.value.subnet, group.value.reserved,
                          Request(r, record), now);
          (if j.0.Ok? then Ok(j.0.value) else Err(NoAddress(j.0.error)), s1.(nets := j.1))
  }

  lemma JoinReady(s: N.State, key: string, g: D.Group)
    requires N.GoodNets(s.networks)
    ensures N.AllocatorReady(N.NetworkFor(s, key, g.subnet, g.reserved))
  {
    Subnet.RequestAgreesWithRange(N.NetworkFor(s, key, g.subnet, g.reserved).subnet, 0);
  }

  /** Naming a device keeps every record, and the group, user and device in it. */
  lemma AssignKeeps(s: A.State, env: R.Env, group: string, device: string, name: string, saved: bool)
    requires DigitsUnfolded(env.fold)
    ensures var s' := A.AssignName(s, env.fold, group, device, name, saved).1;
      && s'.authed.Keys == s.authed.Keys && s' == s.(authed := s'.authed)
      && forall k :: k in s.authed ==> s'.authed[k] == s.authed[k].(name := s'.authed[k].name)
  {
  }

  /** Deletion: only when the change could be saved do the device's clients go too. */
  function Delete(s: State, user: string, group: string, device: string, saved: bool, now: int)
    : (Option<A.Error>, State)
  {
    var d := A.DeleteDevice(s.accounts, user, group, device, saved);
    match d.0
    case Err(e) => (Some(e), s.(accounts := d.1))
    case Ok(keys) => (None, State(d.1, N.RemoveDevices(s.nets, keys, now)))
  }

  ghost function Rename(s: State, env: R.Env, user: string, group: string, device: string, name: string, saved: bool,
                        now: int)
    : (Option<A.Error>, State)
  {
    var r := A.RenameDevice(s.accounts, env.fold, user, group, device, name, saved);
    if r.0.Some? then (r.0, s.(accounts := r.1))
    else
      var key :| key in A.Select(s.accounts, user, group, device).value;
      var record := r.1.authed[key];
      (None, State(r.1, N.RenameDevice(s.nets, record.group, record.device, Trim(record.name), now)))
  }

  // ------------------------------------------------------------------- authorised

  ghost predicate NetAuthorised(n: N.Info, keys: set<string>) {
    forall ip :: ip in n.clients ==> AuthKey(N.AuthGroup(n.clients[ip], n.group), n.clients[ip].deviceId) in keys
  }

  /** Every registered client still has the record that let it in. */
  ghost predicate Authorised(nets: map<string, N.Info>, keys: set<string>) {
    forall k :: k in nets ==> NetAuthorised(nets[k], keys)
  }

  /** What accounts and networks keep, each on its own. */
  ghost predicate Sound(s: State) {
    R.Good(s.accounts) && N.Good(s.nets)
  }

  ghost predicate Safe(s: State) {
    Sound(s) && Authorised(s.nets.networks, s.accounts.authed.Keys)
  }

  /** The clients of `n'` were clients of `n` already, of the same device and group. */
  ghost predicate ClientsFrom(n: N.Info, n': N.Info) {
    n'.group == n.group &&
    forall ip :: ip in n'.clients ==>
      ip in n.clients && n'.clients[ip].deviceId == n.clients[ip].deviceId &&
        n'.clients[ip].authGroup == n.clients[ip].authGroup
  }

  lemma SameClientsAuthorised(n: N.Info, n': N.Info, keys: set<string>)
    requires NetAuthorised(n, keys) && ClientsFrom(n, n')
    ensures NetAuthorised(n', keys)
  {
    hide AuthKey, Trim;
  }

  ghost predicate AllFrom(nets: map<string, N.Info>, nets': map<string, N.Info>) {
    forall k :: k in nets' ==> k in nets && ClientsFrom(nets[k], nets'[k])
  }

  lemma AllFromAuthorised(nets: map<string, N.Info>, nets': map<string, N.Info>, keys: set<string>)
    requires Authorised(nets, keys) && AllFrom(nets, nets')
    ensures Authorised(nets', keys)
  {
    hide NetAuthorised, ClientsFrom;
    forall k | k in nets' ensures NetAuthorised(nets'[k], keys) { SameClientsAuthorised(nets[k], nets'[k], keys); }
  }

  lemma TakeOfflineFrom(s: N.State, gone: map<string, set<uint32>>, now: int)
    requires gone.Keys == s.networks.Keys
    ensures AllFrom(s.networks, N.TakeOffline(s, gone, now).networks)
  {
  }

  lemma RenameFrom(s: N.State, group: string, device: string, name: string, now: int)
    ensures AllFrom(s.networks, N.RenameDevice(s, group, device, name, now).networks)
  {
    hide N.ToRename;
  }

  lemma RewriteFrom(s: N.State, key: string, ip: uint32, c: N.Client)
    requires key in s.networks && ip in s.networks[key].clients
    requires c.deviceId == s.networks[key].clients[ip].deviceId && c.authGroup == s.networks[key].clients[ip].authGroup
    ensures AllFrom(s.networks, s.networks[key := N.Upsert(s.networks[key], ip, c)])
  {
  }

  /** The steps of the networks that admit nobody. */
  lemma QuietAuthorised(s: N.State, op: N.Op, now: int, keys: set<string>)
    requires Authorised(s.networks, keys) && !op.DoJoin? && !op.DoRemove?
    ensures Authorised(N.Step(s, op, now).networks, keys)
  {
    hide N.Upsert, N.OfflineAll, N.Renamed;
    hide Authorised;
    match op
    case DoLeave(addr) =>
      TakeOfflineFrom(s, N.AllLeaving(s.networks, addr), now);
      AllFromAuthorised(s.networks, N.Step(s, op, now).networks, keys);
    case DoClearStale(g, d) =>
      TakeOfflineFrom(s, N.AllStale(s.networks, g, d), now);
      AllFromAuthorised(s.networks, N.Step(s, op, now).networks, keys);
    case DoRename(g, d, name) =>
      RenameFrom(s, g, d, name, now);
      AllFromAuthorised(s.networks, N.Step(s, op, now).networks, keys);
    case DoTouch(key, ip) =>
      if key in s.networks && ip in s.networks[key].clients {
        RewriteFrom(s, key, ip, s.networks[key].clients[ip].(online := true, lastSeen := now / N.SECOND));
        AllFromAuthorised(s.networks, N.Step(s, op, now).networks, keys);
      }
    case DoReport(key, ip, reachable) =>
      if key in s.networks && ip in s.networks[key].clients {
        RewriteFrom(s, key, ip, s.networks[key].clients[ip].(online := true, lastSeen := now / N.SECOND,
                                                             reachable := reachable, hasStatus := true));
        AllFromAuthorised(s.networks, N.Step(s, op, now).networks, keys);
      }
  }

  // ------------------------------------------------------------------- deletion

  lemma ExpelledAuthorised(n: N.Info, gone: set<string>, keys: set<string>)
    requires NetAuthorised(n, keys)
    ensures NetAuthorised(N.Expel(n, N.Doomed(n, gone)), keys - gone)
  {
    hide AuthKey, N.AuthGroup;
  }

  lemma RemoveAuthorised(s: N.State, gone: set<string>, now: int, keys: set<string>)
    requires Authorised(s.networks, keys)
    ensures Authorised(N.RemoveDevices(s, gone, now).networks, keys - gone)
  {
    hide NetAuthorised, N.Expel, N.Doomed;
    var nets := N.RemoveDevices(s, gone, now).networks;
    forall k | k in nets ensures NetAuthorised(nets[k], keys - gone) { ExpelledAuthorised(s.networks[k], gone, keys); }
  }

  /** Some client is registered under one of the keys. */
  ghost predicate InUse(nets: map<string, N.Info>, keys: set<string>) {
    exists k, ip :: k in nets && ip in nets[k].clients && ClientKey(nets[k], ip) in keys
  }

  function ClientKey(n: N.Info, ip: uint32): string
    requires ip in n.clients
  {
    AuthKey(N.AuthGroup(n.clients[ip], n.group), n.clients[ip].deviceId)
  }

  /** A deletion leaves every client authorised exactly when it was saved, or failed to match, or the
      records it dropped let nobody in: when saving fails the records are gone and the clients are not. */
  lemma DeleteAuthorised(s: State, user: string, group: string, device: string, saved: bool, now: int)
    requires Authorised(s.nets.networks, s.accounts.authed.Keys)
    ensures var s' := Delete(s, user, group, device, saved, now).1;
      var match_ := A.Select(s.accounts, user, group, device);
      Authorised(s'.nets.networks, s'.accounts.authed.Keys) <==>
        saved || match_.Err? || !InUse(s.nets.networks, match_.value)
  {
    hide A.Select, AuthKey, N.AuthGroup;
    var selected := A.Select(s.accounts, user, group, device);
    if selected.Ok? {
      var keys := s.accounts.authed.Keys;
      assert (s.accounts.authed - selected.value).Keys == keys - selected.value;
      if saved {
        RemoveAuthorised(s.nets, selected.value, now, keys);
      } else {
        DroppedKeys(s.nets.networks, keys, selected.value);
      }
    }
  }

  lemma DroppedKeys(nets: map<string, N.Info>, keys: set<string>, gone: set<string>)
    requires Authorised(nets, keys)
    ensures Authorised(nets, keys - gone) <==> !InUse(nets, gone)
  {
    hide AuthKey, N.AuthGroup;
    if !InUse(nets, gone) {
      forall k | k in nets ensures NetAuthorised(nets[k], keys - gone) {
        forall ip | ip in nets[k].clients
          ensures ClientKey(nets[k], ip) in keys - gone { assert NetAuthorised(nets[k], keys); }
      }
    }
    if Authorised(nets, keys - gone) {
      forall k, ip | k in nets && ip in nets[k].clients
        ensures ClientKey(nets[k], ip) !in gone { assert NetAuthorised(nets[k], keys - gone); }
    }
  }

  // ----------------------------------------------------------------- registration

  lemma SettleAuthorised(n: N.Info, ip: uint32, q: N.JoinRequest, now: int, keys: set<string>)
    requires NetAuthorised(n, keys) && N.WellFormed(n) && q.deviceId != ""
    requires IsTrimmed(q.authGroup) && q.authGroup != "" && AuthKey(q.authGroup, q.deviceId) in keys
    ensures NetAuthorised(N.Settle(n, ip, q, now), keys)
  {
    N.ZeroNeverHeld(n);
    N.SettleClients(n, ip, q, now);
    N.SettleInverse(n, ip, q, now);
    TrimSound(q.authGroup);
    SettledRecord(n, ip, q, now);
    hide N.Settle, N.WellFormed, AuthKey, Trim;
  }

  lemma SettledRecord(n: N.Info, ip: uint32, q: N.JoinRequest, now: int)
    ensures ip in N.Settle(n, ip, q, now).clients
    ensures N.Settle(n, ip, q, now).clients[ip].authGroup == q.authGroup &&
      N.Settle(n, ip, q, now).clients[ip].deviceId == q.deviceId
  {
  }

  lemma JoinAuthorised(s: N.State, key: string, subnet: Subnet.ValidNet, reserved: set<uint32>, q: N.JoinRequest,
                       now: int, keys: set<string>)
    requires N.Good(s) && Authorised(s.networks, keys) && q.deviceId != ""
    requires IsTrimmed(q.authGroup) && q.authGroup != "" && AuthKey(q.authGroup, q.deviceId) in keys
    ensures N.AllocatorReady(N.NetworkFor(s, key, subnet, reserved))
    ensures Authorised(N.Join(s, key, subnet, reserved, q, now).1.networks, keys)
  {
    N.ReadyToJoin(s, key, subnet, reserved);
    var n := N.NetworkFor(s, key, subnet, reserved);
    assert NetAuthorised(n, keys);
    var r := N.Assign(n, N.Held(N.Tick(s.holds, now), n.group), q.requested, q.deviceId, q.allowChange);
    if r.Ok? { SettleAuthorised(n, r.value, q, now, keys); }
    hide N.Settle, NetAuthorised, N.Assign, N.Good;
  }

  /** A token that passes the check begins like the group of a record, so not with a space: it is trimmed as
      soon as it does not end in one, whatever bars its key may hold. */
  lemma TokenTrimmed(s: A.State, env: R.Env, token: string, device: string, pubKey: A.Blob, now: int)
    requires R.Good(s) && token != "" && !IsSpace(token[|token| - 1])
    requires A.CheckDevice(s, env.digest, token, device, pubKey, now) == None
    ensures IsTrimmed(token)
  {
    var key := AuthKey(token, device);
    var r := s.authed[key];
    assert key == AuthKey(r.group, r.device) && key[0] == token[0] && key[0] == r.group[0];
  }

  /** A registration keeps every client authorised. */
  lemma RegisterSafe(s: State, env: R.Env, r: Registration, cfg: D.Config, saved: bool, now: int)
    requires DigitsUnfolded(env.fold) && Safe(s) && D.Valid(cfg)
    ensures Safe(Register(s, env, r, cfg, saved, now).1)
  {
    hide A.CheckDevice, N.ClearStale, N.Join, A.AssignName, R.Good, N.Good, Authorised, D.Resolve, D.Valid, IsTrimmed,
         A.Utf8Length;
    RefusedSafe(s, env, r, cfg, saved, now);
    if Admitted(s, env, r, now) && D.Resolve(cfg, r.token).Some? && Acceptable(r) {
      D.ResolvedEndsInLetter(cfg, r.token);
      TokenTrimmed(s.accounts, env, r.token, r.device, r.pubKey, now);
      AdmittedSafe(s, env, r, cfg, saved, now);
    }
  }

  lemma RefusedSafe(s: State, env: R.Env, r: Registration, cfg: D.Config, saved: bool, now: int)
    requires DigitsUnfolded(env.fold) && Safe(s)
    ensures !(Admitted(s, env, r, now) && D.Resolve(cfg, r.token).Some? && Acceptable(r)) ==>
      Safe(Register(s, env, r, cfg, saved, now).1)
  {
    hide N.Good, R.Good, Authorised, DigitsUnfolded, N.ClearStale, A.CheckDevice, D.Resolve, Acceptable;
    ClearStaleSafe(s.nets, r.token, r.device, now, s.accounts.authed.Keys);
  }

  lemma AdmittedSafe(s: State, env: R.Env, r: Registration, cfg: D.Config, saved: bool, now: int)
    requires DigitsUnfolded(env.fold) && Safe(s) && IsTrimmed(r.token) && r.token != "" && r.device != ""
    ensures Safe(Register(s, env, r, cfg, saved, now).1)
  {
    hide N.Good, R.Good, Authorised, DigitsUnfolded, N.ClearStale, A.AssignName, N.Join, IsTrimmed, Trim, D.Resolve,
         Acceptable;
    var group := D.Resolve(cfg, r.token);
    SoundReady(s);
    RegisterSteps(s, env, r, cfg, saved, now);
    var accounts := A.AssignName(s.accounts, env.fold, r.token, r.device, Trim(r.name), saved).1;
    AssignKeeps(s.accounts, env, r.token, r.device, Trim(r.name), saved);
    NamedGood(s.accounts, env, r.token, r.device, Trim(r.name), saved);
    ClearStaleSafe(s.nets, r.token, r.device, now, s.accounts.authed.Keys);
    var key := AuthKey(r.token, r.device);
    if group.Some? && key in s.accounts.authed {
      var g := group.value;
      JoinSafe(s.nets, g, Request(r, s.accounts.authed[key]), NetworkKey(r.token, s.accounts.authed[key].user), now,
               s.accounts.authed.Keys);
      JoinSafe(s.nets, g, Request(r, accounts.authed[key]), NetworkKey(r.token, accounts.authed[key].user), now,
               s.accounts.authed.Keys);
    }
  }

  /** A registration keeps accounts and networks sound, whatever its token. */
  lemma RegisterSound(s: State, env: R.Env, r: Registration, cfg: D.Config, saved: bool, now: int)
    requires DigitsUnfolded(env.fold) && Sound(s)
    ensures Sound(Register(s, env, r, cfg, saved, now).1)
  {
    hide N.Good, R.Good, Register, DigitsUnfolded, N.ClearStale, A.AssignName, N.Join, Trim, AuthKey, NetworkKey,
         D.Resolve;
    var group := D.Resolve(cfg, r.token);
    SoundReady(s);
    RegisterSteps(s, env, r, cfg, saved, now);
    var s' := Register(s, env, r, cfg, saved, now).1;
    NamedGood(s.accounts, env, r.token, r.device, Trim(r.name), saved);
    NR.StepGood(s.nets, N.DoClearStale(r.token, r.device), now);
    var key := AuthKey(r.token, r.device);
    if r.device != "" && group.Some? && key in s'.accounts.authed {
      var record := s'.accounts.authed[key];
      NR.JoinGood(s.nets, NetworkKey(r.token, record.user), group.value.subnet, group.value.reserved,
                  Request(r, record), now);
    }
  }

  lemma SoundReady(s: State)
    requires Sound(s)
    ensures Ready(s)
  {
  }

  /** What a registration can have done to the state. */
  lemma RegisterSteps(s: State, env: R.Env, r: Registration, cfg: D.Config, saved: bool, now: int)
    requires DigitsUnfolded(env.fold) && Ready(s)
    ensures var s', key := Register(s, env, r, cfg, saved, now).1, AuthKey(r.token, r.device);
      var accounts := A.AssignName(s.accounts, env.fold, r.token, r.device, Trim(r.name), saved).1;
      var group := D.Resolve(cfg, r.token);
      && (s'.accounts == s.accounts || s'.accounts == accounts)
      && (s'.nets == s.nets || s'.nets == N.ClearStale(s.nets, r.token, r.device, now) ||
          (r.device != "" && group.Some? && key in s.accounts.authed && key in s'.accounts.authed &&
           Joins(s, s', r, group.value, s'.accounts.authed[key], now)))
  {
    hide N.ClearStale, N.Join, R.Good, N.NoLeak, Authorised, DigitsUnfolded, A.Utf8Length, D.Resolve;
    var group := D.Resolve(cfg, r.token);
    AssignKeeps(s.accounts, env, r.token, r.device, Trim(r.name), saved);
    var key := AuthKey(r.token, r.device);
    if group.Some? && key in s.accounts.authed {
      var record := Register(s, env, r, cfg, saved, now).1.accounts.authed[key];
      JoinReady(s.nets, NetworkKey(r.token, record.user), group.value);
    }
  }

  ghost predicate Joins(s: State, s': State, r: Registration, g: D.Group, record: Record, now: int) {
    && N.AllocatorReady(N.NetworkFor(s.nets, NetworkKey(r.token, record.user), g.subnet, g.reserved))
    && s'.nets == N.Join(s.nets, NetworkKey(r.token, record.user), g.subnet, g.reserved, Request(r, record), now).1
  }

  lemma NamedGood(s: A.State, env: R.Env, group: string, device: string, name: string, saved: bool)
    requires DigitsUnfolded(env.fold) && R.Good(s)
    ensures R.Good(A.AssignName(s, env.fold, group, device, name, saved).1)
  {
    R.AdminGood(env, s, R.DoAssign(group, device, name, saved), 0);
  }

  lemma ClearStaleSafe(s: N.State, group: string, device: string, now: int, keys: set<string>)
    requires N.Good(s) && Authorised(s.networks, keys)
    ensures N.Good(N.ClearStale(s, group, device, now)) &&
      Authorised(N.ClearStale(s, group, device, now).networks, keys)
  {
    hide N.Good, Authorised, N.ClearStale;
    QuietAuthorised(s, N.DoClearStale(group, device), now, keys);
    NR.StepGood(s, N.DoClearStale(group, device), now);
  }

  lemma JoinSafe(s: N.State, g: D.Group, q: N.JoinRequest, key: string, now: int, keys: set<string>)
    requires N.Good(s) && Authorised(s.networks, keys) && q.deviceId != ""
    requires IsTrimmed(q.authGroup) && q.authGroup != "" && AuthKey(q.authGroup, q.deviceId) in keys
    ensures N.AllocatorReady(N.NetworkFor(s, key, g.subnet, g.reserved))
    ensures N.Good(N.Join(s, key, g.subnet, g.reserved, q, now).1)
    ensures Authorised(N.Join(s, key, g.subnet, g.reserved, q, now).1.networks, keys)
  {
    hide N.Good, Authorised, N.Join;
    JoinAuthorised(s, key, g.subnet, g.reserved, q, now, keys);
    NR.JoinGood(s, key, g.subnet, g.reserved, q, now);
  }

  lemma JoinedKey(s: N.State, g: D.Group, q: N.JoinRequest, key: string, now: int, ip: uint32)
    requires N.Good(s) && q.deviceId != "" && IsTrimmed(q.authGroup) && q.authGroup != ""
    requires N.AllocatorReady(N.NetworkFor(s, key, g.subnet, g.reserved))
    requires N.Join(s, key, g.subnet, g.reserved, q, now).0 == Ok(ip)
    ensures var nets := N.Join(s, key, g.subnet, g.reserved, q, now).1.networks;
      key in nets && ip in nets[key].clients && ClientKey(nets[key], ip) == AuthKey(q.authGroup, q.deviceId)
  {
    var n := N.NetworkFor(s, key, g.subnet, g.reserved);
    N.ReadyToJoin(s, key, g.subnet, g.reserved);
    SettledRecord(n, ip, q, now);
    TrimSound(q.authGroup);
    hide N.Settle, AuthKey, Trim, N.Assign;
  }

  /** The deletion of a device that has just registered strands its client whenever it cannot be saved. */
  lemma FailedDeleteStrands(s: State, env: R.Env, r: Registration, cfg: D.Config, saved: bool, now: int, user: string)
    requires DigitsUnfolded(env.fold) && Safe(s) && D.Valid(cfg)
    requires Register(s, env, r, cfg, saved, now).0.Ok?
    requires A.Select(Register(s, env, r, cfg, saved, now).1.accounts, user, r.token, r.device) ==
      Ok({AuthKey(r.token, r.device)})
    ensures var s' := Delete(Register(s, env, r, cfg, saved, now).1, user, r.token, r.device, false, now).1;
      !Authorised(s'.nets.networks, s'.accounts.authed.Keys)
  {
    RegisterSafe(s, env, r, cfg, saved, now);
    var s1 := Register(s, env, r, cfg, saved, now).1;
    var key, ip := RegisteredAt(s, env, r, cfg, saved, now);
    hide Register, Authorised, R.Good, N.Good, Delete, A.Select, D.Resolve;
    assert ClientKey(s1.nets.networks[key], ip) in {AuthKey(r.token, r.device)};
    DeleteAuthorised(s1, user, r.token, r.device, false, now);
  }

  /** A successful registration leaves a client under the key of its record. */
  lemma RegisteredAt(s: State, env: R.Env, r: Registration, cfg: D.Config, saved: bool, now: int)
    returns (key: string, ip: uint32)
    requires DigitsUnfolded(env.fold) && Safe(s) && D.Valid(cfg) && Register(s, env, r, cfg, saved, now).0.Ok?
    ensures var nets := Register(s, env, r, cfg, saved, now).1.nets.networks;
      key in nets && ip in nets[key].clients && ClientKey(nets[key], ip) == AuthKey(r.token, r.device)
  {
    D.ResolvedEndsInLetter(cfg, r.token);
    TokenTrimmed(s.accounts, env, r.token, r.device, r.pubKey, now);
    var s1, g := Register(s, env, r, cfg, saved, now).1, D.Resolve(cfg, r.token).value;
    var record := s1.accounts.authed[AuthKey(r.token, r.device)];
    key, ip := NetworkKey(r.token, record.user), Register(s, env, r, cfg, saved, now).0.value;
    JoinReady(s.nets, key, g);
    assert N.Join(s.nets, key, g.subnet, g.reserved, Request(r, record), now).0 == Ok(ip)
        && s1.nets == N.Join(s.nets, key, g.subnet, g.reserved, Request(r, record), now).1;
    hide Register, N.Join, Authorised, R.Good, D.Resolve, A.CheckDevice;
    JoinedKey(s.nets, g, Request(r, record), key, now, ip);
  }

  // ------------------------------------------------------------------------ runs

  datatype Op =
    | DoAccount(op: R.Op)
    | DoNetwork(step: N.Op)
    | DoRegister(r: Registration, saved: bool)
    | DoDelete(user: string, name: string, device: string, saved: bool)
    | DoRename(user: string, name: string, device: string, displayName: string, saved: bool)

  datatype Timed = Timed(op: Op, now: int)

  ghost function Step(s: State, env: R.Env, cfg: D.Config, op: Op, now: int): State
    requires DigitsUnfolded(env.fold) && Ready(s) && Admissible(s, op)
  {
    match op
    case DoAccount(o) => s.(accounts := R.Step(env, s.accounts, o, now))
    case DoNetwork(o) => s.(nets := N.Step(s.nets, o, now))
    case DoRegister(r, saved) => Register(s, env, r, cfg, saved, now).1
    case DoDelete(user, group, device, saved) => Delete(s, user, group, device, saved, now).1
    case DoRename(user, group, device, name, saved) => Rename(s, env, user, group, device, name, saved, now).1
  }

  /** New tickets have new ids; deleting and renaming go through the controller; connections close, ping and report. */
  ghost predicate Admissible(s: State, op: Op) {
    match op
    case DoAccount(o) => !o.DoDelete? && !o.DoRename? && (o.DoIssue? ==> o.id !in s.accounts.tickets)
    case DoNetwork(o) => o.DoLeave? || o.DoTouch? || o.DoReport?
    case _ => true
  }

  /** A deletion that cannot be saved, of a device with a registered client. */
  ghost predicate Strands(s: State, op: Op) {
    op.DoDelete? && !op.saved && A.Select(s.accounts, op.user, op.name, op.device).Ok? &&
    InUse(s.nets.networks, A.Select(s.accounts, op.user, op.name, op.device).value)
  }

  /** Without deletions records only gain keys. */
  lemma AccountKeysGrow(env: R.Env, s: A.State, op: R.Op, now: int)
    requires DigitsUnfolded(env.fold) && !op.DoDelete?
    ensures s.authed.Keys <= R.Step(env, s, op, now).authed.Keys
  {
    hide Trim, NormalizeGroup, Taken, A.TakenByOther, A.CheckName, UniqueName, A.Matches, AuthKey;
  }

  lemma MoreKeysAuthorised(nets: map<string, N.Info>, keys: set<string>, more: set<string>)
    requires Authorised(nets, keys) && keys <= more
    ensures Authorised(nets, more)
  {
    forall k | k in nets ensures NetAuthorised(nets[k], more) { assert NetAuthorised(nets[k], keys); }
  }

  lemma AccountSound(s: State, env: R.Env, op: R.Op, now: int)
    requires DigitsUnfolded(env.fold) && Sound(s) && (op.DoIssue? ==> op.id !in s.accounts.tickets)
    ensures Sound(s.(accounts := R.Step(env, s.accounts, op, now)))
  {
    hide R.Step, N.Good, R.Good, DigitsUnfolded;
    R.StepGood(env, s.accounts, [], op, now);
  }

  lemma AccountAuthorised(s: State, env: R.Env, op: R.Op, now: int)
    requires DigitsUnfolded(env.fold) && Authorised(s.nets.networks, s.accounts.authed.Keys) && !op.DoDelete?
    ensures Authorised(s.nets.networks, R.Step(env, s.accounts, op, now).authed.Keys)
  {
    hide R.Step, Authorised, DigitsUnfolded;
    AccountKeysGrow(env, s.accounts, op, now);
    MoreKeysAuthorised(s.nets.networks, s.accounts.authed.Keys, R.Step(env, s.accounts, op, now).authed.Keys);
  }

  lemma NetworkSound(s: State, op: N.Op, now: int)
    requires Sound(s) && !op.DoJoin?
    ensures Sound(s.(nets := N.Step(s.nets, op, now)))
  {
    hide N.Step, N.Good, R.Good;
    NR.StepGood(s.nets, op, now);
  }

  lemma NetworkSafe(s: State, op: N.Op, now: int)
    requires Safe(s) && !op.DoJoin? && !op.DoRemove?
    ensures Safe(s.(nets := N.Step(s.nets, op, now)))
  {
    hide N.Step, Sound, Authorised;
    QuietAuthorised(s.nets, op, now, s.accounts.authed.Keys);
    NetworkSound(s, op, now);
  }

  lemma DeleteSound(s: State, user: string, group: string, device: string, saved: bool, now: int)
    requires Sound(s)
    ensures Sound(Delete(s, user, group, device, saved, now).1)
  {
    hide R.Good, N.Good, A.Select, N.RemoveDevices;
    DeletedGood(s.accounts, user, group, device, saved);
    if A.DeleteDevice(s.accounts, user, group, device, saved).0.Ok? {
      NR.RemoveGood(s.nets, A.DeleteDevice(s.accounts, user, group, device, saved).0.value, now);
    }
  }

  lemma DeletedGood(s: A.State, user: string, group: string, device: string, saved: bool)
    requires R.Good(s)
    ensures R.Good(A.DeleteDevice(s, user, group, device, saved).1)
  {
    var env := R.Env(c => c, _ => "");
    R.AdminGood(env, s, R.DoDelete(user, group, device, saved), 0);
  }

  /** A deletion keeps every client authorised exactly when it strands nobody. */
  lemma DeleteSafe(s: State, user: string, group: string, device: string, saved: bool, now: int)
    requires Safe(s)
    ensures Safe(Delete(s, user, group, device, saved, now).1) <==> !Strands(s, DoDelete(user, group, device, saved))
  {
    hide Sound, Authorised, Delete, InUse, A.Select;
    DeleteAuthorised(s, user, group, device, saved, now);
    DeleteSound(s, user, group, device, saved, now);
  }

  /** Renaming is a step of the accounts, followed by one of the networks when it succeeds. */
  lemma RenameSteps(s: State, env: R.Env, user: string, group: string, device: string, name: string, saved: bool,
                    now: int)
    requires DigitsUnfolded(env.fold)
    ensures var s' := Rename(s, env, user, group, device, name, saved, now).1;
      && s'.accounts == R.Step(env, s.accounts, R.DoRename(user, group, device, name, saved), now)
      && (s'.nets == s.nets || exists g, d, n :: RenamesTo(s, s', g, d, n, now))
  {
    hide A.Select, A.CheckName, Taken, Trim, N.RenameDevice, DigitsUnfolded;
    var op := R.DoRename(user, group, device, name, saved);
    AccountKeysGrow(env, s.accounts, op, now);
    SelectedKnown(s.accounts, user, group, device);
    var r := Rename(s, env, user, group, device, name, saved, now);
    if r.0 == None {
      var key :| key in A.Select(s.accounts, user, group, device).value && r.1.nets ==
        N.RenameDevice(s.nets, r.1.accounts.authed[key].group, r.1.accounts.authed[key].device,
                       Trim(r.1.accounts.authed[key].name), now);
      var record := r.1.accounts.authed[key];
      assert RenamesTo(s, r.1, record.group, record.device, Trim(record.name), now);
    }
  }

  ghost predicate RenamesTo(s: State, s': State, group: string, device: string, name: string, now: int) {
    s'.nets == N.Step(s.nets, N.DoRename(group, device, name), now)
  }

  lemma SelectedKnown(s: A.State, user: string, group: string, device: string)
    ensures A.Select(s, user, group, device).Ok? ==> A.Select(s, user, group, device).value <= s.authed.Keys
  {
  }

  lemma RenameSafe(s: State, env: R.Env, user: string, group: string, device: string, name: string, saved: bool,
                   now: int)
    requires DigitsUnfolded(env.fold) && Sound(s)
    ensures var s' := Rename(s, env, user, group, device, name, saved, now).1; Sound(s') && (Safe(s) ==> Safe(s'))
  {
    RenameSteps(s, env, user, group, device, name, saved, now);
    hide Sound, Authorised, DigitsUnfolded, Rename, R.Step, N.Step;
    var op := R.DoRename(user, group, device, name, saved);
    AccountSound(s, env, op, now);
    if Safe(s) { AccountAuthorised(s, env, op, now); }
    var s', s1 := Rename(s, env, user, group, device, name, saved, now).1,
      s.(accounts := R.Step(env, s.accounts, op, now));
    if s'.nets == s.nets {
      assert s' == s1;
    } else {
      var g, d, n :| RenamesTo(s, s', g, d, n, now);
      assert s' == s1.(nets := N.Step(s1.nets, N.DoRename(g, d, n), now));
      NetworkSound(s1, N.DoRename(g, d, n), now);
      if Safe(s) { NetworkSafe(s1, N.DoRename(g, d, n), now); }
    }
  }

  lemma StepSound(s: State, env: R.Env, cfg: D.Config, op: Op, now: int)
    requires DigitsUnfolded(env.fold) && Sound(s) && Admissible(s, op)
    ensures Ready(s) && Sound(Step(s, env, cfg, op, now))
  {
    SoundReady(s);
    hide Sound, Ready, Register, Delete, Rename, R.Step, N.Step, DigitsUnfolded;
    match op
    case DoAccount(o) => AccountSound(s, env, o, now);
    case DoNetwork(o) => NetworkSound(s, o, now);
    case DoRegister(r, saved) => RegisterSound(s, env, r, cfg, saved, now);
    case DoDelete(user, group, device, saved) => DeleteSound(s, user, group, device, saved, now);
    case DoRename(user, group, device, name, saved) => RenameSafe(s, env, user, group, device, name, saved, now);
  }

  /** Every step: all clients stay authorised exactly when it strands none. */
  lemma StepSafe(s: State, env: R.Env, cfg: D.Config, op: Op, now: int)
    requires DigitsUnfolded(env.fold) && D.Valid(cfg) && Safe(s) && Admissible(s, op)
    ensures Ready(s) && (Safe(Step(s, env, cfg, op, now)) <==> !Strands(s, op))
  {
    hide Sound, Ready, Authorised, Register, Delete, Rename, R.Step, N.Step, DigitsUnfolded, D.Valid, InUse, A.Select,
         Trim;
    StepSound(s, env, cfg, op, now);
    match op
    case DoAccount(o) => AccountAuthorised(s, env, o, now);
    case DoNetwork(o) => NetworkSafe(s, o, now);
    case DoRegister(r, saved) => RegisterSafe(s, env, r, cfg, saved, now);
    case DoDelete(user, group, device, saved) => DeleteSafe(s, user, group, device, saved, now);
    case DoRename(user, group, device, name, saved) => RenameSafe(s, env, user, group, device, name, saved, now);
  }

  ghost predicate AdmissibleRun(s: State, env: R.Env, cfg: D.Config, steps: seq<Timed>)
    requires DigitsUnfolded(env.fold) && Sound(s)
    decreases |steps|
  {
    steps == [] ||
    (Admissible(s, steps[0].op) &&
     (StepSound(s, env, cfg, steps[0].op, steps[0].now);
      AdmissibleRun(Step(s, env, cfg, steps[0].op, steps[0].now), env, cfg, steps[1..])))
  }

  /** The state after the first `i` steps. */
  ghost function StateAt(s: State, env: R.Env, cfg: D.Config, steps: seq<Timed>, i: nat): (r: State)
    requires DigitsUnfolded(env.fold) && Sound(s) && AdmissibleRun(s, env, cfg, steps) && i <= |steps|
    ensures Sound(r) && (i < |steps| ==> Admissible(r, steps[i].op))
    decreases i
  {
    if i == 0 then s
    else
      StepSound(s, env, cfg, steps[0].op, steps[0].now);
      StateAt(Step(s, env, cfg, steps[0].op, steps[0].now), env, cfg, steps[1..], i - 1)
  }

  ghost predicate StrandsAt(s: State, env: R.Env, cfg: D.Config, steps: seq<Timed>, i: nat)
    requires DigitsUnfolded(env.fold) && Sound(s) && AdmissibleRun(s, env, cfg, steps) && i < |steps|
  {
    Strands(StateAt(s, env, cfg, steps, i), steps[i].op)
  }

  ghost predicate SafeAt(s: State, env: R.Env, cfg: D.Config, steps: seq<Timed>, i: nat)
    requires DigitsUnfolded(env.fold) && Sound(s) && AdmissibleRun(s, env, cfg, steps) && i <= |steps|
  {
    Safe(StateAt(s, env, cfg, steps, i))
  }

  lemma {:induction false} StateNext(s: State, env: R.Env, cfg: D.Config, steps: seq<Timed>, i: nat)
    requires DigitsUnfolded(env.fold) && Sound(s) && AdmissibleRun(s, env, cfg, steps) && i < |steps|
    ensures Ready(StateAt(s, env, cfg, steps, i)) && StateAt(s, env, cfg, steps, i + 1) ==
      Step(StateAt(s, env, cfg, steps, i), env, cfg, steps[i].op, steps[i].now)
    decreases i
  {
    hide Sound, Ready, Admissible, DigitsUnfolded, Step;
    StepSound(s, env, cfg, steps[0].op, steps[0].now);
    if i > 0 {
      StateNext(Step(s, env, cfg, steps[0].op, steps[0].now), env, cfg, steps[1..], i - 1);
    }
  }

  /** No client outlives its authorisation: in every run, up to any point, each client has an authorised record
      exactly when no deletion that cannot be saved has hit a registered client. */
  lemma {:induction false} AuthorisedOverRun(s: State, env: R.Env, cfg: D.Config, steps: seq<Timed>, n: nat)
    requires DigitsUnfolded(env.fold) && D.Valid(cfg) && Safe(s) && AdmissibleRun(s, env, cfg, steps) && n <= |steps|
    ensures (forall i :: 0 <= i <= n ==> SafeAt(s, env, cfg, steps, i)) <==>
            (forall i :: 0 <= i < n ==> !StrandsAt(s, env, cfg, steps, i))
  {
    hide SafeAt, StrandsAt, Sound, Authorised, DigitsUnfolded, D.Valid, AdmissibleRun;
    if n == 0 {
      SafeAtStart(s, env, cfg, steps);
    } else {
      AuthorisedOverRun(s, env, cfg, steps, n - 1);
      if SafeAt(s, env, cfg, steps, n - 1) { SafeNext(s, env, cfg, steps, n - 1); }
    }
  }

  lemma SafeAtStart(s: State, env: R.Env, cfg: D.Config, steps: seq<Timed>)
    requires DigitsUnfolded(env.fold) && Safe(s) && AdmissibleRun(s, env, cfg, steps)
    ensures SafeAt(s, env, cfg, steps, 0)
  {
    hide Sound, Authorised, DigitsUnfolded, AdmissibleRun;
  }

  lemma SafeNext(s: State, env: R.Env, cfg: D.Config, steps: seq<Timed>, i: nat)
    requires DigitsUnfolded(env.fold) && D.Valid(cfg) && Sound(s) && AdmissibleRun(s, env, cfg, steps) && i < |steps|
    requires SafeAt(s, env, cfg, steps, i)
    ensures SafeAt(s, env, cfg, steps, i + 1) <==> !StrandsAt(s, env, cfg, steps, i)
  {
    StateNext(s, env, cfg, steps, i);
    hide Safe, Ready, Sound, DigitsUnfolded, D.Valid, AdmissibleRun, Step, Strands, StateAt, Admissible;
    StepSafe(StateAt(s, env, cfg, steps, i), env, cfg, steps[i].op, steps[i].now);
  }

  lemma StartSafe()
    ensures Safe(State(R.EMPTY, N.State(map[], map[])))
  {
  }
}
