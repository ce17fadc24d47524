/** What a successful registration shows: the device proved the key it presents, and holds a current record. */
module ControllerTraces {
  import opened Text
  import opened Identity
  import opened Names
  import opened Controller
  import A = Accounts
  import R = AccountsRuns
  import T = AccountsTraces
  import U = AccountsUsers
  import N = Network
  import NE = NetworkEffects
  import D = Domains

  // ---------------------------------------------------------------- registering

  /** A registration is let through exactly when the device has a record under the token that is not over and holds
      the digest of the key presented. */
  lemma AdmittedExactly(s: State, env: R.Env, r: Registration, now: int)
    ensures Admitted(s, env, r, now) <==>
      && AuthKey(r.token, r.device) in s.accounts.authed && r.pubKey != []
      && now <= s.accounts.authed[AuthKey(r.token, r.device)].authExpireAt
      && s.accounts.authed[AuthKey(r.token, r.device)].pubKeyHex == env.digest(r.pubKey)
  {
    T.CheckedExactly(s.accounts, env, r.token, r.device, r.pubKey, now);
  }

  /** A registration that succeeds was acceptable, named a configured group and was let through; the device is then
      online in the network of its user and group, at the address answered, under the name of its record and over
      the connection it came by. */
  lemma RegisteredMeans(s: State, env: R.Env, r: Registration, cfg: D.Config, saved: bool, now: int)
    requires DigitsUnfolded(env.fold) && Sound(s)
    ensures Ready(s)
    ensures var x := Register(s, env, r, cfg, saved, now);
      x.0.Ok? ==>
        && Acceptable(r) && D.Resolve(cfg, r.token).Some? && Admitted(s, env, r, now) && r.addressParses
        && AuthKey(r.token, r.device) in x.1.accounts.authed
        && var record := x.1.accounts.authed[AuthKey(r.token, r.device)];
        && NE.OnlineFrom(x.1.nets, NetworkKey(r.token, record.user), x.0.value, r.device, r.address)
        && var c := x.1.nets.networks[NetworkKey(r.token, record.user)].clients[x.0.value];
        c.name == Trim(record.name) && c.userId == record.user && c.authGroup == r.token
  {
    SoundReady(s);
    AssignKeeps(s.accounts, env, r.token, r.device, Trim(r.name), saved);
    var x := Register(s, env, r, cfg, saved, now);
    if x.0.Ok? {
      var record, g := x.1.accounts.authed[AuthKey(r.token, r.device)], D.Resolve(cfg, r.token).value;
      JoinReady(s.nets, NetworkKey(r.token, record.user), g);
      NE.JoinRecords(s.nets, NetworkKey(r.token, record.user), g.subnet, g.reserved, Request(r, record), now);
    }
    hide N.Join, D.Resolve, A.AssignName, A.CheckDevice, Trim, NetworkKey, DigitsUnfolded, N.Good, R.Good, A.Utf8Length;
  }

  /** 1 to 128 bytes. */
  predicate Handy(name: string) {
    1 <= |U.Utf8(name)| <= 128
  }

  lemma HandyBytes(name: string)
    ensures Handy(name) <==> name != "" && A.Utf8Length(name) <= 128
  {
    U.LengthInBytes(name);
  }

  /** Why a registration is refused before anything else is looked at: its texts and keys, a group that is not
      configured, and a device whose record is missing, over, or of another key. */
  lemma RefusedExactly(s: State, env: R.Env, r: Registration, cfg: D.Config, saved: bool, now: int)
    requires DigitsUnfolded(env.fold) && Ready(s)
    ensures var answer := Register(s, env, r, cfg, saved, now).0;
      var handy := Handy(r.token) && Handy(r.device) && Handy(r.name) && |r.pubKey| > 0 && |r.kxPub| == 32;
      var known := exists net :: D.Configured(cfg, r.token, net);
      && (answer == Err(Malformed) <==> !handy)
      && (answer == Err(UnknownGroup) <==> handy && !known)
      && (answer.Err? && answer.error.NotAuthorised? <==> handy && known && !Admitted(s, env, r, now))
  {
    HandyBytes(r.token);
    HandyBytes(r.device);
    HandyBytes(r.name);
    KnownGroup(cfg, r.token);
    hide Handy, D.Configured, D.Resolve, A.CheckDevice, A.AssignName, N.Join, A.Utf8Length, Ready, DigitsUnfolded, Trim;
  }

  lemma KnownGroup(cfg: D.Config, token: string)
    ensures D.Resolve(cfg, token).Some? <==> exists net :: D.Configured(cfg, token, net)
    ensures D.Resolve(cfg, token).Some? ==>
      D.Configured(cfg, token, D.Resolve(cfg, token).value.subnet) &&
      D.Resolve(cfg, token).value.reserved == cfg.reserved(token)
  {
    if D.Resolve(cfg, token).Some? { D.ResolvesExactly(cfg, token, D.Resolve(cfg, token).value); }
    if net :| D.Configured(cfg, token, net) { D.ResolvesExactly(cfg, token, D.Group(net, cfg.reserved(token))); }
  }

  /** A registration turned away by the check takes the device's live clients of that group offline, and changes no
      other client and no record. */
  lemma RefusalTakesOffline(s: State, env: R.Env, r: Registration, cfg: D.Config, saved: bool, now: int, k: string,
                            ip: uint32)
    requires DigitsUnfolded(env.fold) && Sound(s) && N.HasClient(s.nets.networks, k, ip)
    ensures Ready(s)
    ensures var (answer, s') := Register(s, env, r, cfg, saved, now); var c := s.nets.networks[k].clients[ip];
      answer.Err? && answer.error.NotAuthorised? ==>
        s'.accounts == s.accounts &&
        NE.OfflineExactly(s.nets, s'.nets, k, ip,
                          c.deviceId == r.device && N.AuthGroup(c, k) == r.token &&
                          (c.online || c.hasStatus || c.reachable), now)
  {
    SoundReady(s);
    hide Register, NE.OfflineExactly, N.ClearStale, N.AuthGroup, DigitsUnfolded, N.Good, R.Good, Ready;
    RefusalClears(s, env, r, cfg, saved, now);
    NE.ClearStaleExactly(s.nets, r.token, r.device, now, k, ip);
  }

  lemma RefusalClears(s: State, env: R.Env, r: Registration, cfg: D.Config, saved: bool, now: int)
    requires DigitsUnfolded(env.fold) && Ready(s)
    ensures var (answer, s') := Register(s, env, r, cfg, saved, now);
      answer.Err? && answer.error.NotAuthorised? ==> s' == s.(nets := N.ClearStale(s.nets, r.token, r.device, now))
  {
    hide N.ClearStale, D.Resolve, A.CheckDevice, A.AssignName, N.Join, Acceptable, DigitsUnfolded, Trim, Ready;
  }

  /** The address answered is usable in the subnet of the network; and a group's first registration makes the network
      with the subnet and the service addresses configured for it. */
  lemma RegisteredInSubnet(s: State, env: R.Env, r: Registration, cfg: D.Config, saved: bool, now: int)
    requires DigitsUnfolded(env.fold) && Sound(s)
    ensures Ready(s)
    ensures var x := Register(s, env, r, cfg, saved, now);
      x.0.Ok? ==>
        && AuthKey(r.token, r.device) in x.1.accounts.authed
        && var key := NetworkKey(r.token, x.1.accounts.authed[AuthKey(r.token, r.device)].user);
        && key in x.1.nets.networks && x.1.nets.networks[key].subnet.Usable(x.0.value)
        && (key !in s.nets.networks ==>
              D.Configured(cfg, r.token, x.1.nets.networks[key].subnet) &&
              x.1.nets.networks[key].reserved == cfg.reserved(r.token))
  {
    SoundReady(s);
    AssignKeeps(s.accounts, env, r.token, r.device, Trim(r.name), saved);
    KnownGroup(cfg, r.token);
    var x := Register(s, env, r, cfg, saved, now);
    if x.0.Ok? {
      var record, g := x.1.accounts.authed[AuthKey(r.token, r.device)], D.Resolve(cfg, r.token).value;
      JoinReady(s.nets, NetworkKey(r.token, record.user), g);
      JoinedInSubnet(s.nets, NetworkKey(r.token, record.user), g, Request(r, record), now);
    }
    hide N.Join, D.Resolve, A.AssignName, A.CheckDevice, Trim, NetworkKey, DigitsUnfolded, N.Good, R.Good, A.Utf8Length,
         D.Configured;
  }

  lemma JoinedInSubnet(s: N.State, key: string, g: D.Group, q: N.JoinRequest, now: int)
    requires N.Good(s) && q.deviceId != ""
    ensures N.AllocatorReady(N.NetworkFor(s, key, g.subnet, g.reserved))
    ensures var j := N.Join(s, key, g.subnet, g.reserved, q, now);
      j.0.Ok? ==>
        && key in j.1.networks && j.1.networks[key].subnet.Usable(j.0.value)
        && (key !in s.networks ==> j.1.networks[key].subnet == g.subnet && j.1.networks[key].reserved == g.reserved)
  {
    N.ReadyToJoin(s, key, g.subnet, g.reserved);
    var n := N.NetworkFor(s, key, g.subnet, g.reserved);
    var r := N.Assign(n, N.Held(N.Tick(s.holds, now), n.group), q.requested, q.deviceId, q.allowChange);
    N.AssignSafe(n, N.Held(N.Tick(s.holds, now), n.group), q.requested, q.deviceId, q.allowChange);
    N.ZeroNeverHeld(n);
    if r.Ok? { N.SettleInverse(n, r.value, q, now); }
    hide N.Assign, N.Settle, N.Good, N.WellFormed;
  }

  // -------------------------------------------------------------- renaming on command

  /** When a renaming goes through, exactly the clients of the record it means show the new name; otherwise none
      does. */
  lemma RenameReachesClients(s: State, env: R.Env, user: string, group: string, device: string, name: string,
                             saved: bool, now: int, key: string, k: string, ip: uint32)
    requires Sound(s) && U.Means(s.accounts, user, group, device, key) && N.HasClient(s.nets.networks, k, ip)
    ensures var (err, s') := Rename(s, env, user, group, device, name, saved, now);
      var c, record := s.nets.networks[k].clients[ip], s.accounts.authed[key];
      && (err.Some? ==> s'.nets == s.nets)
      && (err == None ==>
            N.HasClient(s'.nets.networks, k, ip) &&
            s'.nets.networks[k].clients[ip] ==
              if c.deviceId == record.device && N.AuthGroup(c, k) == record.group then c.(name := Trim(name)) else c)
  {
    hide Rename, N.RenameDevice, N.AuthGroup, Trim, NormalizeGroup, N.Good, R.Good;
    RenameNets(s, env, user, group, device, name, saved, now, key);
    var record := s.accounts.authed[key];
    NE.RenameExactly(s.nets, record.group, record.device, Trim(name), now, k, ip);
  }

  lemma RenameNets(s: State, env: R.Env, user: string, group: string, device: string, name: string, saved: bool,
                   now: int, key: string)
    requires R.Good(s.accounts) && U.Means(s.accounts, user, group, device, key)
    ensures var (err, s') := Rename(s, env, user, group, device, name, saved, now);
      var record := s.accounts.authed[key];
      s'.nets == if err.Some? then s.nets else N.RenameDevice(s.nets, record.group, record.device, Trim(name), now)
  {
    hide A.Select, U.Means, U.Several, U.Sensible, N.RenameDevice, Trim, Taken, U.Fits, A.RenameDevice;
    U.RenameExactly(s.accounts, env.fold, user, group, device, name, saved, key);
    if A.RenameDevice(s.accounts, env.fold, user, group, device, name, saved).0 == None {
      TrimSound(name);
      U.SelectExactly(s.accounts, user, group, device);
      var only := A.SelectIsSingle(s.accounts, user, group, device);
      assert only == key;
    }
    hide R.Good;
  }

  // -------------------------------------------------- the log of the accounts in a run

  /** Tickets, challenges and proofs up to step `i`. */
  ghost function LogAt(s: State, env: R.Env, cfg: D.Config, steps: seq<Timed>, i: nat): seq<R.Event>
    requires DigitsUnfolded(env.fold) && Sound(s) && AdmissibleRun(s, env, cfg, steps) && i <= |steps|
  {
    if i == 0 then []
    else
      var x := steps[i - 1];
      LogAt(s, env, cfg, steps, i - 1) +
      if x.op.DoAccount? then R.Emits(env, StateAt(s, env, cfg, steps, i - 1).accounts, x.op.op, x.now) else []
  }

  lemma OthersRecorded(s: State, env: R.Env, cfg: D.Config, op: Op, now: int, log: seq<R.Event>)
    requires DigitsUnfolded(env.fold) && Sound(s) && Admissible(s, op) && !op.DoAccount?
    requires T.Recorded(env, s.accounts.authed, log)
    ensures Ready(s) && T.Recorded(env, Step(s, env, cfg, op, now).accounts.authed, log)
  {
    SoundReady(s);
    hide Sound, Ready, DigitsUnfolded, T.Recorded, R.Step, A.DeleteDevice, A.AssignName, Rename;
    match op
    case DoNetwork(o) =>
    case DoRegister(r, saved) =>
      AssignKeeps(s.accounts, env, r.token, r.device, Trim(r.name), saved);
      RegisterSteps(s, env, r, cfg, saved, now);
      hide Register;
      T.NamesRecorded(env, s.accounts.authed, Register(s, env, r, cfg, saved, now).1.accounts.authed, log);
    case DoDelete(user, group, device, saved) =>
      T.OthersOnlyNames(env, s.accounts, R.DoDelete(user, group, device, saved), now);
      DeleteStep(s, env, user, group, device, saved, now);
      T.NamesRecorded(env, s.accounts.authed, Delete(s, user, group, device, saved, now).1.accounts.authed, log);
    case DoRename(user, group, device, name, saved) =>
      T.OthersOnlyNames(env, s.accounts, R.DoRename(user, group, device, name, saved), now);
      RenameSteps(s, env, user, group, device, name, saved, now);
      T.NamesRecorded(env, s.accounts.authed, Rename(s, env, user, group, device, name, saved, now).1.accounts.authed,
                      log);
  }

  lemma DeleteStep(s: State, env: R.Env, user: string, group: string, device: string, saved: bool, now: int)
    requires DigitsUnfolded(env.fold)
    ensures Delete(s, user, group, device, saved, now).1.accounts ==
      R.Step(env, s.accounts, R.DoDelete(user, group, device, saved), now)
  {
    hide A.DeleteDevice, N.RemoveDevices;
  }

  lemma {:induction false} RunRecorded(s: State, env: R.Env, cfg: D.Config, steps: seq<Timed>, i: nat)
    requires DigitsUnfolded(env.fold) && Sound(s) && AdmissibleRun(s, env, cfg, steps) && i <= |steps|
    requires T.Recorded(env, s.accounts.authed, [])
    ensures T.Recorded(env, StateAt(s, env, cfg, steps, i).accounts.authed, LogAt(s, env, cfg, steps, i))
  {
    hide Sound, DigitsUnfolded, AdmissibleRun, T.Recorded, Step, R.Emits, R.Step, Admissible;
    if i == 0 {
      assert StateAt(s, env, cfg, steps, 0) == s;
    } else {
      RunRecorded(s, env, cfg, steps, i - 1);
      StateNext(s, env, cfg, steps, i - 1);
      var t, x, log := StateAt(s, env, cfg, steps, i - 1), steps[i - 1], LogAt(s, env, cfg, steps, i - 1);
      hide StateAt;
      StepRecorded(t, env, cfg, x.op, x.now, log);
    }
  }

  lemma StepRecorded(s: State, env: R.Env, cfg: D.Config, op: Op, now: int, log: seq<R.Event>)
    requires DigitsUnfolded(env.fold) && Sound(s) && Admissible(s, op) && T.Recorded(env, s.accounts.authed, log)
    ensures Ready(s) && T.Recorded(env, Step(s, env, cfg, op, now).accounts.authed,
                                   log + if op.DoAccount? then R.Emits(env, s.accounts, op.op, now) else [])
  {
    SoundReady(s);
    if op.DoAccount? {
      hide R.Step, R.Emits, T.Recorded, DigitsUnfolded, N.Good, R.Good;
      T.StepRecorded(env, s.accounts, log, op.op, now);
    } else {
      OthersRecorded(s, env, cfg, op, now, log);
      assert log + [] == log;
    }
  }

  /** In every run from the empty tables each successful registration presents a key with the digest of the key in the
      last proof accepted for its group and device, within the time that proof is good for. */
  lemma RegistrationHasProof(s: State, env: R.Env, cfg: D.Config, steps: seq<Timed>, i: nat)
    requires DigitsUnfolded(env.fold) && s == State(R.EMPTY, N.State(map[], map[])) && Sound(s)
    requires AdmissibleRun(s, env, cfg, steps) && i < |steps| && steps[i].op.DoRegister?
    requires var t := StateAt(s, env, cfg, steps, i);
      Ready(t) && Register(t, env, steps[i].op.r, cfg, steps[i].op.saved, steps[i].now).0.Ok?
    ensures var r, e := steps[i].op.r,
      T.LastProof(LogAt(s, env, cfg, steps, i), AuthKey(steps[i].op.r.token, steps[i].op.r.device));
      e.Some? && e.value.Accepted? && env.digest(r.pubKey) == env.digest(e.value.pubKey) &&
      steps[i].now <= e.value.at + A.AUTH_TTL
  {
    T.NothingRecorded(env);
    RunRecorded(s, env, cfg, steps, i);
    var t, x := StateAt(s, env, cfg, steps, i), steps[i];
    RegisteredMeans(t, env, x.op.r, cfg, x.op.saved, x.now);
    AdmittedExactly(t, env, x.op.r, x.now);
    hide Register, StateAt, LogAt, Admitted, DigitsUnfolded, AdmissibleRun, Sound, T.LastProof, Ready;
    assert T.RecordedAt(env, t.accounts.authed, LogAt(s, env, cfg, steps, i), AuthKey(x.op.r.token, x.op.r.device));
  }
}
