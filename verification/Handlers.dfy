/** The handlers that touch accounts and networks together, on the objects that keep them. */
module Handlers {
  import opened Text
  import opened Identity
  import opened Names
  import C = Controller
  import D = Domains
  import A = Accounts
  import R = AccountsRuns
  import N = Network
  import NR = NetworkRuns
  import opened AccountsControl
  import opened NetworkControl
  import TimedMap

  /** The state as of `now`, holds that have expired left out. */
  ghost function AsOf(s: C.State, now: int): C.State {
    s.(nets := Ticked(s.nets, now))
  }

  class Controller {
    const cfg: D.Config
    const um: UserManager
    const nc: NetworkControl

    /** Accounts and networks are sound, as of `now`. */
    ghost predicate Valid(now: int)
      reads this, um, nc, nc.holds
    {
      nc.Valid() && DigitsUnfolded(um.fold) && D.Valid(cfg) && C.Sound(AsOf(Model(), now))
    }

    ghost function Model(): C.State
      reads this, um, nc, nc.holds
    {
      C.State(um.Model(), nc.Model())
    }

    ghost function Environment(): R.Env
      reads this
    {
      R.Env(um.fold, um.digest)
    }

    constructor (cfg: D.Config, fold: char -> char, digest: A.Blob -> string)
      requires DigitsUnfolded(fold) && D.Valid(cfg)
      ensures fresh(um) && fresh(nc) && fresh(nc.holds) && Environment() == R.Env(fold, digest) && this.cfg == cfg
      ensures Model() == C.State(R.EMPTY, N.State(map[], map[]))
      ensures forall now :: Valid(now) && C.Safe(AsOf(Model(), now))
    {
      this.cfg := cfg;
      um := new UserManager(fold, digest);
      nc := new NetworkControl();
      new;
      C.StartSafe();
    }

    /** A registration, any time after the state was last sound: it answers and acts as specified, leaves the
        state sound, and every client authorised if all were. */
    method HandleRegistration(r: C.Registration, saved: bool, ghost since: int, now: int)
      returns (result: Result<uint32, C.Failure>)
      requires Valid(since) && since <= now
      modifies um, nc, nc.holds
      ensures Valid(now)
      ensures result == C.Register(AsOf(old(Model()), since), Environment(), r, cfg, saved, now).0
      ensures AsOf(Model(), now) ==
        AsOf(C.Register(AsOf(old(Model()), since), Environment(), r, cfg, saved, now).1, now)
      ensures C.Safe(AsOf(old(Model()), since)) ==> C.Safe(AsOf(Model(), now))
    {
      hide C.Sound, C.Safe, C.Register, DigitsUnfolded, NetworkControl.Valid, Ticked, D.Valid;
      ghost var s := Model();
      SoundAsOf(s, since);
      RegisterForgets(s, Environment(), r, cfg, saved, since, now);
      RegisterKeeps(AsOf(s, since), Environment(), r, cfg, saved, now);
      result := RegisterOnObjects(r, saved, now);
    }

    method RegisterOnObjects(r: C.Registration, saved: bool, now: int) returns (result: Result<uint32, C.Failure>)
      requires nc.Valid() && DigitsUnfolded(um.fold) && C.Ready(Model())
      modifies um, nc, nc.holds
      ensures nc.Valid()
      ensures result == C.Register(old(Model()), Environment(), r, cfg, saved, now).0
      ensures AsOf(Model(), now) == AsOf(C.Register(old(Model()), Environment(), r, cfg, saved, now).1, now)
    {
      hide A.AssignName, N.ClearStale, N.Join, N.GoodNets, DigitsUnfolded, NetworkControl.Valid, Trim, Ticked,
           NetworkKey, D.Resolve, A.Utf8Length;
      if !C.Acceptable(r) {
        return Err(C.Malformed);
      }
      var group := D.ResolveGroupNetworkConfig(cfg, r.token);
      if group == None {
        return Err(C.UnknownGroup);
      }
      ghost var s := Model();
      var check := um.CheckAuthedDevice(r.token, r.device, r.pubKey, now);
      if check != None {
        nc.ClearStaleClientState(r.token, r.device, now);
        TickedTwice(nc.Model(), now);
        return Err(C.NotAuthorised(check.value));
      }
      var key := AuthKey(r.token, r.device);
      if Trim(um.authedDevices[key].name) == "" {
        var err := um.AssignAuthedDeviceDisplayName(r.token, r.device, Trim(r.name), saved);
        if err != None {
          return Err(C.NoName(err.value));
        }
      }
      if !r.addressParses {
        return Err(C.BadAddress);
      }
      C.AssignKeeps(s.accounts, Environment(), r.token, r.device, Trim(r.name), saved);
      var record := um.authedDevices[key];
      ReadyFor(s.nets, NetworkKey(r.token, record.user), group.value);
      var address := nc.Register(NetworkKey(r.token, record.user), group.value.subnet, group.value.reserved,
                                 C.Request(r, record), now);
      TickedTwice(nc.Model(), now);
      return if address.Ok? then Ok(address.value) else Err(C.NoAddress(address.error));
    }

    /** A deletion: as specified, leaving the state sound, and every client authorised, if all were, exactly
        when it strands none. */
    method DeleteAuthedDevice(user: string, group: string, device: string, saved: bool, ghost since: int, now: int)
      returns (err: Option<A.Error>)
      requires Valid(since) && since <= now
      modifies um, nc, nc.holds
      ensures Valid(now)
      ensures err == C.Delete(AsOf(old(Model()), since), user, group, device, saved, now).0
      ensures AsOf(Model(), now) == AsOf(C.Delete(AsOf(old(Model()), since), user, group, device, saved, now).1, now)
      ensures C.Safe(AsOf(old(Model()), since)) ==>
        (C.Safe(AsOf(Model(), now)) <==> !C.Strands(AsOf(old(Model()), since), C.DoDelete(user, group, device, saved)))
    {
      hide C.Sound, C.Safe, C.Delete, DigitsUnfolded, NetworkControl.Valid, C.Strands, D.Valid;
      ghost var s := Model();
      SoundAsOf(s, since);
      DeleteForgets(s, user, group, device, saved, since, now);
      DeleteKeeps(AsOf(s, since), user, group, device, saved, now);
      err := DeleteOnObjects(user, group, device, saved, now);
    }

    method DeleteOnObjects(user: string, group: string, device: string, saved: bool, now: int)
      returns (err: Option<A.Error>)
      requires nc.Valid() && C.Ready(Model())
      modifies um, nc, nc.holds
      ensures nc.Valid()
      ensures err == C.Delete(old(Model()), user, group, device, saved, now).0
      ensures AsOf(Model(), now) == AsOf(C.Delete(old(Model()), user, group, device, saved, now).1, now)
    {
      hide A.DeleteDevice, N.RemoveDevices, NetworkControl.Valid, Ticked;
      var records := um.DeleteAuthedDevice(user, group, device, saved);
      if records.Err? {
        return Some(records.error);
      }
      nc.RemoveAuthedDeviceRuntimeState(records.value, now);
      TickedTwice(nc.Model(), now);
      return None;
    }

    /** A connection closes: its clients go offline, with their addresses held, and stay authorised. */
    method LeaveByRemoteAddr(addr: string, ghost since: int, now: int)
      requires Valid(since) && since <= now
      modifies nc, nc.holds
      ensures Valid(now) && um.Model() == old(um.Model())
      ensures AsOf(Model(), now) == AsOf(old(Model()).(nets := N.Leave(AsOf(old(Model()), since).nets, addr, now)), now)
      ensures C.Safe(AsOf(old(Model()), since)) ==> C.Safe(AsOf(Model(), now))
    {
      hide C.Sound, C.Safe, DigitsUnfolded, NetworkControl.Valid, N.Leave, Ticked;
      ghost var s := Model();
      SoundAsOf(s, since);
      LeaveForgets(s.nets, addr, since, now);
      LeaveKeeps(AsOf(s, since), addr, now);
      nc.LeaveByRemoteAddr(addr, now);
      TickedTwice(nc.Model(), now);
    }
  }

  lemma SoundAsOf(s: C.State, now: int)
    requires C.Sound(AsOf(s, now))
    ensures C.Ready(s) && C.Ready(AsOf(s, now))
  {
  }

  /** Time passing costs nothing: only holds go. */
  lemma LaterKeeps(s: C.State, now: int)
    ensures C.Sound(s) ==> C.Sound(AsOf(s, now))
    ensures C.Safe(s) ==> C.Safe(AsOf(s, now))
  {
    hide R.Good, N.Good, C.Authorised;
    if N.Good(s.nets) { NR.TickGood(s.nets, now); }
  }

  /** A registration does not depend on when expired holds are dropped. */
  lemma RegisterForgets(s: C.State, env: R.Env, r: C.Registration, cfg: D.Config, saved: bool, since: int, now: int)
    requires DigitsUnfolded(env.fold) && C.Ready(s) && since <= now
    ensures var (a, b) := (C.Register(AsOf(s, since), env, r, cfg, saved, now), C.Register(s, env, r, cfg, saved, now));
      a.0 == b.0 && AsOf(a.1, now) == AsOf(b.1, now)
  {
    hide A.AssignName, DigitsUnfolded, N.GoodNets, N.Join, D.Resolve, A.Utf8Length, N.ClearStale, NetworkKey, AuthKey,
         Trim, Ticked;
    LaterTicks(s.nets, since, now);
    C.AssignKeeps(s.accounts, env, r.token, r.device, Trim(r.name), saved);
    NR.StepForgets(s.nets, N.DoClearStale(r.token, r.device), since, now);
    var key, group := AuthKey(r.token, r.device), D.Resolve(cfg, r.token);
    var named := C.Register(s, env, r, cfg, saved, now).1.accounts.authed;
    if group.Some? && key in named {
      var g, record := group.value, named[key];
      C.JoinReady(s.nets, NetworkKey(r.token, record.user), g);
      JoinForgets(s.nets, NetworkKey(r.token, record.user), g, C.Request(r, record), since, now);
    }
  }

  lemma LaterTicks(s: N.State, since: int, now: int)
    requires since <= now
    ensures Ticked(Ticked(s, since), now) == Ticked(s, now) && Ticked(s, since).networks == s.networks
    ensures Ticked(s, since) == N.State(s.networks, N.Tick(s.holds, since))
  {
    TimedMap.AtLater(s.holds, since, now);
  }

  lemma JoinForgets(s: N.State, key: string, g: D.Group, q: N.JoinRequest, since: int, now: int)
    requires since <= now && N.AllocatorReady(N.NetworkFor(s, key, g.subnet, g.reserved))
    ensures N.NetworkFor(Ticked(s, since), key, g.subnet, g.reserved) == N.NetworkFor(s, key, g.subnet, g.reserved)
    ensures N.Join(Ticked(s, since), key, g.subnet, g.reserved, q, now) == N.Join(s, key, g.subnet, g.reserved, q, now)
  {
    TimedMap.AtLater(s.holds, since, now);
    hide N.Assign, N.Settle;
  }

  lemma RegisterKeeps(s: C.State, env: R.Env, r: C.Registration, cfg: D.Config, saved: bool, now: int)
    requires DigitsUnfolded(env.fold) && C.Sound(s) && D.Valid(cfg)
    ensures C.Ready(s) && C.Sound(AsOf(C.Register(s, env, r, cfg, saved, now).1, now))
    ensures C.Safe(s) ==> C.Safe(AsOf(C.Register(s, env, r, cfg, saved, now).1, now))
  {
    C.SoundReady(s);
    hide C.Sound, C.Safe, C.Register, DigitsUnfolded, AsOf, C.Ready, D.Valid;
    C.RegisterSound(s, env, r, cfg, saved, now);
    LaterKeeps(C.Register(s, env, r, cfg, saved, now).1, now);
    if C.Safe(s) { C.RegisterSafe(s, env, r, cfg, saved, now); }
  }

  lemma LeaveForgets(s: N.State, addr: string, since: int, now: int)
    requires since <= now
    ensures N.Leave(Ticked(s, since), addr, now) == N.Leave(s, addr, now)
  {
    NR.StepForgets(s, N.DoLeave(addr), since, now);
  }

  lemma LeaveKeeps(s: C.State, addr: string, now: int)
    requires C.Sound(s)
    ensures var s' := AsOf(s.(nets := N.Leave(s.nets, addr, now)), now); C.Sound(s') && (C.Safe(s) ==> C.Safe(s'))
  {
    hide N.Good, R.Good, C.Authorised, N.Leave, AsOf;
    NR.StepGood(s.nets, N.DoLeave(addr), now);
    if C.Safe(s) { C.NetworkSafe(s, N.DoLeave(addr), now); }
    LaterKeeps(s.(nets := N.Leave(s.nets, addr, now)), now);
  }

  lemma DeleteForgets(s: C.State, user: string, group: string, device: string, saved: bool, since: int, now: int)
    requires since <= now
    ensures var (a, b) := (C.Delete(AsOf(s, since), user, group, device, saved, now),
                           C.Delete(s, user, group, device, saved, now));
      a.0 == b.0 && AsOf(a.1, now) == AsOf(b.1, now)
  {
    TimedMap.AtLater(s.nets.holds, since, now);
    hide A.DeleteDevice;
  }

  lemma DeleteKeeps(s: C.State, user: string, group: string, device: string, saved: bool, now: int)
    requires C.Sound(s)
    ensures C.Sound(AsOf(C.Delete(s, user, group, device, saved, now).1, now))
    ensures C.Safe(s) ==>
      (C.Safe(AsOf(C.Delete(s, user, group, device, saved, now).1, now)) <==>
       !C.Strands(s, C.DoDelete(user, group, device, saved)))
  {
    hide C.Sound, C.Delete, C.Strands, C.Authorised;
    C.DeleteSound(s, user, group, device, saved, now);
    LaterKeeps(C.Delete(s, user, group, device, saved, now).1, now);
    if C.Safe(s) { C.DeleteSafe(s, user, group, device, saved, now); }
  }

  lemma TickedTwice(s: N.State, now: int)
    ensures Ticked(Ticked(s, now), now) == Ticked(s, now)
  {
    TimedMap.AtLater(s.holds, now, now);
  }

  lemma ReadyFor(s: N.State, key: string, g: D.Group)
    requires N.GoodNets(s.networks)
    ensures N.AllocatorReady(N.NetworkFor(s, key, g.subnet, g.reserved)) &&
      N.GoodNet(key, N.NetworkFor(s, key, g.subnet, g.reserved))
  {
    C.JoinReady(s, key, g);
  }
}
