/** A run of the networks, from the empty state, in which a request with fallback displaces a lapsed holder. */
module NetworkShortfalls {
  import opened Text
  import opened Subnet
  import opened Network
  import opened NetworkRuns

  const TINY_GATEWAY: uint32 := 0xC0A8_0001

  /** The network 192.168.0.0/30: one address besides the gateway. */
  lemma TinyNet()
    ensures var t := Net(TINY_GATEWAY, 0xFFFF_FFFC);
      t.Valid() && t.First() == TINY_GATEWAY && t.Last() == TINY_GATEWAY + 1
    ensures var t := Net(TINY_GATEWAY, 0xFFFF_FFFC); t.Usable(TINY_GATEWAY + 1)
  {
    Pow2Of32();
    assert Pow2(2) == 4;
    var t := Net(TINY_GATEWAY, 0xFFFF_FFFC);
    assert IsContiguousMask(t.mask, 2);
    UsableRange(t, 2);
  }

  function TinyJoin(device: string, requested: uint32): JoinRequest {
    JoinRequest(device, "", "", "lab", requested, true, device)
  }

  ghost function TinyOp(device: string, requested: uint32): Op {
    TinyNet();
    DoJoin("lab", Net(TINY_GATEWAY, 0xFFFF_FFFC), {}, TinyJoin(device, requested))
  }

  const START := State(map[], map[])

  ghost function TinySteps(a: string): seq<Timed> {
    [Timed(0, TinyOp(a, 0)), Timed(0, DoLeave(a))]
  }

  /** `a` has the one address of the one network. */
  ghost predicate AloneAt(s: State, a: string, ip: uint32) {
    && s.networks.Keys == {"lab"} && s.networks["lab"].subnet == Net(TINY_GATEWAY, 0xFFFF_FFFC)
    && s.networks["lab"].reserved == {} && s.networks["lab"].clients.Keys == {ip} &&
      s.networks["lab"].byDevice.Keys == {a}
    && s.networks["lab"].clients[ip].deviceId == a && s.networks["lab"].clients[ip].address == a
  }

  lemma TinyFirstFree(n: Info)
    requires n.subnet == Net(TINY_GATEWAY, 0xFFFF_FFFC) && n.reserved == {} && n.clients == map[]
    ensures AllocatorReady(n) && FirstFree(n, {}, n.subnet.First()) == Some(TINY_GATEWAY + 1)
  {
    TinyNet();
    FirstFreeIsLowest(n, {}, n.subnet.First());
    assert !Free(n, {}, TINY_GATEWAY) && Free(n, {}, TINY_GATEWAY + 1);
    hide FirstFree;
  }

  lemma SettleNew(n: Info, ip: uint32, q: JoinRequest, now: int)
    requires n.clients == map[] && n.byDevice == map[] && q.deviceId != ""
    ensures Settle(n, ip, q, now) ==
      n.(clients := map[ip := Joined(NO_CLIENT, n.group, ip, q, now)], byDevice := map[q.deviceId := ip],
         epoch := n.epoch + 1)
  {
  }

  lemma JoinNew(key: string, subnet: ValidNet, q: JoinRequest, now: int, ip: uint32)
    requires q.deviceId != "" && q.requested == 0
    requires var n := NewInfo(key, subnet, {}); AllocatorReady(n) && FirstFree(n, {}, n.subnet.First()) == Some(ip)
    ensures var n := NewInfo(key, subnet, {});
      Join(START, key, subnet, {}, q, now).0 == Ok(ip) && Join(START, key, subnet, {}, q, now).1 ==
        State(map[key := n.(clients := map[ip := Joined(NO_CLIENT, key, ip, q, now)], byDevice := map[q.deviceId := ip],
                            epoch := 1)], map[])
  {
    var n := NewInfo(key, subnet, {});
    SettleNew(n, ip, q, now);
    hide FirstFree, Settle;
    assert Held(Tick(START.holds, now), key) == {};
  }

  lemma NewIsAlone(s: State, n: Info, a: string)
    requires n.subnet == Net(TINY_GATEWAY, 0xFFFF_FFFC) && n.reserved == {}
    requires var ip: uint32 := TINY_GATEWAY + 1;
      s == State(map["lab" := n.(clients := map[ip := Joined(NO_CLIENT, "lab", ip, TinyJoin(a, 0), 0)],
                                 byDevice := map[a := ip], epoch := 1)], map[])
    ensures AloneAt(s, a, TINY_GATEWAY + 1) && s.networks["lab"].clients[TINY_GATEWAY + 1].online && s.holds == map[]
  {
  }

  lemma FirstComes(a: string)
    requires a != ""
    ensures var op := TinyOp(a, 0);
      AllocatorReady(NetworkFor(START, op.key, op.subnet, op.reserved)) &&
      var s := Step(START, op, 0);
      AloneAt(s, a, TINY_GATEWAY + 1) && s.networks["lab"].clients[TINY_GATEWAY + 1].online && s.holds == map[]
  {
    TinyNet();
    var n := NewInfo("lab", Net(TINY_GATEWAY, 0xFFFF_FFFC), {});
    TinyFirstFree(n);
    hide FirstFree, Join, AloneAt, Joined;
    JoinNew("lab", Net(TINY_GATEWAY, 0xFFFF_FFFC), TinyJoin(a, 0), 0, TINY_GATEWAY + 1);
    NewIsAlone(Step(START, TinyOp(a, 0), 0), n, a);
  }

  lemma RunTwo(s: State, t: Timed, u: Timed)
    requires Good(s) && Ordered([t, u], t.now)
    ensures t.op.DoJoin? ==> AllocatorReady(NetworkFor(s, t.op.key, t.op.subnet, t.op.reserved))
    ensures var s' := Step(s, t.op, t.now);
      (u.op.DoJoin? ==> AllocatorReady(NetworkFor(s', u.op.key, u.op.subnet, u.op.reserved))) &&
      Run(s, [t, u], t.now) == Step(s', u.op, u.now)
  {
    hide Step, Good;
    StepGood(s, t.op, t.now);
    StepGood(Step(s, t.op, t.now), u.op, u.now);
    var s' := Step(s, t.op, t.now);
    assert [t, u][1..] == [u] && [u][1..] == [];
    assert Run(s', [u], t.now) == Run(Step(s', u.op, u.now), [], u.now);
    assert Run(s, [t, u], t.now) == Run(s', [u], t.now);
  }

  lemma ThenGoes(s: State, a: string, ip: uint32)
    requires AloneAt(s, a, ip) && s.networks["lab"].clients[ip].online && s.holds == map[]
    ensures var s' := Step(s, DoLeave(a), 0);
      AloneAt(s', a, ip) && !s'.networks["lab"].clients[ip].online && s'.holds == map[("lab", ip) := ((), HOLD_TTL)]
  {
    assert Leaving(s.networks["lab"], a) == {ip};
    assert HoldKeys(AllLeaving(s.networks, a), {}) == {("lab", ip)};
  }

  /** Device `a` comes and goes: it is left offline, under a hold, at the one address. */
  lemma ComesAndGoes(a: string)
    requires a != ""
    ensures Ordered(TinySteps(a), 0) && Good(START)
    ensures var s := Run(START, TinySteps(a), 0);
      && Good(s) && AloneAt(s, a, TINY_GATEWAY + 1) && !s.networks["lab"].clients[TINY_GATEWAY + 1].online
      && s.holds == map[("lab", TINY_GATEWAY + 1) := ((), HOLD_TTL)]
  {
    EmptyStateGood();
    TinyOrdered(a);
    var steps := TinySteps(a);
    hide Step, AloneAt, Good, Run, Ordered;
    FirstComes(a);
    ThenGoes(Step(START, steps[0].op, 0), a, TINY_GATEWAY + 1);
    RunTwo(START, steps[0], steps[1]);
    RunGood(START, steps, 0);
  }

  lemma TinyOrdered(a: string)
    requires a != ""
    ensures Ordered(TinySteps(a), 0)
  {
    assert TinySteps(a)[1..] == [Timed(0, DoLeave(a))];
  }

  /** So it happens, in a run from the empty state: in 192.168.0.0/30 device `a` comes and goes, and device `b`,
      asking for the one address with fallback after the hold has lapsed, displaces it. */
  lemma FallbackDisplaces(a: string, b: string)
    requires a != b && a != "" && b != ""
    ensures Ordered(TinySteps(a), 0) && Good(START)
    ensures var s, op, ip: uint32 := Run(START, TinySteps(a), 0), TinyOp(b, TINY_GATEWAY + 1), TINY_GATEWAY + 1;
      && "lab" in s.networks && AllocatorReady(NetworkFor(s, "lab", op.subnet, {}))
      && Join(s, "lab", op.subnet, {}, op.q, HOLD_TTL + 1).0 == Ok(ip)
      && Displaced(s.networks["lab"], Join(s, "lab", op.subnet, {}, op.q, HOLD_TTL + 1).1.networks["lab"], b, ip)
  {
    ComesAndGoes(a);
    TinyNet();
    var s := Run(START, TinySteps(a), 0);
    assert Held(Tick(s.holds, HOLD_TTL + 1), "lab") == {};
    NobodyBelow(s.networks["lab"]);
    hide Run, Settle, Displaced, FirstFree, Assign;
    FallbackTakesRequested(s.networks["lab"], {}, TinyJoin(b, TINY_GATEWAY + 1), HOLD_TTL + 1);
  }

  lemma NobodyBelow(n: Info)
    requires n.subnet == Net(TINY_GATEWAY, 0xFFFF_FFFC)
    ensures forall ip: uint32 :: n.subnet.First() <= ip < TINY_GATEWAY + 1 ==> !Free(n, {}, ip)
  {
    TinyNet();
  }
}
