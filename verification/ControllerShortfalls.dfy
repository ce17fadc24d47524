/** A run of the controller, from the empty tables, that leaves a registered client without a record. */
module ControllerShortfalls {
  import opened Text
  import opened Identity
  import opened Names
  import opened Controller
  import A = Accounts
  import R = AccountsRuns
  import S = AccountsShortfalls
  import N = Network
  import NS = NetworkShortfalls
  import D = Domains
  import Subnet

  const START := State(R.EMPTY, N.State(map[], map[]))

  // ------------------------------------------------------------- reachable states

  ghost predicate Reaches(env: R.Env, cfg: D.Config, s: State, steps: seq<Timed>, s': State)
    requires DigitsUnfolded(env.fold)
  {
    Sound(s) && AdmissibleRun(s, env, cfg, steps) && StateAt(s, env, cfg, steps, |steps|) == s'
  }

  lemma {:induction false} ReachesNext(env: R.Env, cfg: D.Config, s: State, steps: seq<Timed>, s': State, t: Timed)
    requires DigitsUnfolded(env.fold) && Reaches(env, cfg, s, steps, s') && Admissible(s', t.op)
    ensures Ready(s') && Reaches(env, cfg, s, steps + [t], Step(s', env, cfg, t.op, t.now))
    decreases |steps|
  {
    hide Sound, Ready, Admissible, DigitsUnfolded, Step;
    if steps == [] {
      StepSound(s, env, cfg, t.op, t.now);
      assert steps + [t] == [t] && [t][1..] == [];
      assert StateAt(s, env, cfg, [t], 1) == StateAt(Step(s, env, cfg, t.op, t.now), env, cfg, [], 0);
    } else {
      StepSound(s, env, cfg, steps[0].op, steps[0].now);
      ReachesNext(env, cfg, Step(s, env, cfg, steps[0].op, steps[0].now), steps[1..], s', t);
      assert (steps + [t])[1..] == steps[1..] + [t];
    }
  }

  /** Reached by a run from the empty tables, with every client authorised. */
  ghost predicate Reachable(env: R.Env, cfg: D.Config, s: State)
    requires DigitsUnfolded(env.fold)
  {
    Safe(s) && exists steps :: Reaches(env, cfg, START, steps, s)
  }

  lemma StartReachable(env: R.Env, cfg: D.Config)
    requires DigitsUnfolded(env.fold)
    ensures Reachable(env, cfg, START)
  {
    StartSafe();
    assert Reaches(env, cfg, START, [], START);
  }

  lemma ReachStep(env: R.Env, cfg: D.Config, s: State, op: Op)
    requires DigitsUnfolded(env.fold) && D.Valid(cfg) && Reachable(env, cfg, s) && Admissible(s, op) && !Strands(s, op)
    ensures Ready(s) && Reachable(env, cfg, Step(s, env, cfg, op, 0))
  {
    hide Safe, Ready, Reaches, Admissible, Strands, DigitsUnfolded, D.Valid, Step;
    var steps :| Reaches(env, cfg, START, steps, s);
    ReachesNext(env, cfg, START, steps, s, Timed(op, 0));
    StepSafe(s, env, cfg, op, 0);
  }

  lemma ReachAccount(env: R.Env, cfg: D.Config, s: State, op: R.Op)
    requires DigitsUnfolded(env.fold) && D.Valid(cfg) && Reachable(env, cfg, s)
    requires !op.DoDelete? && !op.DoRename? && (op.DoIssue? ==> op.id !in s.accounts.tickets)
    ensures Reachable(env, cfg, s.(accounts := R.Step(env, s.accounts, op, 0)))
  {
    hide Reachable, DigitsUnfolded, D.Valid, R.Step;
    ReachStep(env, cfg, s, DoAccount(op));
  }

  // -------------------------------------------------------------- the run itself

  const LAB: string := S.LAB
  const USER: string := "u-1"
  const DEVICE: string := "d1"

  /** The accounts once the device is enrolled. */
  function Enrolled(env: R.Env): A.State {
    A.State(map[USER := DEFAULT_DOMAIN], map["t1" := A.Ticket(USER, LAB, 1, true)],
            map[AuthKey(LAB, DEVICE) := S.Fresh(env, USER, LAB, DEVICE)], map[])
  }

  lemma NamesTrimmed()
    ensures IsTrimmed(USER) && Trim(USER) == USER && Trim(DEVICE) == DEVICE
    ensures IsTrimmed(LAB) && Trim(LAB) == LAB && NormalizeGroup(LAB, DEFAULT_DOMAIN) == Some(LAB)
  {
    TrimSound(USER);
    TrimSound(DEVICE);
    S.LabIsFull();
  }

  lemma ReachEnrolled(env: R.Env, cfg: D.Config)
    requires DigitsUnfolded(env.fold) && D.Valid(cfg)
    ensures Reachable(env, cfg, State(Enrolled(env), START.nets))
  {
    NamesTrimmed();
    hide R.Step, DigitsUnfolded, Reachable, IsTrimmed, Trim, NormalizeGroup, D.Valid;
    StartReachable(env, cfg);
    var s1 := A.State(map[USER := DEFAULT_DOMAIN], map[], map[], map[]);
    S.AddUserStep(env, R.EMPTY, USER);
    assert R.EMPTY.users[USER := DEFAULT_DOMAIN] == s1.users;
    ReachAccount(env, cfg, START, R.DoAddUser(USER, "", "", true));
    var s2 := s1.(tickets := map["t1" := A.Ticket(USER, LAB, 1, false)]);
    S.IssueStep(env, s1, USER, LAB, "t1");
    assert s1.tickets["t1" := A.Ticket(USER, LAB, 1, false)] == s2.tickets;
    ReachAccount(env, cfg, State(s1, START.nets), R.DoIssue(USER, LAB, 1, "t1", true));
    S.RequestStep(env, s2, USER, LAB, DEVICE, "t1", "c1");
    var s3 := R.Step(env, s2, R.DoRequest(USER, LAB, DEVICE, "t1", [0], "c1", []), 0);
    ReachAccount(env, cfg, State(s2, START.nets), R.DoRequest(USER, LAB, DEVICE, "t1", [0], "c1", []));
    S.ProveStep(env, s3, USER, LAB, DEVICE, "t1", "c1", s3.challenges["c1"].reauthRequired);
    ReachAccount(env, cfg, State(s3, START.nets), R.DoProve("c1", DEVICE, [0], true, true));
    assert s3.(challenges := map[]) == s2;
    EnrolledAccounts(env, s2);
  }

  lemma EnrolledAccounts(env: R.Env, s: A.State)
    requires s == A.State(map[USER := DEFAULT_DOMAIN], map["t1" := A.Ticket(USER, LAB, 1, false)], map[], map[])
    ensures S.Enrolled(env, s, USER, LAB, DEVICE, "t1") == Enrolled(env)
  {
  }

  ghost function Tiny(): D.Config {
    NS.TinyNet();
    var net := Subnet.Net(NS.TINY_GATEWAY, 0xFFFF_FFFC);
    D.Config(map[], map[LAB := net], "", net, _ => {})
  }

  lemma LabIsDomain()
    ensures D.IsDomain(LAB)
  {
    var front := LAB[..6];
    assert front[0] == 'l' && front[1] == 'a' && front[2] == 'b' && front[3] == '.' && front[4] == 'm' &&
      front[5] == 's';
    forall i | 0 <= i < |front| ensures D.IsHostChar(front[i]) || (front[i] == '.' && front[i + 1] != '.') {
      assert i == 0 || i == 1 || i == 2 || i == 3 || i == 4 || i == 5;
    }
    assert LAB[6] == '.' && D.IsDotted(front);
    forall j | 6 < j < |LAB| ensures D.IsLetter(LAB[j]) { assert j == 7 || j == 8 || j == 9; }
  }

  lemma TinyValid()
    ensures D.Valid(Tiny()) && D.Resolve(Tiny(), LAB) == Some(D.Group(Subnet.Net(NS.TINY_GATEWAY, 0xFFFF_FFFC), {}))
  {
    LabIsDomain();
    hide D.IsDomain;
    assert LAB in Tiny().groups;
  }

  function Registers(): Registration {
    Registration(LAB, DEVICE, [0], seq(32, _ => 0), "n", 0, false, "10.0.0.1:1", true)
  }

  lemma {:induction false} Utf8AtMost(s: string)
    ensures A.Utf8Length(s) <= 4 * |s|
  {
    if s != "" { Utf8AtMost(s[1..]); }
  }

  lemma RegistersAcceptable()
    ensures Acceptable(Registers())
  {
    Utf8AtMost(LAB);
    Utf8AtMost(DEVICE);
    Utf8AtMost("n");
  }

  ghost predicate AlwaysJoins(nets: N.State, g: D.Group, device: string, requested: uint32, now: int) {
    forall key, q: N.JoinRequest :: q.deviceId == device && q.requested == requested ==>
      N.AllocatorReady(N.NetworkFor(nets, key, g.subnet, g.reserved)) &&
        N.Join(nets, key, g.subnet, g.reserved, q, now).0.Ok?
  }

  lemma TinyJoins(g: D.Group)
    requires g.subnet == Subnet.Net(NS.TINY_GATEWAY, 0xFFFF_FFFC) && g.reserved == {}
    ensures AlwaysJoins(START.nets, g, DEVICE, 0, 0)
  {
    hide N.Join, N.AllocatorReady;
    forall key, q: N.JoinRequest | q.deviceId == DEVICE && q.requested == 0
      ensures N.AllocatorReady(N.NetworkFor(START.nets, key, g.subnet, g.reserved)) &&
        N.Join(START.nets, key, g.subnet, g.reserved, q, 0).0.Ok?
    {
      JoinsTiny(key, q);
    }
  }

  lemma Admits(env: R.Env)
    ensures var s := State(Enrolled(env), START.nets);
      Ready(s) && Admitted(s, env, Registers(), 0) && Trim(s.accounts.authed[AuthKey(LAB, DEVICE)].name) == ""
  {
    assert Trim("") == "";
  }

  /** The stations of a registration that goes through. */
  lemma RegisterThrough(s: State, env: R.Env, r: Registration, cfg: D.Config, g: D.Group, now: int)
    requires DigitsUnfolded(env.fold) && Ready(s) && Acceptable(r) && D.Resolve(cfg, r.token) == Some(g) &&
      Admitted(s, env, r, now)
    requires Trim(s.accounts.authed[AuthKey(r.token, r.device)].name) == "" && r.addressParses
    requires A.AssignName(s.accounts, env.fold, r.token, r.device, Trim(r.name), true).0 == None
    requires AlwaysJoins(s.nets, g, r.device, r.requested, now)
    ensures Register(s, env, r, cfg, true, now).0.Ok?
    ensures Register(s, env, r, cfg, true, now).1.accounts ==
      A.AssignName(s.accounts, env.fold, r.token, r.device, Trim(r.name), true).1
  {
    hide Acceptable, D.Resolve, A.AssignName, N.Join, NetworkKey, Trim, DigitsUnfolded, Ready;
    AssignKeeps(s.accounts, env, r.token, r.device, Trim(r.name), true);
  }

  lemma NamesIt(env: R.Env)
    requires DigitsUnfolded(env.fold)
    ensures var r := A.AssignName(Enrolled(env), env.fold, LAB, DEVICE, "n", true);
      && r.0 == None && r.1.users == Enrolled(env).users && r.1.authed.Keys == {AuthKey(LAB, DEVICE)}
      && r.1.authed[AuthKey(LAB, DEVICE)].user == USER && r.1.authed[AuthKey(LAB, DEVICE)].group == LAB
      && r.1.authed[AuthKey(LAB, DEVICE)].device == DEVICE
  {
    S.NameN();
    hide AuthKey, Trim, A.CheckName, UniqueName, DigitsUnfolded;
  }

  /** The enrolled device registers. */
  lemma RegistersOk(env: R.Env)
    requires DigitsUnfolded(env.fold)
    ensures var s := State(Enrolled(env), START.nets);
      && Ready(s) && Register(s, env, Registers(), Tiny(), true, 0).0.Ok?
      && Register(s, env, Registers(), Tiny(), true, 0).1.accounts ==
        A.AssignName(Enrolled(env), env.fold, LAB, DEVICE, "n", true).1
  {
    RegistersAcceptable();
    TinyValid();
    S.NameN();
    NamesIt(env);
    Admits(env);
    var s, g := State(Enrolled(env), START.nets), D.Group(Subnet.Net(NS.TINY_GATEWAY, 0xFFFF_FFFC), {});
    TinyJoins(g);
    hide D.Resolve, Acceptable, A.AssignName, DigitsUnfolded, Register, AlwaysJoins, Trim, Enrolled, Tiny, Admitted,
         Ready;
    RegisterThrough(s, env, Registers(), Tiny(), g, 0);
  }

  lemma JoinsTiny(key: string, q: N.JoinRequest)
    requires q.deviceId != "" && q.requested == 0
    ensures var net := Subnet.Net(NS.TINY_GATEWAY, 0xFFFF_FFFC);
      net.Valid() && N.AllocatorReady(N.NetworkFor(START.nets, key, net, {})) &&
        N.Join(START.nets, key, net, {}, q, 0).0.Ok?
  {
    NS.TinyNet();
    var net := Subnet.Net(NS.TINY_GATEWAY, 0xFFFF_FFFC);
    NS.TinyFirstFree(N.NewInfo(key, net, {}));
    NS.JoinNew(key, net, q, 0, NS.TINY_GATEWAY + 1);
  }

  lemma SelectsIt(s: A.State)
    requires s.users == map[USER := DEFAULT_DOMAIN] && s.authed.Keys == {AuthKey(LAB, DEVICE)}
    requires var r := s.authed[AuthKey(LAB, DEVICE)]; r.user == USER && r.group == LAB && r.device == DEVICE
    ensures A.Select(s, USER, LAB, DEVICE) == Ok({AuthKey(LAB, DEVICE)})
  {
    NamesTrimmed();
    hide Trim, NormalizeGroup;
    assert A.Matches(s, USER, LAB, DEVICE) == {AuthKey(LAB, DEVICE)};
  }

  lemma Deletable(env: R.Env)
    requires DigitsUnfolded(env.fold)
    ensures var s := State(Enrolled(env), START.nets);
      && Ready(s) && Register(s, env, Registers(), Tiny(), true, 0).0.Ok?
      && A.Select(Register(s, env, Registers(), Tiny(), true, 0).1.accounts, USER, LAB, DEVICE) ==
        Ok({AuthKey(LAB, DEVICE)})
  {
    RegistersOk(env);
    NamesIt(env);
    hide Register, Tiny, A.Select, A.AssignName, AuthKey, DigitsUnfolded, Ready;
    SelectsIt(A.AssignName(Enrolled(env), env.fold, LAB, DEVICE, "n", true).1);
  }

  /** The unsaved deletion of a device that has just registered. */
  lemma StrandsAfter(s: State, env: R.Env, cfg: D.Config, r: Registration, user: string)
    requires DigitsUnfolded(env.fold) && D.Valid(cfg) && Safe(s) && Ready(s) && Register(s, env, r, cfg, true, 0).0.Ok?
    requires A.Select(Register(s, env, r, cfg, true, 0).1.accounts, user, r.token, r.device) ==
      Ok({AuthKey(r.token, r.device)})
    ensures var s', op := Register(s, env, r, cfg, true, 0).1, DoDelete(user, r.token, r.device, false);
      Strands(s', op) && !Safe(Delete(s', user, r.token, r.device, false, 0).1)
  {
    hide Register, D.Valid, DigitsUnfolded, A.Select, Delete, Safe, Strands, Authorised, Ready;
    RegisterSafe(s, env, r, cfg, true, 0);
    FailedDeleteStrands(s, env, r, cfg, true, 0, user);
    var s' := Register(s, env, r, cfg, true, 0).1;
    NotAuthorisedNotSafe(Delete(s', user, r.token, r.device, false, 0).1);
    DeleteSafe(s', user, r.token, r.device, false, 0);
  }

  /** A user enrols a device, the device registers, and the user deletes it while the store fails: the record is
      gone and the client is not. */
  lemma DeletionStrands(env: R.Env) returns (s: State)
    requires DigitsUnfolded(env.fold)
    ensures Reachable(env, Tiny(), s) && Ready(s)
    ensures var op := DoDelete(USER, LAB, DEVICE, false);
      Admissible(s, op) && Strands(s, op) && !Safe(Step(s, env, Tiny(), op, 0))
  {
    hide Reachable, Register, D.Valid, DigitsUnfolded, A.Select, Enrolled, Delete, Tiny, Ready, Safe, Strands;
    TinyValid();
    Deletable(env);
    ReachRegistered(env);
    var s0 := State(Enrolled(env), START.nets);
    s := Register(s0, env, Registers(), Tiny(), true, 0).1;
    ReachableSafe(env, Tiny(), s0);
    ReachableSafe(env, Tiny(), s);
    StrandsAfter(s0, env, Tiny(), Registers(), USER);
  }

  lemma NotAuthorisedNotSafe(s: State)
    ensures !Authorised(s.nets.networks, s.accounts.authed.Keys) ==> !Safe(s)
  {
  }

  lemma ReachRegistered(env: R.Env)
    requires DigitsUnfolded(env.fold)
    ensures Ready(State(Enrolled(env), START.nets)) && Reachable(env, Tiny(), State(Enrolled(env), START.nets))
    ensures Reachable(env, Tiny(), Register(State(Enrolled(env), START.nets), env, Registers(), Tiny(), true, 0).1)
  {
    TinyValid();
    hide Reachable, Register, D.Valid, D.Resolve, DigitsUnfolded, Enrolled, Tiny, Ready;
    ReachEnrolled(env, Tiny());
    ReachStep(env, Tiny(), State(Enrolled(env), START.nets), DoRegister(Registers(), true));
  }

  lemma ReachableSafe(env: R.Env, cfg: D.Config, s: State)
    requires DigitsUnfolded(env.fold) && Reachable(env, cfg, s)
    ensures Safe(s) && Ready(s)
  {
  }
}
