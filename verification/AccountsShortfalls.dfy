/** Runs of the accounts, from the empty tables, that end with two devices of one network under one name. */
module AccountsShortfalls {
  import opened Text
  import opened Identity
  import opened Names
  import opened Accounts
  import opened AccountsRuns

  // ------------------------------------------------------------- reachable states

  ghost predicate Reachable(env: Env, s: State, log: seq<Event>)
    requires DigitsUnfolded(env.fold)
  {
    exists steps :: ReachedBy(env, steps, s, log)
  }

  ghost predicate ReachedBy(env: Env, steps: seq<Timed>, s: State, log: seq<Event>)
    requires DigitsUnfolded(env.fold)
  {
    FreshRun(env, steps) && TraceAt(env, steps, |steps|) == Trace(s, log)
  }

  lemma EmptyReachable(env: Env)
    requires DigitsUnfolded(env.fold)
    ensures Reachable(env, EMPTY, [])
  {
    assert ReachedBy(env, [], EMPTY, []);
  }

  lemma {:induction false} SamePrefix(env: Env, steps: seq<Timed>, more: seq<Timed>, i: nat)
    requires DigitsUnfolded(env.fold) && i <= |steps|
    ensures TraceAt(env, steps + more, i) == TraceAt(env, steps, i)
  {
    hide Step, Emits, DigitsUnfolded;
    if i > 0 { SamePrefix(env, steps, more, i - 1); }
  }

  /** One more step with fresh ids. */
  lemma ReachStep(env: Env, s: State, log: seq<Event>, op: Op)
    requires DigitsUnfolded(env.fold) && Reachable(env, s, log) && FreshIds(s, log, op)
    ensures Reachable(env, Step(env, s, op, 0), log + Emits(env, s, op, 0))
  {
    hide Step, Emits, DigitsUnfolded, FreshIds;
    var steps :| ReachedBy(env, steps, s, log);
    var longer := steps + [Timed(op, 0)];
    forall i | 0 <= i < |longer|
      ensures FreshIds(TraceAt(env, longer, i).state, TraceAt(env, longer, i).log, longer[i].op) {
      SamePrefix(env, steps, [Timed(op, 0)], i);
    }
    SamePrefix(env, steps, [Timed(op, 0)], |steps|);
    assert ReachedBy(env, longer, Step(env, s, op, 0), log + Emits(env, s, op, 0));
  }

  // ------------------------------------------------------------------- enrolling

  /** Challenge ids already used in the log are `used`. */
  ghost predicate UsesIds(log: seq<Event>, used: set<string>) {
    forall id :: IdChallenged(log, id) ==> id in used
  }

  function Enrolled(env: Env, s: State, user: string, group: string, device: string, ticket: string): State {
    var key := AuthKey(group, device);
    var name := if key in s.authed then Trim(s.authed[key].name) else "";
    s.(tickets := s.tickets[ticket := Ticket(user, group, 1, true)],
       authed := s.authed[key := Record(user, group, device, name, env.digest([0]), AUTH_TTL)])
  }

  lemma IssueStep(env: Env, s: State, user: string, group: string, ticket: string)
    requires DigitsUnfolded(env.fold) && user != "" && user in s.users && IsTrimmed(group) && group != ""
    requires NormalizeGroup(group, s.users[user]) == Some(group)
    ensures Step(env, s, DoIssue(user, group, 1, ticket, true), 0) ==
      s.(tickets := s.tickets[ticket := Ticket(user, group, 1, false)])
    ensures Emits(env, s, DoIssue(user, group, 1, ticket, true), 0) == [Issued(ticket, user, group, 0)]
  {
    TrimSound(group);
    hide Trim, NormalizeGroup, DigitsUnfolded;
  }

  lemma RequestStep(env: Env, s: State, user: string, group: string, device: string, ticket: string, id: string)
    requires DigitsUnfolded(env.fold) && user != "" && user in s.users && group != "" && device != "" && ticket != ""
    requires NormalizeGroup(group, s.users[user]) == Some(group) && s.challenges == map[]
    requires ticket in s.tickets && s.tickets[ticket] == Ticket(user, group, 1, false)
    ensures var reauth := AuthKey(group, device) in s.authed &&
      s.authed[AuthKey(group, device)].pubKeyHex != env.digest([0]);
      Step(env, s, DoRequest(user, group, device, ticket, [0], id, []), 0) ==
        s.(challenges := map[id := Challenge(user, group, device, ticket, [0], [], CHALLENGE_TTL, reauth)])
    ensures Emits(env, s, DoRequest(user, group, device, ticket, [0], id, []), 0) ==
      [Challenged(id, user, group, device, ticket, [0], 0)]
  {
    hide Trim, NormalizeGroup, DigitsUnfolded, AuthKey;
    assert LiveChallenges(s.challenges, 0) == map[];
  }

  lemma ProveStep(env: Env, s: State, user: string, group: string, device: string, ticket: string, id: string,
                  reauth: bool)
    requires DigitsUnfolded(env.fold) && user != "" && user in s.users && group != "" && device != "" && ticket != ""
    requires NormalizeGroup(group, s.users[user]) == Some(group)
    requires s.challenges == map[id := Challenge(user, group, device, ticket, [0], [], CHALLENGE_TTL, reauth)]
    requires ticket in s.tickets && s.tickets[ticket] == Ticket(user, group, 1, false)
    ensures Step(env, s, DoProve(id, device, [0], true, true), 0) ==
      Enrolled(env, s.(challenges := map[]), user, group, device, ticket)
    ensures Emits(env, s, DoProve(id, device, [0], true, true), 0) ==
      [Accepted(id, user, group, device, ticket, [0], 0)]
  {
    hide Trim, NormalizeGroup, DigitsUnfolded, AuthKey;
    assert s.challenges - {id} == map[];
  }

  /** Ticket, challenge and proof in a row. */
  lemma ReachEnrolled(env: Env, s: State, log: seq<Event>, used: set<string>, user: string, group: string,
                      device: string, ticket: string, id: string) returns (log': seq<Event>)
    requires DigitsUnfolded(env.fold) && Reachable(env, s, log) && UsesIds(log, used) && id !in used
    requires user != "" && user in s.users && IsTrimmed(group) && group != "" && device != "" && ticket != ""
    requires NormalizeGroup(group, s.users[user]) == Some(group) && s.challenges == map[] && ticket !in s.tickets
    ensures Reachable(env, Enrolled(env, s, user, group, device, ticket), log') && UsesIds(log', used + {id})
  {
    hide Step, Emits, DigitsUnfolded, NormalizeGroup, AuthKey, Trim, IsTrimmed, Reachable;
    var issue, request, prove := DoIssue(user, group, 1, ticket, true),
      DoRequest(user, group, device, ticket, [0], id, []), DoProve(id, device, [0], true, true);
    IssueStep(env, s, user, group, ticket);
    ReachStep(env, s, log, issue);
    var s1, e1 := Step(env, s, issue, 0), Issued(ticket, user, group, 0);
    RequestStep(env, s1, user, group, device, ticket, id);
    QuietLog(log, used, e1);
    ReachStep(env, s1, log + [e1], request);
    var s2, e2 := Step(env, s1, request, 0), Challenged(id, user, group, device, ticket, [0], 0);
    ProveStep(env, s2, user, group, device, ticket, id, s2.challenges[id].reauthRequired);
    ReachStep(env, s2, log + [e1] + [e2], prove);
    var e3 := Accepted(id, user, group, device, ticket, [0], 0);
    log' := log + [e1] + [e2] + [e3];
    assert Enrolled(env, s2.(challenges := map[]), user, group, device, ticket) ==
      Enrolled(env, s, user, group, device, ticket) by {
      assert s1.tickets[ticket := Ticket(user, group, 1, true)] == s.tickets[ticket := Ticket(user, group, 1, true)];
    }
    ChallengeLog(log + [e1], used, e2);
    QuietLog(log + [e1] + [e2], used + {id}, e3);
  }

  lemma QuietLog(log: seq<Event>, used: set<string>, e: Event)
    requires UsesIds(log, used) && !e.Challenged?
    ensures UsesIds(log + [e], used)
  {
    forall id | IdChallenged(log + [e], id) ensures id in used { LogGrows(log, e, "", "", "", id); }
  }

  lemma ChallengeLog(log: seq<Event>, used: set<string>, e: Event)
    requires UsesIds(log, used) && e.Challenged?
    ensures UsesIds(log + [e], used + {e.id})
  {
    forall id | IdChallenged(log + [e], id) ensures id in used + {e.id} { LogGrows(log, e, "", "", "", id); }
  }

  /** A step that emits nothing. */
  lemma ReachQuietly(env: Env, s: State, log: seq<Event>, op: Op)
    requires DigitsUnfolded(env.fold) && Reachable(env, s, log) && (op.DoAddUser? || op.DoSetName?)
    ensures Reachable(env, Step(env, s, op, 0), log)
  {
    hide Step, DigitsUnfolded, Reachable;
    ReachStep(env, s, log, op);
    assert log + [] == log;
  }

  lemma AddUserStep(env: Env, s: State, user: string)
    requires DigitsUnfolded(env.fold) && IsTrimmed(user) && user != "" && user !in s.users
    ensures Step(env, s, DoAddUser(user, "", "", true), 0) == s.(users := s.users[user := DEFAULT_DOMAIN])
  {
    TrimSound(user);
    hide DigitsUnfolded;
    assert Trim("") == "";
  }

  /** Two users known, nothing else. */
  lemma ReachUsers(env: Env, a: string, b: string)
    requires DigitsUnfolded(env.fold) && a != b && IsTrimmed(a) && IsTrimmed(b) && a != "" && b != ""
    ensures Reachable(env, State(map[a := DEFAULT_DOMAIN, b := DEFAULT_DOMAIN], map[], map[], map[]), [])
  {
    hide Step, DigitsUnfolded, Reachable, IsTrimmed;
    EmptyReachable(env);
    AddUserStep(env, EMPTY, a);
    ReachQuietly(env, EMPTY, [], DoAddUser(a, "", "", true));
    var s := EMPTY.(users := map[a := DEFAULT_DOMAIN]);
    assert EMPTY.users[a := DEFAULT_DOMAIN] == s.users;
    AddUserStep(env, s, b);
    ReachQuietly(env, s, [], DoAddUser(b, "", "", true));
    assert s.users[b := DEFAULT_DOMAIN] == map[a := DEFAULT_DOMAIN, b := DEFAULT_DOMAIN];
  }

  // ---------------------------------------------------------------------- naming

  lemma NameN()
    ensures Trim("n") == "n" && Trim("") == "" && CheckName("n") == Ok("n")
  {
    TrimSound("n");
    assert Utf8Length("n") == 1;
  }

  function Named(s: State, key: string): State
    requires key in s.authed
  {
    s.(authed := s.authed[key := s.authed[key].(name := "n")])
  }

  /** A device names itself "n" while no other device id of its network does. */
  lemma ReachNamed(env: Env, s: State, log: seq<Event>, group: string, device: string)
    requires DigitsUnfolded(env.fold) && Reachable(env, s, log) && AuthKey(group, device) in s.authed
    requires !TakenByOther(env.fold, s.authed, s.authed[AuthKey(group, device)], device, "n")
    ensures Reachable(env, Named(s, AuthKey(group, device)), log)
    ensures SetName(s, env.fold, group, device, "n", true) == (None, Named(s, AuthKey(group, device)))
  {
    NameN();
    hide DigitsUnfolded, Reachable, TakenByOther, CheckName, AuthKey;
    ReachQuietly(env, s, log, DoSetName(group, device, "n", true));
  }

  lemma SelfFold(fold: char -> char, a: string)
    ensures EqualFold(fold, a, a)
  {
  }

  /** Two records of one network that both bear "n" are not unique. */
  lemma BothNamed(fold: char -> char, authed: Records, k: string, j: string)
    requires k in authed && j in authed && k != j && authed[k].name == "n" && authed[j].name == "n"
    requires NetworkOf(authed[k]) == NetworkOf(authed[j])
    ensures !UniqueNames(fold, authed)
  {
    NameN();
    SelfFold(fold, "n");
    hide Trim, NetworkKey;
    assert Clash(fold, authed[k], authed[j]);
  }

  /** Two records of which one has no name, or in different networks, are unique. */
  lemma TwoUnique(fold: char -> char, authed: Records, k: string, j: string)
    requires authed.Keys == {k, j} && (authed[j].name == "" || NetworkOf(authed[k]) != NetworkOf(authed[j])) &&
      authed[k].name == "n"
    ensures UniqueNames(fold, authed)
  {
    NameN();
    hide Trim, NetworkKey;
  }

  // Two enrolled devices, the first of them named.

  ghost predicate FullGroup(g: string) {
    IsTrimmed(g) && g != "" && NormalizeGroup(g, DEFAULT_DOMAIN) == Some(g)
  }

  function Fresh(env: Env, user: string, group: string, device: string): Record {
    Record(user, group, device, "", env.digest([0]), AUTH_TTL)
  }

  lemma AloneUntaken(fold: char -> char, authed: Records, key: string, device: string)
    requires authed.Keys == {key} && authed[key].device == device
    ensures !TakenByOther(fold, authed, authed[key], device, "n")
  {
    hide NetworkKey, Bears;
  }

  /** The first of two known users has enrolled a device. */
  function First(env: Env, a: string, b: string, g: string, d: string, name: string): State {
    State(map[a := DEFAULT_DOMAIN, b := DEFAULT_DOMAIN], map["t1" := Ticket(a, g, 1, true)],
          map[AuthKey(g, d) := Fresh(env, a, g, d).(name := name)], map[])
  }

  lemma OneEnrolled(env: Env, a: string, b: string, g: string, d: string) returns (log: seq<Event>)
    requires DigitsUnfolded(env.fold) && a != b && IsTrimmed(a) && IsTrimmed(b) && a != "" && b != "" && FullGroup(g) &&
      d != ""
    ensures Reachable(env, First(env, a, b, g, d, ""), log) && UsesIds(log, {"c1"})
  {
    hide DigitsUnfolded, Reachable, AuthKey, Trim, NormalizeGroup, IsTrimmed;
    ReachUsers(env, a, b);
    var s := State(map[a := DEFAULT_DOMAIN, b := DEFAULT_DOMAIN], map[], map[], map[]);
    log := ReachEnrolled(env, s, [], {}, a, g, d, "t1", "c1");
    assert Enrolled(env, s, a, g, d, "t1") == First(env, a, b, g, d, "");
    assert {} + {"c1"} == {"c1"};
  }

  lemma OneNamed(env: Env, a: string, b: string, g: string, d: string) returns (s: State, log: seq<Event>)
    requires DigitsUnfolded(env.fold) && a != b && IsTrimmed(a) && IsTrimmed(b) && a != "" && b != "" && FullGroup(g) &&
      d != ""
    ensures Reachable(env, s, log) && UsesIds(log, {"c1"}) && s == First(env, a, b, g, d, "n")
  {
    hide DigitsUnfolded, Reachable, AuthKey, IsTrimmed, FullGroup, TakenByOther, UsesIds, SetName;
    log := OneEnrolled(env, a, b, g, d);
    var s1 := First(env, a, b, g, d, "");
    AloneUntaken(env.fold, s1.authed, AuthKey(g, d), d);
    ReachNamed(env, s1, log, g, d);
    s := Named(s1, AuthKey(g, d));
    assert s.authed == First(env, a, b, g, d, "n").authed;
  }

  lemma TwoEnrolled(env: Env, a: string, g: string, d: string, b: string, g': string, d': string)
    returns (s: State, log: seq<Event>)
    requires DigitsUnfolded(env.fold) && a != b && IsTrimmed(a) && IsTrimmed(b) && a != "" && b != ""
    requires FullGroup(g) && FullGroup(g') && d != "" && d' != "" && AuthKey(g, d) != AuthKey(g', d')
    ensures Reachable(env, s, log) && UsesIds(log, {"c1", "c2"}) && s.challenges == map[] && "t3" !in s.tickets
    ensures s.users == map[a := DEFAULT_DOMAIN, b := DEFAULT_DOMAIN]
    ensures s.authed == map[AuthKey(g, d) := Fresh(env, a, g, d).(name := "n"),
                            AuthKey(g', d') := Fresh(env, b, g', d')]
  {
    hide DigitsUnfolded, Reachable, AuthKey, Trim, NormalizeGroup, IsTrimmed;
    var s1;
    s1, log := OneNamed(env, a, b, g, d);
    log := ReachEnrolled(env, s1, log, {"c1"}, b, g', d', "t2", "c2");
    s := Enrolled(env, s1, b, g', d', "t2");
    assert {"c1"} + {"c2"} == {"c1", "c2"};
  }

  // ------------------------------------------------------- a name carried over

  const LAB: string := "lab.ms.net"

  lemma LabIsFull()
    ensures IsTrimmed(LAB) && Trim(LAB) == LAB && NormalizeGroup(LAB, DEFAULT_DOMAIN) == Some(LAB)
  {
    TrimSound(LAB);
    TrimSound(DEFAULT_DOMAIN);
    assert LAB[3] == '.' && LAB[3..] == "." + DEFAULT_DOMAIN;
  }

  lemma MovedNetworks()
    ensures NetworkKey(LAB, "sdl-a") != NetworkKey(LAB, "u-1")
  {
    TrimSound("sdl-a");
    TrimSound("u-1");
    LabIsFull();
    hide Trim;
    assert IsPersonal("sdl-a") && !IsPersonal("u-1") by { assert "u-1"[0] != "sdl-"[0]; }
    assert NetworkKey(LAB, "sdl-a")[0] == 'p' && NetworkKey(LAB, "u-1")[0] == 'l';
  }

  lemma DeviceKeys()
    ensures AuthKey(LAB, "d1") != AuthKey(LAB, "d2")
  {
    assert AuthKey(LAB, "d1")[12] == '1' && AuthKey(LAB, "d2")[12] == '2';
  }

  /** Re-authorising a named device under another kind of user carries its name into another network, where it
      may be taken: a run from the empty tables with an accepted proof before which names are unique and after
      which they are not. */
  lemma NameCarriedOver(env: Env) returns (s: State, s': State, log: seq<Event>, log': seq<Event>)
    requires DigitsUnfolded(env.fold)
    ensures Reachable(env, s, log) && UniqueNames(env.fold, s.authed)
    ensures Reachable(env, s', log') && s' == Enrolled(env, s, "u-1", LAB, "d1", "t3") &&
      !UniqueNames(env.fold, s'.authed)
  {
    LabIsFull();
    MovedNetworks();
    DeviceKeys();
    s, s', log, log' := Moved(env, "sdl-a", "u-1", LAB, "d1", "d2");
  }

  lemma Moved(env: Env, a: string, b: string, g: string, d: string, d': string)
    returns (s: State, s': State, log: seq<Event>, log': seq<Event>)
    requires DigitsUnfolded(env.fold) && a != b && IsTrimmed(a) && IsTrimmed(b) && a != "" && b != ""
    requires FullGroup(g) && d != "" && d' != "" && d != d' && AuthKey(g, d) != AuthKey(g, d') &&
      NetworkKey(g, a) != NetworkKey(g, b)
    ensures Reachable(env, s, log) && UniqueNames(env.fold, s.authed)
    ensures Reachable(env, s', log') && s' == Enrolled(env, s, b, g, d, "t3") && !UniqueNames(env.fold, s'.authed)
  {
    NameN();
    hide DigitsUnfolded, Reachable, AuthKey, NetworkKey, Trim, NormalizeGroup, IsTrimmed, UniqueNames, Bears;
    var s1;
    s1, log := TwoEnrolled(env, a, g, d, b, g, d');
    ReachNamed(env, s1, log, g, d');
    s := Named(s1, AuthKey(g, d'));
    TwoUnique(env.fold, s.authed, AuthKey(g, d), AuthKey(g, d'));
    log' := ReachEnrolled(env, s, log, {"c1", "c2"}, b, g, d, "t3", "c3");
    s' := Enrolled(env, s, b, g, d, "t3");
    BothNamed(env.fold, s'.authed, AuthKey(g, d), AuthKey(g, d'));
  }

  // ------------------------------------------------------------ a twin overlooked

  const Y_LAB: string := "y@lab.ms.net"

  lemma YLabIsFull()
    ensures IsTrimmed(Y_LAB) && Trim(Y_LAB) == Y_LAB && NormalizeGroup(Y_LAB, DEFAULT_DOMAIN) == Some(Y_LAB)
  {
    TrimSound(Y_LAB);
    TrimSound(DEFAULT_DOMAIN);
    assert Y_LAB[5] == '.' && Y_LAB[5..] == "." + DEFAULT_DOMAIN;
  }

  /** Where the user id ends and the group begins cannot be told from a personal network's key. */
  lemma KeysCollide(u: string, h: string, g: string)
    requires Trim(u) == u && Trim(u + "@" + h) == u + "@" + h && Trim(g) == g && Trim(h + "@" + g) == h + "@" + g
    requires HasPrefix(u, PERSONAL_USER)
    ensures NetworkKey(h + "@" + g, u) == NetworkKey(g, u + "@" + h)
  {
    hide Trim;
    assert HasPrefix(u + "@" + h, PERSONAL_USER);
    assert PERSONAL_PREFIX + u + "@" + (h + "@" + g) == PERSONAL_PREFIX + (u + "@" + h) + "@" + g;
  }

  lemma TwinNetworks()
    ensures NetworkKey(Y_LAB, "sdl-x") == NetworkKey(LAB, "sdl-x@y")
  {
    TrimSound("sdl-x");
    TrimSound("sdl-x@y");
    LabIsFull();
    YLabIsFull();
    hide Trim, NetworkKey;
    assert Y_LAB == "y" + "@" + LAB && "sdl-x@y" == "sdl-x" + "@" + "y";
    KeysCollide("sdl-x", "y", LAB);
  }

  lemma TwinKeys()
    ensures AuthKey(Y_LAB, "d") != AuthKey(LAB, "d")
  {
    assert AuthKey(Y_LAB, "d")[0] == 'y' && AuthKey(LAB, "d")[0] == 'l';
  }

  /** Network keys that collide leave room for a twin, whose name a device may then take: a run from the empty
      tables with a successful set-name before which names are unique and after which they are not. */
  lemma TwinOverlooked(env: Env) returns (s: State, log: seq<Event>)
    requires DigitsUnfolded(env.fold)
    ensures Reachable(env, s, log) && UniqueNames(env.fold, s.authed)
    ensures var r := SetName(s, env.fold, LAB, "d", "n", true);
      r.0 == None && Reachable(env, r.1, log) && !UniqueNames(env.fold, r.1.authed)
  {
    LabIsFull();
    YLabIsFull();
    TwinNetworks();
    TwinKeys();
    s, log := Twins(env, "sdl-x", Y_LAB, "sdl-x@y", LAB, "d");
  }

  lemma Twins(env: Env, a: string, g: string, b: string, g': string, d: string) returns (s: State, log: seq<Event>)
    requires DigitsUnfolded(env.fold) && a != b && IsTrimmed(a) && IsTrimmed(b) && a != "" && b != ""
    requires FullGroup(g) && FullGroup(g') && d != "" && AuthKey(g, d) != AuthKey(g', d) &&
      NetworkKey(g, a) == NetworkKey(g', b)
    ensures Reachable(env, s, log) && UniqueNames(env.fold, s.authed)
    ensures var r := SetName(s, env.fold, g', d, "n", true);
      r.0 == None && Reachable(env, r.1, log) && !UniqueNames(env.fold, r.1.authed)
  {
    hide DigitsUnfolded, Reachable, AuthKey, NetworkKey, Trim, NormalizeGroup, IsTrimmed, UniqueNames, Bears, SetName;
    s, log := TwoEnrolled(env, a, g, d, b, g', d);
    TwoUnique(env.fold, s.authed, AuthKey(g, d), AuthKey(g', d));
    ReachNamed(env, s, log, g', d);
    BothNamed(env.fold, Named(s, AuthKey(g', d)).authed, AuthKey(g, d), AuthKey(g', d));
  }
}
