/** Device authorisation over whole runs: what an observer of tickets, challenges and accepted proofs
    can rely on. */
module AccountsRuns {
  import opened Text
  import opened Identity
  import opened Names
  import opened Accounts

  /** Case folding and key digest of the runtime. */
  datatype Env = Env(fold: char -> char, digest: Blob -> string)

  datatype Op =
    | DoAddUser(user: string, domain: string, group: string, saved: bool)
    | DoIssue(user: string, group: string, ttl: int, id: string, saved: bool)
    | DoRequest(user: string, group: string, device: string, ticket: string, pubKey: Blob, id: string, nonce: Blob)
    | DoProve(id: string, device: string, pubKey: Blob, signed: bool, saved: bool)
    | DoAssign(group: string, device: string, name: string, saved: bool)
    | DoSetName(group: string, device: string, name: string, saved: bool)
    | DoRename(user: string, group: string, device: string, name: string, saved: bool)
    | DoDelete(user: string, group: string, device: string, saved: bool)

  datatype Timed = Timed(op: Op, now: int)

  ghost function Step(env: Env, s: State, op: Op, now: int): State
    requires DigitsUnfolded(env.fold)
  {
    match op
    case DoAddUser(user, domain, group, saved) => AddUser(s, user, domain, group, saved).1
    case DoIssue(user, group, ttl, id, saved) => IssueTicket(s, user, group, ttl, id, saved, now).1
    case DoRequest(user, group, device, ticket, pubKey, id, nonce) =>
      RequestAuth(s, env.digest, user, group, device, ticket, pubKey, id, nonce, now).1
    case DoProve(id, device, pubKey, signed, saved) => Prove(s, env.digest, id, device, pubKey, signed, saved, now).1
    case DoAssign(group, device, name, saved) => AssignName(s, env.fold, group, device, name, saved).1
    case DoSetName(group, device, name, saved) => SetName(s, env.fold, group, device, name, saved).1
    case DoRename(user, group, device, name, saved) =>
      Accounts.RenameDevice(s, env.fold, user, group, device, name, saved).1
    case DoDelete(user, group, device, saved) => DeleteDevice(s, user, group, device, saved).1
  }

  datatype Event =
    | Issued(ticket: string, user: string, group: string, at: int)
    | Challenged(id: string, user: string, group: string, device: string, ticket: string, pubKey: Blob, at: int)
    | Accepted(id: string, user: string, group: string, device: string, ticket: string, pubKey: Blob, at: int)

  /** The change took place, whether or not it could be saved. */
  predicate Done(e: Option<Error>) {
    e == None || e == Some(NotSaved)
  }

  function Emits(env: Env, s: State, op: Op, now: int): seq<Event> {
    match op
    case DoIssue(user, group, ttl, id, saved) =>
      var r := IssueTicket(s, user, group, ttl, id, saved, now);
      if Done(r.0) then [Issued(id, user, r.1.tickets[id].group, now)] else []
    case DoRequest(user, group, device, ticket, pubKey, id, nonce) =>
      var r := RequestAuth(s, env.digest, user, group, device, ticket, pubKey, id, nonce, now);
      if Done(r.0) then [Challenged(id, user, r.1.challenges[id].group, device, ticket, pubKey, now)] else []
    case DoProve(id, device, pubKey, signed, saved) =>
      if Done(Prove(s, env.digest, id, device, pubKey, signed, saved, now).0) && id in s.challenges
      then [Accepted(id, s.challenges[id].user, s.challenges[id].group, device, s.challenges[id].ticket, pubKey, now)]
        else []
    case _ => []
  }

  // ----------------------------------------------------------------- the log

  ghost predicate WasIssued(log: seq<Event>, ticket: string, user: string, group: string) {
    exists at :: Issued(ticket, user, group, at) in log
  }

  ghost predicate IdChallenged(log: seq<Event>, id: string) {
    exists e :: e in log && e.Challenged? && e.id == id
  }

  ghost predicate IdAccepted(log: seq<Event>, id: string) {
    exists e :: e in log && e.Accepted? && e.id == id
  }

  ghost predicate TicketAccepted(log: seq<Event>, ticket: string) {
    exists e :: e in log && e.Accepted? && e.ticket == ticket
  }

  /** The challenge an accepted proof answers: same ids, device and key, at most a minute old. */
  ghost predicate Answers(e: Event, c: Event) {
    && e.Accepted? && c.Challenged?
    && e == Accepted(c.id, c.user, c.group, c.device, c.ticket, c.pubKey, e.at)
    && e.at <= c.at + CHALLENGE_TTL
  }

  ghost predicate Justified(before: seq<Event>, e: Event) {
    match e
    case Issued(_, _, _, _) => true
    case Challenged(id, user, group, _, ticket, _, _) => WasIssued(before, ticket, user, group) &&
      !IdChallenged(before, id)
    case Accepted(id, _, _, _, ticket, _, _) =>
      (exists c :: c in before && Answers(e, c)) && !IdAccepted(before, id) && !TicketAccepted(before, ticket)
  }

  ghost predicate Lawful(log: seq<Event>) {
    forall j :: 0 <= j < |log| ==> Justified(log[..j], log[j])
  }

  // ------------------------------------------------------ the state agrees with the log

  ghost predicate TicketsAgree(s: State, log: seq<Event>) {
    && (forall id :: id in s.tickets ==> WasIssued(log, id, s.tickets[id].user, s.tickets[id].group))
    && (forall id :: TicketAccepted(log, id) ==> id in s.tickets && s.tickets[id].used)
  }

  ghost predicate ChallengeAgrees(log: seq<Event>, id: string, c: Challenge) {
    Challenged(id, c.user, c.group, c.device, c.ticket, c.pubKey, c.expireAt - CHALLENGE_TTL) in log &&
      !IdAccepted(log, id)
  }

  ghost predicate ChallengesAgree(s: State, log: seq<Event>) {
    && (forall id :: id in s.challenges ==> ChallengeAgrees(log, id, s.challenges[id]))
    && (forall id :: IdAccepted(log, id) ==> IdChallenged(log, id))
  }

  ghost predicate Agrees(s: State, log: seq<Event>) {
    TicketsAgree(s, log) && ChallengesAgree(s, log)
  }

  /** Random ids are new: a ticket id not in the table, a challenge id never used before. */
  ghost predicate FreshIds(s: State, log: seq<Event>, op: Op) {
    (op.DoIssue? ==> op.id !in s.tickets) && (op.DoRequest? ==> !IdChallenged(log, op.id))
  }

  // Quiet steps: no event, and tickets and challenges as they were (or fewer challenges).

  ghost predicate Quiet(s: State, s': State) {
    s'.tickets == s.tickets &&
      (forall id :: id in s'.challenges ==> id in s.challenges && s'.challenges[id] == s.challenges[id])
  }

  lemma QuietAgrees(s: State, s': State, log: seq<Event>)
    requires Agrees(s, log) && Quiet(s, s')
    ensures Agrees(s', log)
  {
    hide WasIssued, TicketAccepted, IdAccepted, IdChallenged, ChallengeAgrees;
  }

  lemma NoEventQuiet(env: Env, s: State, op: Op, now: int)
    requires DigitsUnfolded(env.fold) && Emits(env, s, op, now) == []
    ensures Quiet(s, Step(env, s, op, now))
  {
    hide Trim, NormalizeGroup, Taken, TakenByOther, CheckName, UniqueName, Matches;
  }

  lemma LogGrows(log: seq<Event>, e: Event, ticket: string, user: string, group: string, id: string)
    ensures WasIssued(log, ticket, user, group) ==> WasIssued(log + [e], ticket, user, group)
    ensures IdChallenged(log + [e], id) <==> IdChallenged(log, id) || (e.Challenged? && e.id == id)
    ensures IdAccepted(log + [e], id) <==> IdAccepted(log, id) || (e.Accepted? && e.id == id)
    ensures TicketAccepted(log + [e], ticket) <==> TicketAccepted(log, ticket) || (e.Accepted? && e.ticket == ticket)
  {
    assert e in log + [e];
    if WasIssued(log, ticket, user, group) {
      var at :| Issued(ticket, user, group, at) in log;
      assert Issued(ticket, user, group, at) in log + [e];
    }
    if IdChallenged(log, id) { var x :| x in log && x.Challenged? && x.id == id; assert x in log + [e]; }
    if IdAccepted(log, id) { var x :| x in log && x.Accepted? && x.id == id; assert x in log + [e]; }
    if TicketAccepted(log, ticket) { var x :| x in log && x.Accepted? && x.ticket == ticket; assert x in log + [e]; }
  }

  lemma TicketsGrow(s: State, s': State, log: seq<Event>, e: Event)
    requires TicketsAgree(s, log)
    requires forall id :: id in s.tickets ==> id in s'.tickets && (s.tickets[id].used ==> s'.tickets[id].used)
    requires forall id :: id in s'.tickets ==>
      || (id in s.tickets && s'.tickets[id].user == s.tickets[id].user && s'.tickets[id].group == s.tickets[id].group)
      || (exists at :: e == Issued(id, s'.tickets[id].user, s'.tickets[id].group, at))
    requires e.Accepted? ==> e.ticket in s'.tickets && s'.tickets[e.ticket].used
    ensures TicketsAgree(s', log + [e])
  {
    hide TicketAccepted;
    forall id | id in s'.tickets ensures WasIssued(log + [e], id, s'.tickets[id].user, s'.tickets[id].group) {
      LogGrows(log, e, id, s'.tickets[id].user, s'.tickets[id].group, "");
      assert e in log + [e];
    }
    forall id | TicketAccepted(log + [e], id) ensures id in s'.tickets && s'.tickets[id].used {
      LogGrows(log, e, id, "", "", "");
    }
  }

  lemma ChallengesGrow(s: State, s': State, log: seq<Event>, e: Event)
    requires ChallengesAgree(s, log) && (e.Accepted? ==> e.id !in s'.challenges && IdChallenged(log, e.id))
    requires forall id :: id in s'.challenges ==>
      (id in s.challenges && s'.challenges[id] == s.challenges[id]) || IsChallengeOf(e, id, s'.challenges[id])
    requires e.Challenged? ==> !IdChallenged(log, e.id)
    ensures ChallengesAgree(s', log + [e])
  {
    hide IdAccepted, IdChallenged;
    forall id | id in s'.challenges ensures ChallengeAgrees(log + [e], id, s'.challenges[id]) {
      LogGrows(log, e, "", "", "", id);
      assert e in log + [e];
    }
    forall id | IdAccepted(log + [e], id) ensures IdChallenged(log + [e], id) { LogGrows(log, e, "", "", "", id); }
  }

  ghost predicate IsChallengeOf(e: Event, id: string, c: Challenge) {
    e == Challenged(id, c.user, c.group, c.device, c.ticket, c.pubKey, c.expireAt - CHALLENGE_TTL)
  }

  lemma IssueAgrees(s: State, log: seq<Event>, user: string, group: string, ttl: int, id: string, saved: bool, now: int)
    requires Agrees(s, log) && id !in s.tickets && Done(IssueTicket(s, user, group, ttl, id, saved, now).0)
    ensures var s' := IssueTicket(s, user, group, ttl, id, saved, now).1;
      Agrees(s', log + [Issued(id, user, s'.tickets[id].group, now)])
  {
    hide WasIssued, TicketAccepted, IdAccepted, IdChallenged, Trim, NormalizeGroup;
    var s' := IssueTicket(s, user, group, ttl, id, saved, now).1;
    var e := Issued(id, user, s'.tickets[id].group, now);
    TicketsGrow(s, s', log, e);
    ChallengesGrow(s, s', log, e);
  }

  lemma RequestAgrees(s: State, log: seq<Event>, digest: Blob -> string, user: string, group: string, device: string,
                      ticket: string, pubKey: Blob, id: string, nonce: Blob, now: int)
    requires Agrees(s, log) && !IdChallenged(log, id) &&
      Done(RequestAuth(s, digest, user, group, device, ticket, pubKey, id, nonce, now).0)
    ensures var s' := RequestAuth(s, digest, user, group, device, ticket, pubKey, id, nonce, now).1;
      var e := Challenged(id, user, s'.challenges[id].group, device, ticket, pubKey, now);
      Agrees(s', log + [e]) && Justified(log, e)
  {
    hide WasIssued, TicketAccepted, IdAccepted, IdChallenged, Trim, NormalizeGroup;
    var s' := RequestAuth(s, digest, user, group, device, ticket, pubKey, id, nonce, now).1;
    var e := Challenged(id, user, s'.challenges[id].group, device, ticket, pubKey, now);
    TicketsGrow(s, s', log, e);
    ChallengesGrow(s, s', log, e);
  }

  lemma ProveAgrees(s: State, log: seq<Event>, digest: Blob -> string, id: string, device: string, pubKey: Blob,
                    signed: bool, saved: bool, now: int)
    requires Agrees(s, log) && id in s.challenges && Done(Prove(s, digest, id, device, pubKey, signed, saved, now).0)
    ensures var s' := Prove(s, digest, id, device, pubKey, signed, saved, now).1;
      var e := Accepted(id, s.challenges[id].user, s.challenges[id].group, device, s.challenges[id].ticket, pubKey,
                        now);
      Agrees(s', log + [e]) && Justified(log, e)
  {
    hide WasIssued, TicketAccepted, IdAccepted, Trim, NormalizeGroup;
    var s' := Prove(s, digest, id, device, pubKey, signed, saved, now).1;
    var c := s.challenges[id];
    var e := Accepted(id, c.user, c.group, device, c.ticket, pubKey, now);
    var was := Challenged(id, c.user, c.group, c.device, c.ticket, c.pubKey, c.expireAt - CHALLENGE_TTL);
    assert ChallengeAgrees(log, id, c);
    assert was in log && Answers(e, was);
    hide IdChallenged;
    TicketsGrow(s, s', log, e);
    ChallengesGrow(s, s', log, e);
  }

  /** Every step keeps state and log in agreement, and what it adds to the log is justified. */
  lemma StepAgrees(env: Env, s: State, log: seq<Event>, op: Op, now: int)
    requires DigitsUnfolded(env.fold) && Agrees(s, log) && FreshIds(s, log, op)
    ensures Agrees(Step(env, s, op, now), log + Emits(env, s, op, now)) && |Emits(env, s, op, now)| <= 1
    ensures forall e :: e in Emits(env, s, op, now) ==> Justified(log, e)
  {
    hide Agrees, Justified, IssueTicket, RequestAuth, Prove, IdChallenged;
    if Emits(env, s, op, now) == [] {
      NoEventQuiet(env, s, op, now);
      QuietAgrees(s, Step(env, s, op, now), log);
      assert log + [] == log;
    } else if op.DoIssue? {
      IssueAgrees(s, log, op.user, op.group, op.ttl, op.id, op.saved, now);
      assert Justified(log, Emits(env, s, op, now)[0]) by { IssuedIsJustified(log, Emits(env, s, op, now)[0]); }
    } else if op.DoRequest? {
      RequestAgrees(s, log, env.digest, op.user, op.group, op.device, op.ticket, op.pubKey, op.id, op.nonce, now);
    } else {
      ProveAgrees(s, log, env.digest, op.id, op.device, op.pubKey, op.signed, op.saved, now);
    }
  }

  lemma IssuedIsJustified(log: seq<Event>, e: Event)
    requires e.Issued?
    ensures Justified(log, e)
  {
  }

  // ---------------------------------------------------------------------- runs

  datatype Trace = Trace(state: State, log: seq<Event>)

  const EMPTY: State := State(map[], map[], map[], map[])

  ghost function TraceAt(env: Env, steps: seq<Timed>, i: nat): Trace
    requires DigitsUnfolded(env.fold) && i <= |steps|
  {
    if i == 0 then Trace(EMPTY, [])
    else
      var t, x := TraceAt(env, steps, i - 1), steps[i - 1];
      Trace(Step(env, t.state, x.op, x.now), t.log + Emits(env, t.state, x.op, x.now))
  }

  ghost predicate FreshRun(env: Env, steps: seq<Timed>)
    requires DigitsUnfolded(env.fold)
  {
    forall i :: 0 <= i < |steps| ==> FreshIds(TraceAt(env, steps, i).state, TraceAt(env, steps, i).log, steps[i].op)
  }

  lemma EmptyAgrees()
    ensures Agrees(EMPTY, []) && Lawful([])
  {
  }

  lemma LawfulAppend(log: seq<Event>, es: seq<Event>)
    requires Lawful(log) && |es| <= 1 && forall e :: e in es ==> Justified(log, e)
    ensures Lawful(log + es)
  {
    hide Justified;
    var l := log + es;
    forall j | 0 <= j < |l| ensures Justified(l[..j], l[j]) {
      if j < |log| { assert l[..j] == log[..j]; } else { assert l[..j] == log && l[j] in es; }
    }
  }

  lemma {:induction false} RunAgrees(env: Env, steps: seq<Timed>, i: nat)
    requires DigitsUnfolded(env.fold) && FreshRun(env, steps) && i <= |steps|
    ensures Agrees(TraceAt(env, steps, i).state, TraceAt(env, steps, i).log) && Lawful(TraceAt(env, steps, i).log)
  {
    hide Agrees, Lawful, Step, Emits, Justified, FreshIds, DigitsUnfolded;
    if i == 0 {
      EmptyAgrees();
    } else {
      RunAgrees(env, steps, i - 1);
      var t, x := TraceAt(env, steps, i - 1), steps[i - 1];
      StepAgrees(env, t.state, t.log, x.op, x.now);
      LawfulAppend(t.log, Emits(env, t.state, x.op, x.now));
    }
  }

  /** Over any run each ticket and each challenge yields at most one accepted proof. */
  lemma OneProofEach(env: Env, steps: seq<Timed>, i: nat, j: nat)
    requires DigitsUnfolded(env.fold) && FreshRun(env, steps) && i < j < |TraceAt(env, steps, |steps|).log|
    requires var log := TraceAt(env, steps, |steps|).log; log[i].Accepted? && log[j].Accepted?
    ensures var log := TraceAt(env, steps, |steps|).log; log[i].ticket != log[j].ticket && log[i].id != log[j].id
  {
    RunAgrees(env, steps, |steps|);
    hide TraceAt, Agrees, FreshRun;
    var log := TraceAt(env, steps, |steps|).log;
    assert Justified(log[..j], log[j]);
    assert log[..j][i] == log[i] && log[i] in log[..j];
  }

  /** Every accepted proof answers a challenge made at most a minute before, for the same device and key,
      under a ticket issued before that to that user for that full group. */
  lemma ProofTraced(env: Env, steps: seq<Timed>, j: nat) returns (h: nat, i: nat)
    requires DigitsUnfolded(env.fold) && FreshRun(env, steps) && j < |TraceAt(env, steps, |steps|).log|
    requires TraceAt(env, steps, |steps|).log[j].Accepted?
    ensures var log := TraceAt(env, steps, |steps|).log;
      && h < i < j && Answers(log[j], log[i])
      && log[h].Issued? && log[h].ticket == log[j].ticket && log[h].user == log[j].user && log[h].group == log[j].group
  {
    RunAgrees(env, steps, |steps|);
    hide TraceAt, Agrees, FreshRun;
    var log := TraceAt(env, steps, |steps|).log;
    assert Justified(log[..j], log[j]);
    var c :| c in log[..j] && Answers(log[j], c);
    i :| 0 <= i < j && log[..j][i] == c;
    assert Justified(log[..i], log[i]);
    var at :| Issued(c.ticket, c.user, c.group, at) in log[..i];
    h :| 0 <= h < i && log[..i][h] == Issued(c.ticket, c.user, c.group, at);
  }

  ghost predicate Used(s: State, ticket: string) {
    ticket in s.tickets && s.tickets[ticket].used
  }

  lemma StepKeepsUsed(env: Env, s: State, log: seq<Event>, op: Op, now: int, ticket: string)
    requires DigitsUnfolded(env.fold) && Used(s, ticket) && FreshIds(s, log, op)
    ensures Used(Step(env, s, op, now), ticket)
  {
    hide Trim, NormalizeGroup, Taken, TakenByOther, CheckName, UniqueName, Matches, IdChallenged;
  }

  /** Used tickets stay used. */
  lemma {:induction false} UsedStaysUsed(env: Env, steps: seq<Timed>, i: nat, j: nat, ticket: string)
    requires DigitsUnfolded(env.fold) && FreshRun(env, steps) && i <= j <= |steps| &&
      Used(TraceAt(env, steps, i).state, ticket)
    ensures Used(TraceAt(env, steps, j).state, ticket)
    decreases j
  {
    hide Step, Emits, DigitsUnfolded, FreshIds, Used;
    if i < j {
      UsedStaysUsed(env, steps, i, j - 1, ticket);
      var t, x := TraceAt(env, steps, j - 1), steps[j - 1];
      StepKeepsUsed(env, t.state, t.log, x.op, x.now, ticket);
    }
  }

  // --------------------------------------------------- when a proof is accepted

  /** What a challenge was made from is still there when it is answered. */
  ghost predicate Backed(s: State, c: Challenge) {
    && c.user != "" && c.group != "" && c.device != "" && c.ticket != "" && c.pubKey != []
    && c.user in s.users && NormalizeGroup(c.group, s.users[c.user]) == Some(c.group)
    && c.ticket in s.tickets && s.tickets[c.ticket].user == c.user && s.tickets[c.ticket].group == c.group
  }

  ghost predicate GoodRecords(authed: Records) {
    Filed(authed) && forall k :: k in authed ==> IsTrimmed(authed[k].group) && authed[k].group != ""
  }

  ghost predicate GoodTickets(tickets: map<string, Ticket>) {
    forall t :: t in tickets ==> IsTrimmed(tickets[t].group) && tickets[t].group != ""
  }

  ghost predicate GoodUsers(users: map<string, string>) {
    forall u :: u in users ==> IsTrimmed(users[u]) && users[u] != ""
  }

  ghost predicate GoodChallenges(s: State) {
    forall id :: id in s.challenges ==> Backed(s, s.challenges[id])
  }

  /** Records sit under their own keys, under trimmed full group names; challenges are backed. */
  ghost predicate Good(s: State) {
    GoodRecords(s.authed) && GoodTickets(s.tickets) && GoodUsers(s.users) && GoodChallenges(s)
  }

  /** A proof is accepted exactly when its challenge is there and not over, names this device and key,
      the signature is good, and the ticket is still unused and unexpired.  In particular a group
      normalised at the challenge passes unchanged through the second normalisation. */
  lemma AcceptedExactly(env: Env, s: State, id: string, device: string, pubKey: Blob, signed: bool, saved: bool,
                        now: int)
    requires Good(s)
    ensures Done(Prove(s, env.digest, id, device, pubKey, signed, saved, now).0) <==>
      && id in s.challenges && now <= s.challenges[id].expireAt
      && s.challenges[id].device == device && s.challenges[id].pubKey == pubKey && signed
      && !s.tickets[s.challenges[id].ticket].used && now <= s.tickets[s.challenges[id].ticket].expireAt
  {
    hide NormalizeGroup, GoodRecords, GoodTickets, GoodUsers, AuthKey, Trim;
    if id in s.challenges { assert Backed(s, s.challenges[id]); }
  }

  /** Users are never removed or moved to another domain, tickets keep user and group, so backing lasts. */
  ghost predicate Preserves(s: State, s': State) {
    && (forall u :: u in s.users ==> u in s'.users && s'.users[u] == s.users[u])
    && (forall t :: t in s.tickets ==>
        t in s'.tickets && s'.tickets[t].user == s.tickets[t].user && s'.tickets[t].group == s.tickets[t].group)
  }

  lemma BackingLasts(s: State, s': State)
    requires GoodChallenges(s) && Preserves(s, s') && Quietly(s, s')
    ensures GoodChallenges(s')
  {
    hide NormalizeGroup;
    forall id | id in s'.challenges ensures Backed(s', s'.challenges[id]) { assert Backed(s, s.challenges[id]); }
  }

  ghost predicate Quietly(s: State, s': State) {
    forall id :: id in s'.challenges ==> id in s.challenges && s'.challenges[id] == s.challenges[id]
  }

  lemma RenamedGood(authed: Records, key: string, name: string)
    requires GoodRecords(authed) && key in authed
    ensures GoodRecords(authed[key := authed[key].(name := name)])
  {
  }

  /** The remaining steps change users, or the name or presence of records, and nothing else. */
  lemma AdminGood(env: Env, s: State, op: Op, now: int)
    requires DigitsUnfolded(env.fold) && Good(s) && !op.DoProve? && !op.DoRequest? && !op.DoIssue? && !op.DoAddUser?
    ensures Good(Step(env, s, op, now))
  {
    hide NormalizeGroup, Taken, TakenByOther, CheckName, UniqueName, AuthKey, Trim, Backed, GoodTickets, GoodUsers,
         GoodChallenges, GoodRecords;
    var s' := Step(env, s, op, now);
    BackingLasts(s, s.(authed := s'.authed));
    if op.DoDelete? {
      DeleteGoodRecords(s, op.user, op.group, op.device, op.saved);
    } else if s'.authed != s.authed {
      var key :| key in s.authed && s'.authed == s.authed[key := s.authed[key].(name := s'.authed[key].name)];
      RenamedGood(s.authed, key, s'.authed[key].name);
    }
  }

  lemma DeleteGoodRecords(s: State, user: string, group: string, device: string, saved: bool)
    requires GoodRecords(s.authed)
    ensures GoodRecords(DeleteDevice(s, user, group, device, saved).1.authed)
  {
    hide NormalizeGroup, Trim, AuthKey, IsTrimmed;
  }

  lemma AddUserGood(s: State, id: string, domain: string, group: string, saved: bool)
    requires Good(s)
    ensures Good(AddUser(s, id, domain, group, saved).1)
  {
    TrimSound(domain);
    hide NormalizeGroup, Trim, GoodRecords, GoodTickets, Backed, GoodChallenges;
    BackingLasts(s, AddUser(s, id, domain, group, saved).1);
  }

  lemma IssueGood(s: State, user: string, group: string, ttl: int, id: string, saved: bool, now: int)
    requires Good(s) && id !in s.tickets
    ensures Good(IssueTicket(s, user, group, ttl, id, saved, now).1)
  {
    hide IssueTicket, GoodRecords, GoodUsers, GoodTickets, GoodChallenges, Preserves;
    IssueKeeps(s, user, group, ttl, id, saved, now);
    BackingLasts(s, IssueTicket(s, user, group, ttl, id, saved, now).1);
  }

  lemma IssueKeeps(s: State, user: string, group: string, ttl: int, id: string, saved: bool, now: int)
    requires GoodTickets(s.tickets) && GoodUsers(s.users) && id !in s.tickets
    ensures var s' := IssueTicket(s, user, group, ttl, id, saved, now).1;
      Preserves(s, s') && GoodTickets(s'.tickets) && s' == s.(tickets := s'.tickets)
  {
    TrimSound(group);
    if user in s.users && Trim(group) != "" { NormalizeTrimmed(Trim(group), s.users[user]); }
    hide NormalizeGroup, Trim, IsTrimmed;
  }

  lemma RequestGood(s: State, digest: Blob -> string, user: string, group: string, device: string, ticket: string,
                    pubKey: Blob, id: string, nonce: Blob, now: int)
    requires Good(s)
    ensures Good(RequestAuth(s, digest, user, group, device, ticket, pubKey, id, nonce, now).1)
  {
    if user in s.users { NormalizeIdempotent(group, s.users[user]); }
    hide NormalizeGroup, Trim, IsTrimmed, GoodRecords, GoodUsers;
    assert forall c :: Backed(s, c) ==>
      Backed(RequestAuth(s, digest, user, group, device, ticket, pubKey, id, nonce, now).1, c);
  }

  lemma ProveGood(s: State, digest: Blob -> string, id: string, device: string, pubKey: Blob, signed: bool, saved: bool,
                  now: int)
    requires Good(s)
    ensures Good(Prove(s, digest, id, device, pubKey, signed, saved, now).1)
  {
    hide Prove, GoodChallenges, GoodUsers, GoodTickets, GoodRecords, Preserves;
    ProveKeeps(s, digest, id, device, pubKey, signed, saved, now);
    ProveFiles(s, digest, id, device, pubKey, signed, saved, now);
    BackingLasts(s, Prove(s, digest, id, device, pubKey, signed, saved, now).1);
  }

  lemma AuthoriseKeeps(s: State, digest: Blob -> string, user: string, group: string, device: string, ticket: string,
                       pubKey: Blob, saved: bool, now: int)
    requires GoodTickets(s.tickets)
    ensures var s' := Authorise(s, digest, user, group, device, ticket, pubKey, saved, now).1;
      Preserves(s, s') && GoodTickets(s'.tickets) && s'.users == s.users && s'.challenges == s.challenges
  {
    hide NormalizeGroup, Trim, IsTrimmed, AuthKey;
  }

  lemma ProveKeeps(s: State, digest: Blob -> string, id: string, device: string, pubKey: Blob, signed: bool,
                   saved: bool, now: int)
    requires GoodTickets(s.tickets)
    ensures var s' := Prove(s, digest, id, device, pubKey, signed, saved, now).1;
      Preserves(s, s') && Quietly(s, s') && GoodTickets(s'.tickets) && s'.users == s.users
  {
    hide Authorise, GoodTickets;
    if id in s.challenges {
      var c := s.challenges[id];
      AuthoriseKeeps(s.(challenges := s.challenges - {id}), digest, c.user, c.group, c.device, c.ticket, c.pubKey,
                     saved, now);
    }
  }

  lemma ProveFiles(s: State, digest: Blob -> string, id: string, device: string, pubKey: Blob, signed: bool,
                   saved: bool, now: int)
    requires GoodTickets(s.tickets) && GoodRecords(s.authed)
    ensures GoodRecords(Prove(s, digest, id, device, pubKey, signed, saved, now).1.authed)
  {
    hide NormalizeGroup, Trim, IsTrimmed, AuthKey;
  }

  lemma StepGood(env: Env, s: State, log: seq<Event>, op: Op, now: int)
    requires DigitsUnfolded(env.fold) && Good(s) && FreshIds(s, log, op)
    ensures Good(Step(env, s, op, now))
  {
    hide Good, IssueTicket, RequestAuth, Prove, IdChallenged, AddUser;
    if op.DoIssue? {
      IssueGood(s, op.user, op.group, op.ttl, op.id, op.saved, now);
    } else if op.DoRequest? {
      RequestGood(s, env.digest, op.user, op.group, op.device, op.ticket, op.pubKey, op.id, op.nonce, now);
    } else if op.DoProve? {
      ProveGood(s, env.digest, op.id, op.device, op.pubKey, op.signed, op.saved, now);
    } else if op.DoAddUser? {
      AddUserGood(s, op.user, op.domain, op.group, op.saved);
    } else {
      AdminGood(env, s, op, now);
    }
  }

  lemma {:induction false} RunGood(env: Env, steps: seq<Timed>, i: nat)
    requires DigitsUnfolded(env.fold) && FreshRun(env, steps) && i <= |steps|
    ensures Good(TraceAt(env, steps, i).state)
  {
    hide Step, Emits, DigitsUnfolded, FreshIds, Good;
    if i == 0 {
      EmptyGood();
    } else {
      RunGood(env, steps, i - 1);
      var t, x := TraceAt(env, steps, i - 1), steps[i - 1];
      StepGood(env, t.state, t.log, x.op, x.now);
    }
  }

  lemma EmptyGood()
    ensures Good(EMPTY)
  {
  }

  // ------------------------------------------------------------------ unique names

  /** The record an accepted proof would store. */
  function ProofRecord(env: Env, s: State, id: string, now: int): Record
    requires id in s.challenges
  {
    var c := s.challenges[id];
    var key := AuthKey(c.group, c.device);
    Record(c.user, c.group, c.device, if key in s.authed then Trim(s.authed[key].name)
           else "", env.digest(c.pubKey), now + AUTH_TTL)
  }

  ghost predicate NoClash(env: Env, authed: Records, r: Record) {
    forall k :: k in authed && k != AuthKey(r.group, r.device) ==> !Clash(env.fold, r, authed[k])
  }

  /** An accepted proof keeps names unique exactly when the device's name is free in the network of its new owner. */
  lemma ProveNames(env: Env, s: State, id: string, device: string, pubKey: Blob, signed: bool, saved: bool, now: int)
    requires Good(s) && UniqueNames(env.fold, s.authed) && id in s.challenges
    requires Done(Prove(s, env.digest, id, device, pubKey, signed, saved, now).0)
    ensures UniqueNames(env.fold, Prove(s, env.digest, id, device, pubKey, signed, saved, now).1.authed) <==>
      NoClash(env, s.authed, ProofRecord(env, s, id, now))
  {
    hide Prove, UniqueNames, Good;
    ProofStores(env, s, id, device, pubKey, signed, saved, now);
    StoreUnique(env.fold, s.authed, AuthKey(s.challenges[id].group, s.challenges[id].device),
                ProofRecord(env, s, id, now));
  }

  lemma ProofStores(env: Env, s: State, id: string, device: string, pubKey: Blob, signed: bool, saved: bool, now: int)
    requires Good(s) && id in s.challenges && Done(Prove(s, env.digest, id, device, pubKey, signed, saved, now).0)
    ensures Prove(s, env.digest, id, device, pubKey, signed, saved, now).1.authed ==
      s.authed[AuthKey(s.challenges[id].group, s.challenges[id].device) := ProofRecord(env, s, id, now)]
  {
    hide NormalizeGroup, Trim, AuthKey, GoodRecords, GoodTickets, GoodUsers;
    assert Backed(s, s.challenges[id]);
  }

  /** In particular when the device stays in its network, or has no name yet. */
  lemma StayingIsNoClash(env: Env, s: State, id: string, now: int)
    requires UniqueNames(env.fold, s.authed) && id in s.challenges
    requires var c, key := s.challenges[id], AuthKey(s.challenges[id].group, s.challenges[id].device);
      key in s.authed && Trim(s.authed[key].name) != "" ==> NetworkOf(s.authed[key]) == NetworkKey(c.group, c.user)
    ensures NoClash(env, s.authed, ProofRecord(env, s, id, now))
  {
    var c, r := s.challenges[id], ProofRecord(env, s, id, now);
    var key := AuthKey(c.group, c.device);
    TrimSound(if key in s.authed then s.authed[key].name else "");
    forall k | k in s.authed && k != key ensures !Clash(env.fold, r, s.authed[k]) {
      if key in s.authed { assert !Clash(env.fold, s.authed[key], s.authed[k]); }
    }
  }

  /** Records of the device id under another key, in the record's network. */
  ghost predicate Twin(s: State, group: string, device: string, k: string) {
    && AuthKey(group, device) in s.authed && k in s.authed && k != AuthKey(group, device)
    && s.authed[k].device == device && NetworkOf(s.authed[k]) == NetworkOf(s.authed[AuthKey(group, device)])
  }

  /** A device setting its own name keeps names unique exactly when no twin bears it. */
  lemma SetNameNames(env: Env, s: State, group: string, device: string, name: string, saved: bool)
    requires UniqueNames(env.fold, s.authed) && Done(SetName(s, env.fold, group, device, name, saved).0)
    ensures UniqueNames(env.fold, SetName(s, env.fold, group, device, name, saved).1.authed) <==>
      forall k :: Twin(s, group, device, k) ==> !Bears(env.fold, s.authed[k], Trim(name))
  {
    hide Bears;
    var key := AuthKey(group, device);
    var r := s.authed[key].(name := Trim(name));
    TrimSound(name);
    StoreUnique(env.fold, s.authed, key, r);
    forall k | k in s.authed && k != key ensures Clash(env.fold, r, s.authed[k]) <==>
      Twin(s, group, device, k) && Bears(env.fold, s.authed[k], Trim(name)) {
    }
  }

  /** Plain user and group names leave no room for twins. */
  lemma NoTwins(s: State, group: string, device: string, k: string)
    requires Good(s) && (forall j :: j in s.authed ==> PlainNames(s.authed[j].group, s.authed[j].user)) && '|' !in group
    requires AuthKey(group, device) in s.authed && '|' !in s.authed[AuthKey(group, device)].group
    ensures !Twin(s, group, device, k)
  {
    if Twin(s, group, device, k) {
      var a, b := s.authed[AuthKey(group, device)], s.authed[k];
      AuthKeyExact(group, device, a.group, a.device);
      NetworkKeyExact(a.group, a.user, b.group, b.user);
      TrimSound(a.group);
      TrimSound(b.group);
    }
  }

  lemma AssignNames(env: Env, s: State, group: string, device: string, name: string, saved: bool)
    requires DigitsUnfolded(env.fold) && Good(s) && UniqueNames(env.fold, s.authed)
    ensures UniqueNames(env.fold, AssignName(s, env.fold, group, device, name, saved).1.authed)
  {
    hide Taken, UniqueNames, DigitsUnfolded;
    var key, s' := AuthKey(group, device), AssignName(s, env.fold, group, device, name, saved).1;
    if s' != s {
      TrimSound(name);
      var n := UniqueName(env.fold, s.authed, s.authed[key], Trim(name));
      TrimSound(n);
      assert Filed(s.authed);
      FreeNameUnique(env.fold, s.authed, key, s.authed[key], n);
    }
  }

  lemma RenameNames(env: Env, s: State, user: string, group: string, device: string, name: string, saved: bool)
    requires Good(s) && UniqueNames(env.fold, s.authed)
    ensures UniqueNames(env.fold, Accounts.RenameDevice(s, env.fold, user, group, device, name, saved).1.authed)
  {
    hide Taken, UniqueNames, Select;
    var s' := Accounts.RenameDevice(s, env.fold, user, group, device, name, saved).1;
    if s' != s {
      TrimSound(name);
      var key := SelectIsSingle(s, user, group, device);
      FreeNameUnique(env.fold, s.authed, key, s.authed[key], Trim(name));
    }
  }

  /** The step is a proof, and it is accepted. */
  predicate Proves(env: Env, s: State, op: Op, now: int) {
    op.DoProve? && op.id in s.challenges &&
      Done(Prove(s, env.digest, op.id, op.device, op.pubKey, op.signed, op.saved, now).0)
  }

  predicate SetsName(env: Env, s: State, op: Op) {
    op.DoSetName? && Done(SetName(s, env.fold, op.group, op.device, op.name, op.saved).0)
  }

  /** The two side conditions: an accepted proof brings no taken name into a network, and no twin bears a name set. */
  ghost predicate Gentle(env: Env, s: State, op: Op, now: int) {
    && (Proves(env, s, op, now) ==> NoClash(env, s.authed, ProofRecord(env, s, op.id, now)))
    && (SetsName(env, s, op) ==> forall k :: Twin(s, op.group, op.device, k) ==>
        !Bears(env.fold, s.authed[k], Trim(op.name)))
  }

  /** Every step: names stay unique exactly when the step is gentle. */
  lemma StepNames(env: Env, s: State, op: Op, now: int)
    requires DigitsUnfolded(env.fold) && Good(s) && UniqueNames(env.fold, s.authed)
    ensures UniqueNames(env.fold, Step(env, s, op, now).authed) <==> Gentle(env, s, op, now)
  {
    hide Good, UniqueNames, DigitsUnfolded, AssignName, SetName, Prove, NoClash, Twin, Bears, NormalizeGroup, Trim,
         ProofRecord;
    match op
    case DoAssign(group, device, name, saved) => AssignNames(env, s, group, device, name, saved);
    case DoRename(user, group, device, name, saved) => RenameNames(env, s, user, group, device, name, saved);
    case DoDelete(user, group, device, saved) =>
      if Select(s, user, group, device).Ok? { DropUnique(env.fold, s.authed, Select(s, user, group, device).value); }
    case DoSetName(group, device, name, saved) =>
      if Done(SetName(s, env.fold, group, device, name, saved).0) {
        SetNameNames(env, s, group, device, name, saved);
      } else {
        SetNameFails(env, s, group, device, name, saved);
      }
    case DoProve(id, device, pubKey, signed, saved) =>
      if id in s.challenges && Done(Prove(s, env.digest, id, device, pubKey, signed, saved, now).0) {
        ProveNames(env, s, id, device, pubKey, signed, saved, now);
      } else {
        ProveFails(env, s, id, device, pubKey, signed, saved, now);
      }
    case _ =>
  }

  lemma SetNameFails(env: Env, s: State, group: string, device: string, name: string, saved: bool)
    ensures Done(SetName(s, env.fold, group, device, name, saved).0) ||
      SetName(s, env.fold, group, device, name, saved).1 == s
  {
  }

  /** A refused proof changes no record and no ticket. */
  lemma ProveFails(env: Env, s: State, id: string, device: string, pubKey: Blob, signed: bool, saved: bool, now: int)
    ensures var r := Prove(s, env.digest, id, device, pubKey, signed, saved, now);
      !(Done(r.0) && id in s.challenges) ==> r.1 == s.(challenges := s.challenges - {id})
  {
  }

  ghost predicate GentleAt(env: Env, steps: seq<Timed>, i: nat)
    requires DigitsUnfolded(env.fold) && i < |steps|
  {
    Gentle(env, TraceAt(env, steps, i).state, steps[i].op, steps[i].now)
  }

  ghost predicate UniqueAt(env: Env, steps: seq<Timed>, i: nat)
    requires DigitsUnfolded(env.fold) && i <= |steps|
  {
    UniqueNames(env.fold, TraceAt(env, steps, i).state.authed)
  }

  lemma UniqueAtStart(env: Env, steps: seq<Timed>)
    requires DigitsUnfolded(env.fold)
    ensures UniqueAt(env, steps, 0)
  {
    hide DigitsUnfolded;
  }

  lemma UniqueNext(env: Env, steps: seq<Timed>, i: nat)
    requires DigitsUnfolded(env.fold) && FreshRun(env, steps) && i < |steps| && UniqueAt(env, steps, i)
    ensures UniqueAt(env, steps, i + 1) <==> GentleAt(env, steps, i)
  {
    hide Step, Emits, DigitsUnfolded, FreshIds, Good, Gentle, UniqueNames;
    RunGood(env, steps, i);
    StepNames(env, TraceAt(env, steps, i).state, steps[i].op, steps[i].now);
  }

  /** No two devices of a network ever bear the same name, up to case, exactly when every step is gentle. */
  lemma {:induction false} GentleRunUnique(env: Env, steps: seq<Timed>, n: nat)
    requires DigitsUnfolded(env.fold) && FreshRun(env, steps) && n <= |steps|
    ensures (forall i :: 0 <= i <= n ==> UniqueAt(env, steps, i)) <==>
      (forall i :: 0 <= i < n ==> GentleAt(env, steps, i))
  {
    hide DigitsUnfolded, FreshRun, GentleAt, UniqueAt;
    if n == 0 {
      UniqueAtStart(env, steps);
    } else {
      GentleRunUnique(env, steps, n - 1);
      if UniqueAt(env, steps, n - 1) { UniqueNext(env, steps, n - 1); }
    }
  }
}
