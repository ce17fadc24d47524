/** Tickets, challenges and proofs traced to the requests that made them, and the records of devices to the last
    proof accepted for each. */
module AccountsTraces {
  import opened Text
  import opened Identity
  import opened Names
  import opened Accounts
  import opened AccountsRuns

  // ---------------------------------------------------------- when a request goes through

  /** A ticket is issued exactly for a known user, a positive time and a group of the user's domain. */
  lemma IssuedExactly(s: State, user: string, group: string, ttl: int, id: string, saved: bool, now: int, full: string)
    requires Good(s)
    ensures var r := IssueTicket(s, user, group, ttl, id, saved, now);
      Done(r.0) && id in r.1.tickets && r.1.tickets[id] == Ticket(user, full, now + ttl, false) <==>
        user != "" && Trim(group) != "" && ttl > 0 && user in s.users && IsFullName(Trim(group), s.users[user], full)
    ensures !Done(IssueTicket(s, user, group, ttl, id, saved, now).0) ==>
      IssueTicket(s, user, group, ttl, id, saved, now).1 == s
  {
    if user in s.users {
      TrimSound(s.users[user]);
      NormalizeExactly(Trim(group), s.users[user], full);
    }
    hide NormalizeGroup, IsFullName, Trim;
  }

  /** The ticket opens the group to the user now: it is unused and unexpired, and was issued to them for its full name.
      */
  ghost predicate Opens(s: State, user: string, group: string, device: string, ticket: string, now: int, full: string) {
    && user != "" && group != "" && device != "" && ticket != "" && user in s.users && ticket in s.tickets
    && !s.tickets[ticket].used && now <= s.tickets[ticket].expireAt
    && s.tickets[ticket].user == user && s.tickets[ticket].group == full && IsFullName(group, s.users[user], full)
  }

  lemma ValidatedExactly(s: State, user: string, group: string, device: string, ticket: string, now: int, full: string)
    requires Good(s)
    ensures ValidateAuth(s, user, group, device, ticket, now) == Ok(full) <==>
      Opens(s, user, group, device, ticket, now, full)
  {
    if user in s.users {
      TrimSound(s.users[user]);
      NormalizeExactly(group, s.users[user], full);
    }
    hide NormalizeGroup, IsFullName, Trim;
  }

  /** A challenge is made exactly for a ticket that opens the group, with a key; it is good for a minute. */
  lemma ChallengedExactly(env: Env, s: State, op: Op, now: int, full: string)
    requires Good(s) && op.DoRequest?
    ensures var r := RequestAuth(s, env.digest, op.user, op.group, op.device, op.ticket, op.pubKey, op.id, op.nonce,
                                 now);
      && (Done(r.0) && op.id in r.1.challenges && r.1.challenges[op.id].group == full <==>
            Opens(s, op.user, op.group, op.device, op.ticket, now, full) && op.pubKey != [])
      && (Done(r.0) ==>
            && op.id in r.1.challenges
            && var c := r.1.challenges[op.id];
            && c.user == op.user && c.device == op.device && c.ticket == op.ticket && c.pubKey == op.pubKey
            && c.nonce == op.nonce && c.expireAt == now + CHALLENGE_TTL
            && (c.reauthRequired <==> AuthKey(c.group, c.device) in s.authed &&
                                      s.authed[AuthKey(c.group, c.device)].pubKeyHex != env.digest(c.pubKey)))
      && (!Done(r.0) ==> r.1 == s)
  {
    ValidatedExactly(s, op.user, op.group, op.device, op.ticket, now, full);
    hide Opens, ValidateAuth, AuthKey;
  }

  // ------------------------------------------------------------- from the log to the steps

  ghost predicate EmittedAt(env: Env, steps: seq<Timed>, i: nat, e: Event)
    requires DigitsUnfolded(env.fold) && i < |steps|
  {
    e in Emits(env, TraceAt(env, steps, i).state, steps[i].op, steps[i].now)
  }

  lemma {:induction false} EventHasStep(env: Env, steps: seq<Timed>, n: nat, e: Event) returns (i: nat)
    requires DigitsUnfolded(env.fold) && n <= |steps| && e in TraceAt(env, steps, n).log
    ensures i < n && EmittedAt(env, steps, i, e)
  {
    hide Step, Emits, DigitsUnfolded;
    if e in TraceAt(env, steps, n - 1).log {
      i := EventHasStep(env, steps, n - 1, e);
    } else {
      i := n - 1;
    }
  }

  lemma EmittedJustified(env: Env, steps: seq<Timed>, i: nat, e: Event)
    requires DigitsUnfolded(env.fold) && FreshRun(env, steps) && i < |steps| && EmittedAt(env, steps, i, e)
    ensures Justified(TraceAt(env, steps, i).log, e)
  {
    RunAgrees(env, steps, i + 1);
    OneEvent(env, TraceAt(env, steps, i).state, steps[i].op, steps[i].now);
    hide Step, Emits, DigitsUnfolded, Justified, Agrees, FreshRun;
    var log := TraceAt(env, steps, i + 1).log;
    assert log == TraceAt(env, steps, i).log + [e];
    assert log[..|log| - 1] == TraceAt(env, steps, i).log && log[|log| - 1] == e;
  }

  lemma OneEvent(env: Env, s: State, op: Op, now: int)
    ensures |Emits(env, s, op, now)| <= 1
  {
    hide IssueTicket, RequestAuth, Prove;
  }

  /** Step `i` issues a ticket, makes a challenge, accepts a proof: the answer says so. */
  ghost predicate IssuesAt(env: Env, steps: seq<Timed>, i: nat)
    requires DigitsUnfolded(env.fold) && i < |steps|
  {
    var s, op := TraceAt(env, steps, i).state, steps[i].op;
    op.DoIssue? && Done(IssueTicket(s, op.user, op.group, op.ttl, op.id, op.saved, steps[i].now).0)
  }

  ghost predicate ChallengesAt(env: Env, steps: seq<Timed>, i: nat)
    requires DigitsUnfolded(env.fold) && i < |steps|
  {
    var s, op := TraceAt(env, steps, i).state, steps[i].op;
    op.DoRequest? && Done(RequestAuth(s, env.digest, op.user, op.group, op.device, op.ticket, op.pubKey, op.id,
                                      op.nonce,
                                      steps[i].now).0)
  }

  ghost predicate AcceptsAt(env: Env, steps: seq<Timed>, i: nat)
    requires DigitsUnfolded(env.fold) && i < |steps|
  {
    var s, op := TraceAt(env, steps, i).state, steps[i].op;
    op.DoProve? && Done(Prove(s, env.digest, op.id, op.device, op.pubKey, op.signed, op.saved, steps[i].now).0)
  }

  /** The group the user asked for when the ticket was issued and the one the device asks for have this full name. */
  ghost predicate SameGroup(issue: Op, request: Op, domain: string, full: string) {
    && issue.DoIssue? && request.DoRequest?
    && IsFullName(Trim(issue.group), domain, full) && IsFullName(request.group, domain, full)
  }

  lemma AcceptedStep(env: Env, steps: seq<Timed>, j: nat) returns (e: Event)
    requires DigitsUnfolded(env.fold) && FreshRun(env, steps) && j < |steps| && AcceptsAt(env, steps, j)
    ensures EmittedAt(env, steps, j, e) && e.Accepted? && steps[j].op.id in TraceAt(env, steps, j).state.challenges
    ensures var c, op := TraceAt(env, steps, j).state.challenges[steps[j].op.id], steps[j].op;
      && e == Accepted(op.id, c.user, c.group, c.device, c.ticket, c.pubKey, steps[j].now)
      && op.signed && c.device == op.device && c.pubKey == op.pubKey
  {
    var s, op := TraceAt(env, steps, j).state, steps[j].op;
    RunGood(env, steps, j);
    AcceptedExactly(env, s, op.id, op.device, op.pubKey, op.signed, op.saved, steps[j].now);
    hide TraceAt, Good, Prove, FreshRun;
    e := Accepted(op.id, s.challenges[op.id].user, s.challenges[op.id].group, op.device, s.challenges[op.id].ticket,
                  op.pubKey, steps[j].now);
  }

  lemma ChallengedStep(env: Env, steps: seq<Timed>, i: nat, e: Event)
    requires DigitsUnfolded(env.fold) && FreshRun(env, steps) && i < |steps| && EmittedAt(env, steps, i, e) &&
      e.Challenged?
    ensures ChallengesAt(env, steps, i) && steps[i].op.DoRequest?
    ensures var op := steps[i].op;
      && e == Challenged(op.id, op.user, e.group, op.device, op.ticket, op.pubKey, steps[i].now)
      && op.user in TraceAt(env, steps, i).state.users
      && IsFullName(op.group, TraceAt(env, steps, i).state.users[op.user], e.group)
  {
    RunGood(env, steps, i);
    var s, op := TraceAt(env, steps, i).state, steps[i].op;
    hide TraceAt, FreshRun, Good, IssueTicket, Prove, RequestAuth;
    if op.DoRequest? { ChallengedExactly(env, s, op, steps[i].now, e.group); }
    hide IsFullName;
  }

  lemma IssuedStep(env: Env, steps: seq<Timed>, i: nat, e: Event)
    requires DigitsUnfolded(env.fold) && FreshRun(env, steps) && i < |steps| && EmittedAt(env, steps, i, e) && e.Issued?
    ensures IssuesAt(env, steps, i) && steps[i].op.DoIssue?
    ensures var op := steps[i].op;
      && e == Issued(op.id, op.user, e.group, steps[i].now) && op.user in TraceAt(env, steps, i).state.users
      && IsFullName(Trim(op.group), TraceAt(env, steps, i).state.users[op.user], e.group)
  {
    RunGood(env, steps, i);
    var s, op := TraceAt(env, steps, i).state, steps[i].op;
    hide TraceAt, FreshRun, Good, Prove, RequestAuth;
    if op.DoIssue? { IssuedExactly(s, op.user, op.group, op.ttl, op.id, op.saved, steps[i].now, e.group); }
    hide IsFullName, NormalizeGroup, Trim;
  }

  lemma StepKeepsUsers(env: Env, s: State, op: Op, now: int, u: string)
    requires DigitsUnfolded(env.fold) && u in s.users
    ensures u in Step(env, s, op, now).users && Step(env, s, op, now).users[u] == s.users[u]
  {
    hide Trim, NormalizeGroup, Taken, TakenByOther, CheckName, UniqueName, Matches, DigitsUnfolded, AuthKey;
  }

  lemma {:induction false} UserStays(env: Env, steps: seq<Timed>, i: nat, j: nat, u: string)
    requires DigitsUnfolded(env.fold) && i <= j <= |steps| && u in TraceAt(env, steps, i).state.users
    ensures u in TraceAt(env, steps, j).state.users &&
      TraceAt(env, steps, j).state.users[u] == TraceAt(env, steps, i).state.users[u]
    decreases j
  {
    hide Step, Emits, DigitsUnfolded;
    if i < j {
      UserStays(env, steps, i, j - 1, u);
      StepKeepsUsers(env, TraceAt(env, steps, j - 1).state, steps[j - 1].op, steps[j - 1].now, u);
    }
  }

  /** Every accepted proof, signed, answers the challenge a request for the same device and key got at most a minute
      before, under a ticket issued before that to the same user; and the group the device asked for is the one the
      user asked for, up to the user's domain. */
  lemma ProofHasRequest(env: Env, steps: seq<Timed>, j: nat) returns (h: nat, i: nat, full: string)
    requires DigitsUnfolded(env.fold) && FreshRun(env, steps) && j < |steps| && AcceptsAt(env, steps, j)
    ensures h < i < j && IssuesAt(env, steps, h) && ChallengesAt(env, steps, i)
    ensures var issue, request, proof := steps[h].op, steps[i].op, steps[j].op;
      && proof.signed && request.id == proof.id && request.device == proof.device && request.pubKey == proof.pubKey
      && steps[j].now <= steps[i].now + CHALLENGE_TTL
      && issue.id == request.ticket && issue.user == request.user
      && request.user in TraceAt(env, steps, j).state.users
      && SameGroup(issue, request, TraceAt(env, steps, j).state.users[request.user], full)
    ensures steps[j].op.id in TraceAt(env, steps, j).state.challenges &&
      TraceAt(env, steps, j).state.challenges[steps[j].op.id].group == full &&
      TraceAt(env, steps, j).state.challenges[steps[j].op.id].ticket == steps[i].op.ticket
  {
    hide TraceAt, FreshRun, DigitsUnfolded, Emits, Step, IsFullName, IssuesAt, ChallengesAt, AcceptsAt, EmittedAt;
    var e := AcceptedStep(env, steps, j);
    EmittedJustified(env, steps, j, e);
    var c :| c in TraceAt(env, steps, j).log && Answers(e, c);
    i := EventHasStep(env, steps, j, c);
    ChallengedStep(env, steps, i, c);
    EmittedJustified(env, steps, i, c);
    var at :| Issued(c.ticket, c.user, c.group, at) in TraceAt(env, steps, i).log;
    h := EventHasStep(env, steps, i, Issued(c.ticket, c.user, c.group, at));
    IssuedStep(env, steps, h, Issued(c.ticket, c.user, c.group, at));
    UserStays(env, steps, h, j, c.user);
    UserStays(env, steps, i, j, c.user);
    full := c.group;
  }

  /** No two accepted proofs answer the same challenge or use the same ticket. */
  lemma OneProofPerTicket(env: Env, steps: seq<Timed>, i: nat, j: nat)
    requires DigitsUnfolded(env.fold) && FreshRun(env, steps) && i < j < |steps|
    requires AcceptsAt(env, steps, i) && AcceptsAt(env, steps, j)
    ensures steps[i].op.id != steps[j].op.id
    ensures steps[i].op.id in TraceAt(env, steps, i).state.challenges &&
      steps[j].op.id in TraceAt(env, steps, j).state.challenges
    ensures TraceAt(env, steps, i).state.challenges[steps[i].op.id].ticket !=
            TraceAt(env, steps, j).state.challenges[steps[j].op.id].ticket
  {
    hide TraceAt, FreshRun, DigitsUnfolded, Emits, Step, AcceptsAt, EmittedAt;
    var d := AcceptedStep(env, steps, i);
    var e := AcceptedStep(env, steps, j);
    EmittedJustified(env, steps, j, e);
    StepLogged(env, steps, i, j, d);
  }

  lemma {:induction false} StepLogged(env: Env, steps: seq<Timed>, i: nat, j: nat, e: Event)
    requires DigitsUnfolded(env.fold) && i < j <= |steps| && EmittedAt(env, steps, i, e)
    ensures e in TraceAt(env, steps, j).log
    decreases j
  {
    hide Step, Emits, DigitsUnfolded;
    if i < j - 1 { StepLogged(env, steps, i, j - 1, e); }
  }

  // --------------------------------------------------- records and the last proof accepted

  /** The last proof accepted for the key. */
  function LastProof(log: seq<Event>, key: string): Option<Event> {
    if log == [] then None
    else
      var e := log[|log| - 1];
      if e.Accepted? && AuthKey(e.group, e.device) == key then Some(e) else LastProof(log[..|log| - 1], key)
  }

  /** The record is of the proof: its user, group and device, the digest of its key, good for the time from it. */
  ghost predicate RecordOf(env: Env, r: Record, e: Event) {
    && e.Accepted? && r.user == e.user && r.group == e.group && r.device == e.device
    && r.pubKeyHex == env.digest(e.pubKey) && r.authExpireAt == e.at + AUTH_TTL
  }

  ghost predicate RecordedAt(env: Env, authed: Records, log: seq<Event>, k: string) {
    k in authed ==> LastProof(log, k).Some? && RecordOf(env, authed[k], LastProof(log, k).value)
  }

  ghost predicate Recorded(env: Env, authed: Records, log: seq<Event>) {
    forall k :: RecordedAt(env, authed, log, k)
  }

  lemma LastProofNext(log: seq<Event>, e: Event, key: string)
    ensures LastProof(log + [e], key) == if e.Accepted? && AuthKey(e.group, e.device) == key then Some(e)
      else LastProof(log, key)
    ensures log + [] == log
  {
    assert (log + [e])[..|log|] == log;
  }

  /** Records only lose entries or change names. */
  ghost predicate OnlyNames(authed: Records, authed': Records) {
    forall k :: k in authed' ==> k in authed && authed'[k] == authed[k].(name := authed'[k].name)
  }

  lemma NamesRecorded(env: Env, authed: Records, authed': Records, log: seq<Event>)
    requires Recorded(env, authed, log) && OnlyNames(authed, authed')
    ensures Recorded(env, authed', log)
  {
    hide LastProof;
    forall k ensures RecordedAt(env, authed', log, k) { assert RecordedAt(env, authed, log, k); }
  }

  lemma OthersOnlyNames(env: Env, s: State, op: Op, now: int)
    requires DigitsUnfolded(env.fold) && !op.DoProve?
    ensures OnlyNames(s.authed, Step(env, s, op, now).authed)
  {
    if op.DoRename? || op.DoDelete? {
      SelectedOnlyNames(env, s, op, now);
    } else {
      hide Trim, NormalizeGroup, Taken, TakenByOther, CheckName, UniqueName, DigitsUnfolded, AuthKey, Select;
    }
  }

  lemma SelectedOnlyNames(env: Env, s: State, op: Op, now: int)
    requires DigitsUnfolded(env.fold) && (op.DoRename? || op.DoDelete?)
    ensures OnlyNames(s.authed, Step(env, s, op, now).authed)
  {
    hide Trim, NormalizeGroup, Taken, CheckName, DigitsUnfolded, AuthKey;
  }

  lemma StepRecorded(env: Env, s: State, log: seq<Event>, op: Op, now: int)
    requires DigitsUnfolded(env.fold) && Good(s) && Recorded(env, s.authed, log)
    ensures Recorded(env, Step(env, s, op, now).authed, log + Emits(env, s, op, now))
  {
    if Proves(env, s, op, now) {
      ProofStores(env, s, op.id, op.device, op.pubKey, op.signed, op.saved, now);
      AcceptedExactly(env, s, op.id, op.device, op.pubKey, op.signed, op.saved, now);
      var c := s.challenges[op.id];
      var e := Accepted(op.id, c.user, c.group, c.device, c.ticket, c.pubKey, now);
      assert Emits(env, s, op, now) == [e];
      ProofRecorded(env, s.authed, log, e, ProofRecord(env, s, op.id, now));
    } else {
      if op.DoProve? { ProveFailsKeeps(env, s, op, now); } else { OthersOnlyNames(env, s, op, now); }
      hide Step, Emits, Recorded, Proves;
      NamesRecorded(env, s.authed, Step(env, s, op, now).authed, log);
      QuietRecorded(env, s, log, op, now);
    }
  }

  lemma ProofRecorded(env: Env, authed: Records, log: seq<Event>, e: Event, r: Record)
    requires Recorded(env, authed, log) && RecordOf(env, r, e)
    ensures Recorded(env, authed[AuthKey(e.group, e.device) := r], log + [e])
  {
    hide LastProof, AuthKey;
    var authed', log' := authed[AuthKey(e.group, e.device) := r], log + [e];
    forall k ensures RecordedAt(env, authed', log', k) {
      assert RecordedAt(env, authed, log, k);
      LastProofNext(log, e, k);
    }
  }

  lemma ProveFailsKeeps(env: Env, s: State, op: Op, now: int)
    requires DigitsUnfolded(env.fold) && op.DoProve? && !Proves(env, s, op, now)
    ensures Step(env, s, op, now).authed == s.authed
  {
    ProveFails(env, s, op.id, op.device, op.pubKey, op.signed, op.saved, now);
  }

  lemma QuietRecorded(env: Env, s: State, log: seq<Event>, op: Op, now: int)
    requires DigitsUnfolded(env.fold) && !Proves(env, s, op, now) && Recorded(env, Step(env, s, op, now).authed, log)
    ensures Recorded(env, Step(env, s, op, now).authed, log + Emits(env, s, op, now))
  {
    OneEvent(env, s, op, now);
    hide Step, LastProof, RecordOf, DigitsUnfolded;
    var es, authed := Emits(env, s, op, now), Step(env, s, op, now).authed;
    if es == [] {
      assert log + es == log;
    } else {
      assert es == [es[0]] && !es[0].Accepted?;
      forall k ensures RecordedAt(env, authed, log + es, k) {
        assert RecordedAt(env, authed, log, k);
        LastProofNext(log, es[0], k);
      }
    }
  }

  lemma NothingRecorded(env: Env)
    ensures Recorded(env, EMPTY.authed, [])
  {
  }

  /** In every reachable state each record is that of the last proof accepted for its key. */
  lemma {:induction false} RunRecorded(env: Env, steps: seq<Timed>, i: nat)
    requires DigitsUnfolded(env.fold) && FreshRun(env, steps) && i <= |steps|
    ensures Recorded(env, TraceAt(env, steps, i).state.authed, TraceAt(env, steps, i).log)
  {
    hide Step, Emits, DigitsUnfolded, FreshRun, Good, Recorded;
    if i == 0 {
      NothingRecorded(env);
    } else {
      var t, x := TraceAt(env, steps, i - 1), steps[i - 1];
      RunRecorded(env, steps, i - 1);
      RunGood(env, steps, i - 1);
      StepRecorded(env, t.state, t.log, x.op, x.now);
    }
  }

  /** A device passes the check exactly when its record is there and not over and holds the digest of the key shown. */
  lemma CheckedExactly(s: State, env: Env, group: string, device: string, pubKey: Blob, now: int)
    ensures CheckDevice(s, env.digest, group, device, pubKey, now) == None <==>
      && AuthKey(group, device) in s.authed && pubKey != []
      && now <= s.authed[AuthKey(group, device)].authExpireAt
      && s.authed[AuthKey(group, device)].pubKeyHex == env.digest(pubKey)
  {
  }
}
