/** Display names over runs: unique while names are plain and named devices stay in their networks. */
module AccountsNames {
  import opened Text
  import opened Identity
  import opened Names
  import opened Accounts
  import opened AccountsRuns

  // ------------------------------------------------------------------ plain names

  lemma {:induction false} TrimLeftWithin(s: string, c: char)
    requires c !in s
    ensures c !in TrimLeft(s)
  {
    if s != "" && IsSpace(s[0]) { TrimLeftWithin(s[1..], c); }
  }

  lemma {:induction false} TrimRightWithin(s: string, c: char)
    requires c !in s
    ensures c !in TrimRight(s)
  {
    if s != "" && IsSpace(s[|s| - 1]) { TrimRightWithin(s[..|s| - 1], c); }
  }

  lemma TrimWithin(s: string, c: char)
    requires c !in s
    ensures c !in Trim(s)
  {
    TrimLeftWithin(s, c);
    TrimRightWithin(TrimLeft(s), c);
  }

  /** Users stand, tickets keep user and group, and a record has the user and group of one before or of a ticket. */
  ghost predicate NamesFrom(s: State, s': State) {
    && s'.users == s.users
    && (forall t :: t in s'.tickets ==> t in s.tickets && SameNames(s'.tickets[t], s.tickets[t]))
    && (forall k :: k in s'.authed ==> RecordFrom(s, k, s'.authed[k]))
  }

  predicate SameNames(a: Ticket, b: Ticket) {
    a.user == b.user && a.group == b.group
  }

  ghost predicate RecordFrom(s: State, k: string, r: Record) {
    || (k in s.authed && r.user == s.authed[k].user && r.group == s.authed[k].group)
    || exists t :: t in s.tickets && s.tickets[t].user == r.user && s.tickets[t].group == r.group
  }

  lemma ProveNamesFrom(env: Env, s: State, id: string, device: string, pubKey: Blob, signed: bool, saved: bool,
                       now: int)
    ensures NamesFrom(s, Prove(s, env.digest, id, device, pubKey, signed, saved, now).1)
  {
    hide Trim, NormalizeGroup, AuthKey;
    var s' := Prove(s, env.digest, id, device, pubKey, signed, saved, now).1;
    forall k | k in s'.authed ensures RecordFrom(s, k, s'.authed[k]) {
      if id in s.challenges && s.challenges[id].ticket in s.tickets {
        var t := s.challenges[id].ticket;
        assert t in s.tickets;
      }
    }
  }

  lemma StepNamesFrom(env: Env, s: State, op: Op, now: int)
    requires DigitsUnfolded(env.fold) && !op.DoIssue? && !op.DoAddUser?
    ensures NamesFrom(s, Step(env, s, op, now))
  {
    hide DigitsUnfolded, Prove;
    if op.DoProve? {
      hide NamesFrom;
      ProveNamesFrom(env, s, op.id, op.device, op.pubKey, op.signed, op.saved, now);
    } else {
      hide Trim, NormalizeGroup, AuthKey, Taken, TakenByOther, CheckName, UniqueName, Matches;
    }
  }

  /** No bar in a domain, in the group of a ticket or in the group of a record. */
  ghost predicate NoBars(s: State) {
    && (forall u :: u in s.users ==> '|' !in s.users[u])
    && (forall t :: t in s.tickets ==> '|' !in s.tickets[t].group)
    && (forall k :: k in s.authed ==> '|' !in s.authed[k].group)
  }

  predicate NoBarOp(op: Op) {
    match op
    case DoAddUser(_, domain, _, _) => '|' !in domain
    case DoIssue(_, group, _, _, _) => '|' !in group
    case _ => true
  }

  lemma NormalizeNoBar(group: string, domain: string)
    requires '|' !in group && '|' !in domain
    ensures NormalizeGroup(group, domain).Some? ==> '|' !in NormalizeGroup(group, domain).value
  {
  }

  lemma StepNoBars(env: Env, s: State, op: Op, now: int)
    requires DigitsUnfolded(env.fold) && NoBars(s) && NoBarOp(op)
    ensures NoBars(Step(env, s, op, now))
  {
    hide DigitsUnfolded;
    if op.DoAddUser? {
      TrimWithin(op.domain, '|');
      hide Trim;
    } else if op.DoIssue? {
      TrimWithin(op.group, '|');
      if op.user in s.users { NormalizeNoBar(Trim(op.group), s.users[op.user]); }
      hide Trim, NormalizeGroup;
    } else {
      hide Step;
      StepNamesFrom(env, s, op, now);
    }
  }

  /** User ids without '@' and groups outside the personal prefix, in users, tickets and records. */
  ghost predicate PlainState(s: State) {
    && (forall u :: u in s.users ==> '@' !in u)
    && (forall t :: t in s.tickets ==>
        s.tickets[t].user in s.users && PlainNames(s.tickets[t].group, s.tickets[t].user))
    && (forall k :: k in s.authed ==> PlainNames(s.authed[k].group, s.authed[k].user))
  }

  predicate PlainOp(op: Op) {
    && NoBarOp(op)
    && match op
       case DoAddUser(user, _, _, _) => '@' !in user
       case DoIssue(_, group, _, _, _) => !HasPrefix(Trim(group), PERSONAL_PREFIX)
       case DoSetName(group, _, _, _) => '|' !in group
       case _ => true
  }

  /** The prefix has no dot, so it cannot reach past the group. */
  lemma PersonalInFront(group: string, domain: string)
    ensures HasPrefix(group + "." + domain, PERSONAL_PREFIX) ==> HasPrefix(group, PERSONAL_PREFIX)
  {
    var full := group + "." + domain;
    assert '.' !in PERSONAL_PREFIX && full[|group|] == '.';
    if HasPrefix(full, PERSONAL_PREFIX) {
      assert forall i :: 0 <= i < |PERSONAL_PREFIX| ==> full[i] == PERSONAL_PREFIX[i];
      assert full[..|PERSONAL_PREFIX|] == PERSONAL_PREFIX;
      assert |PERSONAL_PREFIX| <= |group|;
      assert full[..|PERSONAL_PREFIX|] == group[..|PERSONAL_PREFIX|];
    }
  }

  lemma NormalizeNotPersonal(group: string, domain: string)
    requires !HasPrefix(group, PERSONAL_PREFIX) && IsTrimmed(group) && group != "" && IsTrimmed(domain) && domain != ""
    ensures var n := NormalizeGroup(group, domain); n.Some? ==> !HasPrefix(Trim(n.value), PERSONAL_PREFIX)
  {
    var n := NormalizeGroup(group, domain);
    if n.Some? {
      NormalizeTrimmed(group, domain);
      TrimSound(n.value);
      TrimSound(domain);
      if '.' !in group { PersonalInFront(group, domain); }
    }
  }

  lemma IssuePlain(s: State, user: string, group: string, ttl: int, id: string, saved: bool, now: int)
    requires Good(s) && PlainState(s) && !HasPrefix(Trim(group), PERSONAL_PREFIX)
    ensures PlainState(IssueTicket(s, user, group, ttl, id, saved, now).1)
  {
    if user in s.users && Trim(group) != "" {
      TrimSound(group);
      NormalizeNotPersonal(Trim(group), s.users[user]);
      TrimWithin(user, '@');
    }
    hide Trim, NormalizeGroup;
  }

  lemma StepPlain(env: Env, s: State, op: Op, now: int)
    requires DigitsUnfolded(env.fold) && Good(s) && PlainState(s) && PlainOp(op)
    ensures PlainState(Step(env, s, op, now))
  {
    hide DigitsUnfolded, Good;
    if op.DoIssue? {
      hide IssueTicket, PlainState;
      IssuePlain(s, op.user, op.group, op.ttl, op.id, op.saved, now);
    } else if op.DoAddUser? {
      AddUserPlain(s, op.user, op.domain, op.group, op.saved);
    } else {
      hide Step, Trim;
      StepNamesFrom(env, s, op, now);
    }
  }

  lemma AddUserPlain(s: State, user: string, domain: string, group: string, saved: bool)
    requires PlainState(s) && '@' !in user
    ensures PlainState(AddUser(s, user, domain, group, saved).1)
  {
    TrimWithin(user, '@');
    hide Trim;
  }

  /** An accepted proof of a device that has a name leaves it in its network. */
  ghost predicate StaysPut(env: Env, s: State, op: Op, now: int) {
    Proves(env, s, op, now) ==>
      var c := s.challenges[op.id];
      var key := AuthKey(c.group, c.device);
      key in s.authed && Trim(s.authed[key].name) != "" ==> NetworkOf(s.authed[key]) == NetworkKey(c.group, c.user)
  }

  lemma PlainIsGentle(env: Env, s: State, op: Op, now: int)
    requires Good(s) && UniqueNames(env.fold, s.authed) && NoBars(s) && PlainState(s) && PlainOp(op) &&
      StaysPut(env, s, op, now)
    ensures Gentle(env, s, op, now)
  {
    if Proves(env, s, op, now) { StayingIsNoClash(env, s, op.id, now); }
    if op.DoSetName? {
      forall k ensures !Twin(s, op.group, op.device, k) {
        if AuthKey(op.group, op.device) in s.authed { NoTwins(s, op.group, op.device, k); }
      }
    }
  }

  ghost predicate PlainRun(env: Env, steps: seq<Timed>)
    requires DigitsUnfolded(env.fold)
  {
    forall i :: 0 <= i < |steps| ==>
      PlainOp(steps[i].op) && StaysPut(env, TraceAt(env, steps, i).state, steps[i].op, steps[i].now)
  }

  /** Over runs with plain names (no bar in groups and domains, no '@' in user ids, no group under the personal
      prefix) in which accepted proofs leave named devices in their networks, no two devices of a network ever
      bear the same name, up to case. */
  lemma {:induction false} NamesUniqueOverRun(env: Env, steps: seq<Timed>, i: nat)
    requires DigitsUnfolded(env.fold) && FreshRun(env, steps) && PlainRun(env, steps) && i <= |steps|
    ensures UniqueNames(env.fold, TraceAt(env, steps, i).state.authed)
    ensures NoBars(TraceAt(env, steps, i).state) && PlainState(TraceAt(env, steps, i).state)
  {
    hide Step, Emits, DigitsUnfolded, FreshIds, Good, Gentle, PlainOp, StaysPut, UniqueNames, NoBars, PlainState;
    if i == 0 {
      EmptyPlain(env);
    } else {
      var s, x := TraceAt(env, steps, i - 1).state, steps[i - 1];
      NamesUniqueOverRun(env, steps, i - 1);
      RunGood(env, steps, i - 1);
      PlainIsGentle(env, s, x.op, x.now);
      StepNames(env, s, x.op, x.now);
      assert NoBarOp(x.op) by { PlainHasNoBar(x.op); }
      StepNoBars(env, s, x.op, x.now);
      StepPlain(env, s, x.op, x.now);
    }
  }

  lemma PlainHasNoBar(op: Op)
    requires PlainOp(op)
    ensures NoBarOp(op)
  {
  }

  lemma EmptyPlain(env: Env)
    ensures UniqueNames(env.fold, EMPTY.authed) && NoBars(EMPTY) && PlainState(EMPTY)
  {
  }
}
