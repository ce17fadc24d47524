/** Who is a user, and what a device may be called: the domain a user was first given, and names of at most 128 bytes
    that are given once and changed only on command. */
module AccountsUsers {
  import opened Text
  import opened Identity
  import opened Names
  import opened Accounts
  import opened AccountsRuns
  import Bytes

  // ----------------------------------------------------------------------- users

  function DomainGiven(domain: string): string {
    if Trim(domain) == "" then "ms.net" else Trim(domain)
  }

  function GroupGiven(group: string): string {
    if Trim(group) == "" then "default" else Trim(group)
  }

  /** A group without a dot, the domain itself or a name under it. */
  predicate LiesIn(group: string, domain: string) {
    '.' !in group || group == domain || HasSuffix(group, "." + domain)
  }

  /** The step asks for a user of that domain, with a first group that lies in it. */
  ghost predicate AddsUser(op: Op, u: string, domain: string) {
    && op.DoAddUser? && u == Trim(op.user) != "" && domain == DomainGiven(op.domain)
    && LiesIn(GroupGiven(op.group), domain)
  }

  ghost predicate AddsAny(op: Op, u: string) {
    op.DoAddUser? && AddsUser(op, u, DomainGiven(op.domain))
  }

  lemma GroupRefused(group: string, domain: string)
    ensures NormalizeGroup(GroupGiven(group), DomainGiven(domain)) == None <==>
      !LiesIn(GroupGiven(group), DomainGiven(domain))
  {
    TrimSound(domain);
    TrimSound("ms.net");
  }

  /** The answer to a request for a user: it needs a name and a group in the domain, and a user that is there already
      must be of that domain. */
  lemma AddUserExactly(s: State, user: string, domain: string, group: string, saved: bool)
    ensures var (err, s') := AddUser(s, user, domain, group, saved);
      var u, d := Trim(user), DomainGiven(domain);
      && (err == Some(Required) <==> u == "")
      && (err == Some(ForeignGroup) <==> u != "" && !LiesIn(GroupGiven(group), d))
      && (err == Some(UserExists) <==> u != "" && LiesIn(GroupGiven(group), d) && u in s.users && s.users[u] != d)
      && (u != "" && LiesIn(GroupGiven(group), d) && u !in s.users ==>
            err == (if saved then None else Some(NotSaved)) && s' == s.(users := s.users[u := d]))
      && (u == "" || !LiesIn(GroupGiven(group), d) || u in s.users ==> s' == s)
  {
    GroupRefused(group, domain);
    hide Trim, NormalizeGroup, LiesIn;
  }

  lemma StepUsers(env: Env, s: State, op: Op, now: int, u: string)
    requires DigitsUnfolded(env.fold)
    ensures var users := Step(env, s, op, now).users;
      && (u in users <==> u in s.users || AddsAny(op, u))
      && (u in s.users ==> users[u] == s.users[u])
      && (u !in s.users && AddsAny(op, u) ==> users[u] == DomainGiven(op.domain))
  {
    if op.DoAddUser? {
      AddUserExactly(s, op.user, op.domain, op.group, op.saved);
      hide AddUser, Trim, LiesIn, DigitsUnfolded, GroupGiven;
    } else {
      hide Trim, NormalizeGroup, Taken, TakenByOther, CheckName, UniqueName, Matches, DigitsUnfolded, AuthKey;
    }
  }

  /** Step `j` is the first that adds the user. */
  ghost predicate FirstAdds(steps: seq<Timed>, i: nat, j: nat, u: string, domain: string)
    requires i <= |steps|
  {
    j < i && AddsUser(steps[j].op, u, domain) && forall m :: 0 <= m < j ==> !AddsAny(steps[m].op, u)
  }

  lemma FirstAddsLater(steps: seq<Timed>, i: nat, j: nat, u: string, domain: string)
    requires i < |steps|
    ensures FirstAdds(steps, i + 1, j, u, domain) <==>
      FirstAdds(steps, i, j, u, domain) ||
      (j == i && AddsUser(steps[i].op, u, domain) && forall m :: 0 <= m < i ==> !AddsAny(steps[m].op, u))
  {
    hide AddsUser, AddsAny;
  }

  /** Over every run a user is known with exactly the domain of the first step that added it. */
  lemma {:induction false} UsersExactly(env: Env, steps: seq<Timed>, i: nat, u: string, domain: string)
    requires DigitsUnfolded(env.fold) && i <= |steps|
    ensures var users := TraceAt(env, steps, i).state.users;
      && (u in users && users[u] == domain <==> exists j :: FirstAdds(steps, i, j, u, domain))
      && (u in users <==> exists m :: 0 <= m < i && AddsAny(steps[m].op, u))
  {
    hide Step, Emits, DigitsUnfolded, AddsUser, AddsAny;
    if i == 0 {
      NoUsers(env, steps);
    } else {
      var before: nat, op := i - 1, steps[i - 1].op;
      UsersExactly(env, steps, before, u, domain);
      StepUsers(env, TraceAt(env, steps, before).state, op, steps[before].now, u);
      AddsOne(op, u, domain);
      if j: nat :| FirstAdds(steps, before, j, u, domain) { FirstAddsLater(steps, before, j, u, domain); }
      if j: nat :| FirstAdds(steps, i, j, u, domain) { FirstAddsLater(steps, before, j, u, domain); }
      FirstAddsLater(steps, before, before, u, domain);
    }
  }

  lemma NoUsers(env: Env, steps: seq<Timed>)
    requires DigitsUnfolded(env.fold)
    ensures TraceAt(env, steps, 0).state.users == map[]
  {
  }

  lemma AddsOne(op: Op, u: string, domain: string)
    ensures AddsUser(op, u, domain) <==> AddsAny(op, u) && domain == DomainGiven(op.domain)
  {
  }

  // ------------------------------------------------------------------------ names

  /** The UTF-8 form of a character. */
  function Utf8Of(c: char): seq<Bytes.byte> {
    var n := c as int;
    if n < 0x80 then [n as Bytes.byte]
    else if n < 0x800 then [(0xC0 + n / 64) as Bytes.byte, (0x80 + n % 64) as Bytes.byte]
    else if n < 0x1_0000 then
      [(0xE0 + n / 4096) as Bytes.byte, (0x80 + n / 64 % 64) as Bytes.byte, (0x80 + n % 64) as Bytes.byte]
    else
      [(0xF0 + n / 262144) as Bytes.byte, (0x80 + n / 4096 % 64) as Bytes.byte, (0x80 + n / 64 % 64) as Bytes.byte,
       (0x80 + n % 64) as Bytes.byte]
  }

  function Utf8(s: string): seq<Bytes.byte> {
    if s == "" then [] else Utf8Of(s[0]) + Utf8(s[1..])
  }

  lemma {:induction false} LengthInBytes(s: string)
    ensures Utf8Length(s) == |Utf8(s)|
  {
    if s != "" { LengthInBytes(s[1..]); }
  }

  predicate Fits(name: string) {
    name != "" && IsTrimmed(name) && |Utf8(name)| <= 128
  }

  /** A name is accepted exactly when, without the spaces around it, it has 1 to 128 bytes. */
  lemma CheckNameExactly(name: string, n: string)
    ensures CheckName(name) == Ok(n) <==> n == Trim(name) && Fits(n)
    ensures CheckName(name).Err? ==> CheckName(name) == Err(if Trim(name) == "" then NameEmpty else NameTooLong)
    ensures CheckName(name).Ok? ==> CheckName(name).value == Trim(name)
  {
    TrimSound(name);
    LengthInBytes(Trim(name));
  }

  /** Setting and changing a name give one that fits, and otherwise leave the records as they were. */
  lemma GivenNameFits(s: State, fold: char -> char, group: string, device: string, name: string, saved: bool)
    ensures var (err, s') := SetName(s, fold, group, device, name, saved); var k := AuthKey(group, device);
      && (Done(err) <==>
            Fits(Trim(name)) && k in s.authed && !TakenByOther(fold, s.authed, s.authed[k], device, Trim(name)))
      && (Done(err) ==> s' == s.(authed := s.authed[k := s.authed[k].(name := Trim(name))]))
      && (!Done(err) ==> s' == s)
  {
    CheckNameExactly(name, Trim(name));
    hide Trim, Fits, TakenByOther, CheckName;
  }

  /** A device is named once: it gets the desired name, or that with the lowest number nobody else bears, and a device
      that has a name keeps it. */
  lemma AssignedOnce(s: State, fold: char -> char, group: string, device: string, desired: string, saved: bool)
    requires DigitsUnfolded(fold)
    ensures var (err, s') := AssignName(s, fold, group, device, desired, saved); var k := AuthKey(group, device);
      && (Done(err) <==> Fits(Trim(desired)) && k in s.authed)
      && (!Done(err) ==> s' == s)
      && (Done(err) && Trim(s.authed[k].name) != "" ==> s' == s)
      && (Done(err) && Trim(s.authed[k].name) == "" ==>
            exists i :: FirstFree(fold, s.authed, s.authed[k], Trim(desired), i) &&
                        s' == s.(authed := s.authed[k := s.authed[k].(name := Candidate(Trim(desired), i))]))
  {
    CheckNameExactly(desired, Trim(desired));
    TrimSound(desired);
    hide Trim, CheckName, DigitsUnfolded, Utf8;
    var k := AuthKey(group, device);
    if Fits(Trim(desired)) && k in s.authed && Trim(s.authed[k].name) == "" {
      var i := FirstFreeIndex(fold, s.authed, s.authed[k], Trim(desired));
      assert FirstFree(fold, s.authed, s.authed[k], Trim(desired), i);
    }
  }

  /** With a number the name can grow past 128 bytes: it fits exactly when the desired one leaves room for it. */
  lemma NumberedFits(desired: string, i: nat)
    requires Fits(desired)
    ensures |Utf8(Candidate(desired, i))| == |Utf8(desired)| + if i == 0 then 0 else 1 + |Dec(i)|
    ensures Fits(Candidate(desired, i)) <==> |Utf8(desired)| + (if i == 0 then 0 else 1 + |Dec(i)|) <= 128
  {
    CandidateTrimmed(desired, i);
    TrimSound(Candidate(desired, i));
    if i > 0 {
      Utf8Append(desired + "-", Dec(i));
      Utf8Append(desired, "-");
      PlainLength(Dec(i));
      PlainLength("-");
    }
  }

  lemma {:induction false} Utf8Append(a: string, b: string)
    ensures Utf8(a + b) == Utf8(a) + Utf8(b)
  {
    if a == "" {
      assert a + b == b;
    } else {
      assert (a + b)[1..] == a[1..] + b;
      Utf8Append(a[1..], b);
    }
  }

  lemma {:induction false} PlainLength(s: string)
    requires forall i :: 0 <= i < |s| ==> s[i] as int < 0x80
    ensures |Utf8(s)| == |s|
  {
    if s != "" { PlainLength(s[1..]); }
  }

  // ------------------------------------------------------------ the record a command means

  /** A command of a known user about a device, with a blank group or one of the user's domain. */
  ghost predicate Sensible(s: State, user: string, group: string, device: string) {
    && Trim(user) in s.users && Trim(user) != "" && Trim(device) != ""
    && (Trim(group) == "" || NormalizeGroup(Trim(group), s.users[Trim(user)]).Some?)
  }

  /** The record is of the user and the device, and of the group if one is given. */
  ghost predicate Means(s: State, user: string, group: string, device: string, k: string) {
    && k in s.authed && s.authed[k].user == Trim(user) && s.authed[k].device == Trim(device)
    && (Trim(group) == "" ||
        (Trim(user) in s.users && NormalizeGroup(Trim(group), s.users[Trim(user)]) == Some(s.authed[k].group)))
  }

  lemma SeveralMembers<T>(ks: set<T>)
    ensures |ks| > 1 <==> exists j, k :: j in ks && k in ks && j != k
  {
    if |ks| > 1 {
      var j :| j in ks;
      assert |ks - {j}| > 0;
      var k :| k in ks - {j};
    }
    if j, k :| j in ks && k in ks && j != k { assert |ks| == 1 + |ks - {j}| && k in ks - {j}; }
  }

  lemma MeantAreMatches(s: State, user: string, group: string, device: string, k: string)
    requires Sensible(s, user, group, device)
    ensures var g := Trim(group);
      var full := if g == "" then "" else NormalizeGroup(g, s.users[Trim(user)]).value;
      Means(s, user, group, device, k) <==> k in Matches(s, Trim(user), full, Trim(device))
  {
    if Trim(group) != "" { NormalizeNonEmpty(Trim(group), s.users[Trim(user)]); }
    hide Trim, NormalizeGroup;
  }

  /** A command goes through exactly when it means a record and, with no group given, no two; and then it is about
      the records it means. */
  lemma SelectExactly(s: State, user: string, group: string, device: string)
    ensures var r := Select(s, user, group, device);
      && (r.Ok? <==> && Sensible(s, user, group, device) && (exists k :: Means(s, user, group, device, k))
                     && !(Trim(group) == "" && Several(s, user, group, device)))
      && (r.Ok? ==> forall k :: k in r.value <==> Means(s, user, group, device, k))
      && (r == Err(AmbiguousDevice) <==>
            Sensible(s, user, group, device) && Trim(group) == "" && Several(s, user, group, device))
  {
    if Sensible(s, user, group, device) {
      var g := Trim(group);
      var full := if g == "" then "" else NormalizeGroup(g, s.users[Trim(user)]).value;
      var ks := Matches(s, Trim(user), full, Trim(device));
      forall k ensures Means(s, user, group, device, k) <==> k in ks { MeantAreMatches(s, user, group, device, k); }
      SeveralMembers(ks);
      hide Trim, NormalizeGroup, Matches, Means;
    } else {
      hide Trim, NormalizeGroup, Matches, Means;
    }
  }

  ghost predicate Several(s: State, user: string, group: string, device: string) {
    exists j, k :: Means(s, user, group, device, j) && Means(s, user, group, device, k) && j != k
  }

  /** A deletion drops the records it means and no other, whether or not the change can be saved, and tells of them
      only if it can. */
  lemma DeleteExactly(s: State, user: string, group: string, device: string, saved: bool, k: string)
    ensures var (r, s') := DeleteDevice(s, user, group, device, saved);
      var goes := Select(s, user, group, device).Ok?;
      && (k in s'.authed <==> k in s.authed && !(goes && Means(s, user, group, device, k)))
      && (k in s'.authed ==> s'.authed[k] == s.authed[k]) && s' == s.(authed := s'.authed)
      && (r.Ok? <==> goes && saved) && (r.Ok? ==> (k in r.value <==> Means(s, user, group, device, k)))
      && (goes && !saved ==> r == Err(NotSaved))
  {
    SelectExactly(s, user, group, device);
    hide Select, Means, Several, Trim;
  }

  /** A renaming on command gives the name, without the spaces around it, to the one record it means; nothing is
      renamed when the name does not fit, when no record or more than one is meant, or when another device of the
      network bears the name. */
  lemma RenameExactly(s: State, fold: char -> char, user: string, group: string, device: string, name: string,
                      saved: bool, k: string)
    requires Filed(s.authed) && Means(s, user, group, device, k)
    ensures var (err, s') := RenameDevice(s, fold, user, group, device, name, saved);
      && (Done(err) <==> && Fits(Trim(name)) && Select(s, user, group, device).Ok?
                         && !Taken(fold, s.authed, s.authed[k], Trim(name)))
      && (Done(err) ==> s' == s.(authed := s.authed[k := s.authed[k].(name := Trim(name))]))
      && (!Done(err) ==> s' == s)
  {
    CheckNameExactly(name, Trim(name));
    SelectExactly(s, user, group, device);
    if Select(s, user, group, device).Ok? {
      var key := SelectIsSingle(s, user, group, device);
      assert k in Select(s, user, group, device).value;
    } else {
      SelectFails(s, user, group, device);
    }
    hide Trim, Fits, CheckName, Select, Means, Taken, Several, Filed;
  }

  lemma SelectFails(s: State, user: string, group: string, device: string)
    ensures Select(s, user, group, device) != Err(NotSaved)
  {
    hide Trim, NormalizeGroup;
  }
}
