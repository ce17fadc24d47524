/** The gateway engine over whole runs: the invariant, the safety of delisting, and the policy revision. */
module GatewayRuns {
  import opened Text
  import opened Gateway
  import opened GatewayGrants
  import opened GatewayRefresh

  datatype Op =
    | DoReport(r: Report, authenticated: bool)
    | DoApprove(id: string, endpoint: string)
    | DoApproveById(id: string)
    | DoDelist(id: string)
    | DoServe(call: Call)
    | DoSync

  datatype Timed = Timed(op: Op, now: int)

  ghost function Step(s: State, op: Op, now: int): State {
    match op
    case DoReport(r, authenticated) => Admit(s, r, authenticated, now).1
    case DoApprove(id, endpoint) => Approve(s, id, endpoint)
    case DoApproveById(id) => ApproveById(s, id).1
    case DoDelist(id) => Delist(s, id).1
    case DoServe(call) => Served(s, call, now)
    case DoSync => Sync(s, Fingerprint(AliveList(s, now)))
  }

  /** Names stay readable: served clients have no bar in their network key and, as `gate` says, gateways
      report under ids without a bar or devices have ids without one. */
  predicate ReadableNames(op: Op, gate: bool) {
    match op
    case DoServe(call) => ReadableOwner(call.owner, gate)
    case DoReport(r, _) => gate ==> '|' !in r.gatewayId
    case _ => true
  }

  ghost function StateAt(s: State, steps: seq<Timed>, i: nat): State
    requires i <= |steps|
  {
    if i == 0 then s else Step(StateAt(s, steps, i - 1), steps[i - 1].op, steps[i - 1].now)
  }

  // ------------------------------------------------------------- the invariant

  /** Whatever is served to whomever. */
  lemma StepGood(s: State, op: Op, now: int)
    requires Good(s)
    ensures Good(Step(s, op, now))
  {
    if op.DoServe? {
      hide Served, Good;
      ServedGood(s, op.call, now);
    } else {
      AdminGood(s, op, now);
    }
  }

  lemma AdminGood(s: State, op: Op, now: int)
    requires Good(s) && !op.DoServe?
    ensures Good(Step(s, op, now))
  {
    hide Trim, Coherent, Fingerprint, AliveList;
  }

  lemma {:induction false} RunGood(s: State, steps: seq<Timed>, i: nat)
    requires Good(s) && i <= |steps|
    ensures Good(StateAt(s, steps, i))
  {
    if i > 0 {
      hide Step, Good;
      RunGood(s, steps, i - 1);
      StepGood(StateAt(s, steps, i - 1), steps[i - 1].op, steps[i - 1].now);
    }
  }

  lemma StepOwned(s: State, op: Op, now: int, gate: bool)
    requires Good(s) && Owned(s, gate) && ReadableNames(op, gate)
    ensures Owned(Step(s, op, now), gate)
  {
    if op.DoServe? {
      hide Served, Good, Owned;
      ServedOwned(s, op.call, now, gate);
    } else {
      hide Trim, HasOwner, Fingerprint, AliveList;
    }
  }

  /** Over runs with readable names every cached grant sits under the key of the device, address and gateway
      its ticket was signed for, so the keys of every such caller tell. */
  lemma {:induction false} RunOwned(s: State, steps: seq<Timed>, i: nat, gate: bool)
    requires Good(s) && Owned(s, gate) && i <= |steps|
    requires forall j :: 0 <= j < |steps| ==> ReadableNames(steps[j].op, gate)
    ensures Owned(StateAt(s, steps, i), gate)
    ensures forall o :: ReadableOwner(o, gate) ==> KeysTell(StateAt(s, steps, i), o)
  {
    hide Step, Good, Owned, ReadableNames, ReadableOwner, KeysTell;
    if i > 0 {
      RunOwned(s, steps, i - 1, gate);
      RunGood(s, steps, i - 1);
      StepOwned(StateAt(s, steps, i - 1), steps[i - 1].op, steps[i - 1].now, gate);
    }
    forall o | ReadableOwner(o, gate)
      ensures KeysTell(StateAt(s, steps, i), o) { OwnedKeysTell(StateAt(s, steps, i), o, gate); }
  }

  /** The controller starts with the approvals it loaded and nothing else. */
  lemma StartGood(conf: Config, allow: map<string, string>, gate: bool)
    ensures Good(State(conf, map[], allow, map[], map[], "", 0)) &&
      Owned(State(conf, map[], allow, map[], map[], "", 0), gate)
  {
  }

  // --------------------------------------------------------------- delisting

  ghost predicate NotAbout(cache: Cache, g: string) {
    forall k :: k in cache ==> cache[k].gatewayId != g
  }

  /** No trace of `g` from which a grant could be made. */
  ghost predicate Gone(s: State, g: string) {
    g !in s.allow && g !in s.nodes && NotAbout(s.cache, g) && g != s.conf.defaultId && IsTrimmed(g)
  }

  lemma DelistRemoves(s: State, id: string)
    ensures Delist(s, id).0 == None ==> Gone(Delist(s, id).1, Trim(id))
  {
    TrimSound(id);
  }

  /** The administrator's approvals, the only way back. */
  predicate Readmits(op: Op, g: string) {
    match op
    case DoApprove(id, _) => id == g
    case DoApproveById(id) => Trim(id) == g
    case _ => false
  }

  lemma {:induction false} BatchNotAbout(s: State, call: Call, known: bool, nodes: seq<Node>, k: nat, now: int,
                                         g: string)
    requires k <= |nodes| && NotAbout(s.cache, g) && forall i :: 0 <= i < |nodes| ==> nodes[i].gatewayId != g
    ensures NotAbout(IssueAll(s, call, known, nodes, k, now).cache, g)
  {
    if k > 0 {
      hide IssueFor, NotAbout;
      BatchNotAbout(s, call, known, nodes, k - 1, now, g);
      var b := IssueAll(s, call, known, nodes, k - 1, now);
      IssueNotAbout(s.(cache := b.cache), call, known, nodes[k - 1], k - 1, now, g);
    }
  }

  lemma IssueNotAbout(s: State, call: Call, known: bool, n: Node, salt: nat, now: int, g: string)
    requires n.gatewayId != g && NotAbout(s.cache, g)
    ensures NotAbout(IssueFor(s, call, known, n, salt, now).cache, g)
  {
    hide NodeFingerprint, Key, Mint;
  }

  lemma ServeKeepsGone(s: State, call: Call, now: int, g: string)
    requires Good(s) && Gone(s, g)
    ensures Gone(Served(s, call, now), g)
  {
    hide IssueAll, AliveList, AllCoherent;
    AliveFacts(s, now);
    BatchNotAbout(Prepared(s, now), call, Known(s, call, now), AliveList(s, now), |AliveList(s, now)|, now, g);
  }

  lemma StepKeepsGone(s: State, op: Op, now: int, g: string)
    requires Good(s) && Gone(s, g) && !Readmits(op, g)
    ensures Gone(Step(s, op, now), g)
  {
    if op.DoServe? {
      hide Served, Good, Gone;
      ServeKeepsGone(s, op.call, now, g);
    } else {
      TrimSound(g);
      AdminKeepsGone(s, op, now, g);
    }
  }

  lemma AdminKeepsGone(s: State, op: Op, now: int, g: string)
    requires Gone(s, g) && !Readmits(op, g) && !op.DoServe? && Trim(g) == g
    ensures Gone(Step(s, op, now), g)
  {
    hide Trim, IsTrimmed;
  }

  /** From a delisting until the next approval, whatever happens in between, nothing in the engine names the gateway
      ... */
  lemma {:induction false} DelistedStaysOut(s: State, steps: seq<Timed>, i: nat, g: string)
    requires Good(s) && Gone(s, g) && i <= |steps|
    requires forall j :: 0 <= j < |steps| ==> !Readmits(steps[j].op, g)
    ensures Gone(StateAt(s, steps, i), g)
  {
    if i > 0 {
      hide Step, Good, Gone, Readmits;
      DelistedStaysOut(s, steps, i - 1, g);
      RunGood(s, steps, i - 1);
      StepKeepsGone(StateAt(s, steps, i - 1), steps[i - 1].op, steps[i - 1].now, g);
    }
  }

  /** ... and so no list handed out does. */
  lemma GoneNeverListed(s: State, call: Call, now: int, order: seq<string>, g: string)
    requires Good(s) && Gone(s, g) && RetainedWalk(s, call, now, order)
    ensures !Names(GrantList(s, call, now, order), g)
  {
    hide GrantList, Good, RetainedWalk, Slotted, Retained;
    GrantListAlways(s, call, now, order);
  }

  // ------------------------------------------------------------ the policy revision

  /** A sync never lowers the revision, except that the last 64-bit number wraps to 1. */
  lemma SyncMonotone(s: State, fingerprint: string)
    ensures Sync(s, fingerprint).rev >= s.rev <==> !(s.rev == TWO64 - 1 && fingerprint != s.fingerprint)
    ensures Sync(s, fingerprint).rev != 0 && Sync(s, fingerprint).fingerprint == fingerprint
    ensures s.rev < TWO64 - 1 ==> Sync(s, fingerprint).rev <= s.rev + 1
    ensures s.rev < TWO64 - 1 && Sync(s, fingerprint).rev == s.rev ==> fingerprint == s.fingerprint
  {
  }

  lemma StepPolicy(s: State, op: Op, now: int)
    requires s.rev < TWO64 - 1
    ensures var s' := Step(s, op, now);
      s.rev <= s'.rev <= s.rev + 1 && (s'.rev == s.rev ==> s'.fingerprint == s.fingerprint)
  {
    hide IssueAll, AliveList, Fingerprint, Trim;
  }

  /** After a sync the revision stands for the approved alive set, and is not 0. */
  lemma SyncedPolicy(s: State, op: Op, now: int)
    requires op.DoServe? || op.DoSync?
    ensures Step(s, op, now).fingerprint == Fingerprint(AliveList(s, now)) && Step(s, op, now).rev != 0
  {
    hide IssueAll, AliveList, Fingerprint;
  }

  /** Over a run too short to use up 64 bits the revision never decreases, and one revision always
      means one fingerprint of the approved alive set. */
  lemma {:induction false} PolicyOverRun(s: State, steps: seq<Timed>, i: nat, j: nat)
    requires i <= j <= |steps| && s.rev + |steps| < TWO64
    ensures StateAt(s, steps, i).rev <= StateAt(s, steps, j).rev <= s.rev + j
    ensures StateAt(s, steps, i).rev == StateAt(s, steps, j).rev ==>
      StateAt(s, steps, i).fingerprint == StateAt(s, steps, j).fingerprint
    decreases j
  {
    hide Step;
    if j > 0 {
      PolicyOverRun(s, steps, if i < j then i else j - 1, j - 1);
      StepPolicy(StateAt(s, steps, j - 1), steps[j - 1].op, steps[j - 1].now);
    }
  }
}
