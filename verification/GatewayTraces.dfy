/** Where things come from, over every run of the gateway engine: each alive gateway from a report and an approval
    that stands, each grant handed out from the call that minted it. */
module GatewayTraces {
  import opened Text
  import opened Ranking
  import opened Gateway
  import opened GatewayGrants
  import opened GatewayRefresh
  import opened GatewayRuns

  // --------------------------------------------------------------------- reports

  /** A report that says who and where the gateway is and how to reach it; a UDP channel comes with a key of 32
      bytes and its id, and only the default host speaks for the default gateway. */
  ghost predicate Complete(conf: Config, r: Report) {
    && Trim(r.gatewayId) != "" && r.endpoint != "" && r.reportMs != 0 && r.channel.Some?
    && (r.channel.value.kind != 1 || (|r.channel.value.udpPublicKey| == 32 && r.channel.value.udpKeyId != ""))
    && (Trim(r.gatewayId) != conf.defaultId || r.hostIsDefault)
  }

  /** Step `j` is the authenticated report that `n` was made from. */
  ghost predicate ReportedAt(conf: Config, steps: seq<Timed>, j: nat, n: Node)
    requires j < |steps|
  {
    && steps[j].op.DoReport? && steps[j].op.authenticated && Complete(conf, steps[j].op.r)
    && var r := steps[j].op.r;
    && n.gatewayId == r.gatewayId && n.endpoint == r.endpoint && n.capabilities == r.capabilities
    && n.channels == [r.channel.value] && n.updatedAt == steps[j].now
  }

  ghost predicate WasReported(conf: Config, steps: seq<Timed>, i: nat, n: Node)
    requires i <= |steps|
  {
    exists j :: 0 <= j < i && ReportedAt(conf, steps, j, n)
  }

  ghost predicate AllReported(conf: Config, steps: seq<Timed>, i: nat, nodes: map<string, Node>)
    requires i <= |steps|
  {
    forall g :: g in nodes ==> nodes[g].gatewayId == g && WasReported(conf, steps, i, nodes[g])
  }

  /** The answer to a report, and who is registered and who pending afterwards. */
  lemma AnswerExactly(s: State, r: Report, authenticated: bool, now: int)
    ensures var (answer, s') := Admit(s, r, authenticated, now);
      var allowed := Trim(r.gatewayId) == s.conf.defaultId ||
        (r.gatewayId in s.allow && Trim(s.allow[r.gatewayId]) == Trim(r.endpoint));
      && (answer == Malformed <==> !Complete(s.conf, r))
      && (answer == Unauthenticated <==> Complete(s.conf, r) && !authenticated)
      && (answer == Registered <==> Complete(s.conf, r) && authenticated && allowed)
      && (answer == Malformed || answer == Unauthenticated ==> s' == s)
      && (answer == Registered ==>
            && s'.nodes.Keys == s.nodes.Keys + {r.gatewayId} && s'.seen.Keys == s.seen.Keys - {r.gatewayId}
            && s'.allow == s.allow[r.gatewayId := r.endpoint] && s'.nodes[r.gatewayId].updatedAt == now)
      && (answer == NotApproved ==> s'.nodes == s.nodes && s'.allow == s.allow && r.gatewayId in s'.seen)
      && (forall g :: g != r.gatewayId ==> SameAbout(s, s', g))
      && s'.cache == s.cache && s'.rev == s.rev && s'.conf == s.conf
  {
    hide Trim;
  }

  /** Nothing changes about `g`. */
  ghost predicate SameAbout(s: State, s': State, g: string) {
    && (g in s.nodes <==> g in s'.nodes) && (g in s.nodes ==> s.nodes[g] == s'.nodes[g])
    && (g in s.seen <==> g in s'.seen) && (g in s.seen ==> s.seen[g] == s'.seen[g])
    && (g in s.allow <==> g in s'.allow) && (g in s.allow ==> s.allow[g] == s'.allow[g])
  }

  lemma ReportedNext(conf: Config, steps: seq<Timed>, i: nat, nodes: map<string, Node>)
    requires i < |steps| && AllReported(conf, steps, i, nodes)
    ensures AllReported(conf, steps, i + 1, nodes)
  {
    hide ReportedAt;
    forall g | g in nodes ensures WasReported(conf, steps, i + 1, nodes[g]) {
      assert WasReported(conf, steps, i, nodes[g]);
    }
  }

  lemma NodeReported(s: State, steps: seq<Timed>, i: nat)
    requires i < |steps| && steps[i].op.DoReport? && steps[i].op.authenticated &&
      WellFormedReport(s.conf, steps[i].op.r)
    ensures WasReported(s.conf, steps, i + 1, ReportedNode(steps[i].op.r, steps[i].now))
  {
    hide Trim;
    assert ReportedAt(s.conf, steps, i, ReportedNode(steps[i].op.r, steps[i].now));
  }

  ghost predicate NodesTraced(s: State, steps: seq<Timed>, i: nat)
    requires i <= |steps|
  {
    AllReported(s.conf, steps, i, s.nodes) && AllReported(s.conf, steps, i, s.seen)
  }

  lemma StepConf(s: State, op: Op, now: int)
    ensures Step(s, op, now).conf == s.conf
  {
    hide Trim, AliveList, Fingerprint, IssueAll, Pruned, Known;
  }

  /** Registered and pending gateways were registered or pending before. */
  ghost predicate NodesFrom(s: State, s': State) {
    && (forall g :: g in s'.nodes ==>
        (g in s.nodes && s'.nodes[g] == s.nodes[g]) || (g in s.seen && s'.nodes[g] == s.seen[g]))
    && (forall g :: g in s'.seen ==>
        (g in s.nodes && s'.seen[g] == s.nodes[g]) || (g in s.seen && s'.seen[g] == s.seen[g]))
  }

  lemma QuietNodes(s: State, op: Op, now: int)
    requires !op.DoReport?
    ensures NodesFrom(s, Step(s, op, now))
  {
    hide Trim, AliveList, Fingerprint, IssueAll, Pruned, Known;
  }

  lemma FromTraced(s: State, s': State, steps: seq<Timed>, i: nat)
    requires i <= |steps| && NodesTraced(s, steps, i) && NodesFrom(s, s') && s'.conf == s.conf
    ensures NodesTraced(s', steps, i)
  {
    hide WasReported;
  }

  lemma OneMoreReported(conf: Config, steps: seq<Timed>, i: nat, nodes: map<string, Node>, n: Node)
    requires i <= |steps| && AllReported(conf, steps, i, nodes)
    ensures WasReported(conf, steps, i, n) ==> AllReported(conf, steps, i, nodes[n.gatewayId := n])
    ensures AllReported(conf, steps, i, nodes - {n.gatewayId})
  {
    hide WasReported;
  }

  lemma ReportTraced(s: State, steps: seq<Timed>, i: nat)
    requires i < |steps| && NodesTraced(s, steps, i + 1) && steps[i].op.DoReport?
    ensures NodesTraced(Step(s, steps[i].op, steps[i].now), steps, i + 1)
  {
    var r, now := steps[i].op.r, steps[i].now;
    StepConf(s, steps[i].op, now);
    AdmitNodes(s, r, steps[i].op.authenticated, now);
    hide Admit, AllReported;
    if steps[i].op.authenticated && WellFormedReport(s.conf, r) {
      NodeReported(s, steps, i);
      hide WellFormedReport;
      OneMoreReported(s.conf, steps, i + 1, s.nodes, ReportedNode(r, now));
      OneMoreReported(s.conf, steps, i + 1, s.seen, ReportedNode(r, now));
    }
    hide WasReported;
  }

  lemma StepTraced(s: State, steps: seq<Timed>, i: nat)
    requires i < |steps| && NodesTraced(s, steps, i)
    ensures NodesTraced(Step(s, steps[i].op, steps[i].now), steps, i + 1)
  {
    hide Step, AllReported;
    ReportedNext(s.conf, steps, i, s.nodes);
    ReportedNext(s.conf, steps, i, s.seen);
    if steps[i].op.DoReport? {
      ReportTraced(s, steps, i);
    } else {
      StepConf(s, steps[i].op, steps[i].now);
      QuietNodes(s, steps[i].op, steps[i].now);
      FromTraced(s, Step(s, steps[i].op, steps[i].now), steps, i + 1);
    }
  }

  lemma AdmitNodes(s: State, r: Report, authenticated: bool, now: int)
    ensures var s' := Admit(s, r, authenticated, now).1;
      && (!authenticated || !WellFormedReport(s.conf, r) ==> s' == s)
      && (WellFormedReport(s.conf, r) ==>
            && (s'.nodes == s.nodes || s'.nodes == s.nodes[r.gatewayId := ReportedNode(r, now)])
            && (s'.seen == s.seen - {r.gatewayId} || s'.seen == s.seen ||
                s'.seen == s.seen[r.gatewayId := ReportedNode(r, now)]))
  {
    hide Trim;
  }

  lemma {:induction false} RunTraced(s: State, steps: seq<Timed>, i: nat)
    requires s.nodes == map[] && s.seen == map[] && i <= |steps|
    ensures NodesTraced(StateAt(s, steps, i), steps, i) && StateAt(s, steps, i).conf == s.conf
  {
    if i > 0 {
      hide Step, NodesTraced;
      RunTraced(s, steps, i - 1);
      StepTraced(StateAt(s, steps, i - 1), steps, i - 1);
      StepConf(StateAt(s, steps, i - 1), steps[i - 1].op, steps[i - 1].now);
    }
  }

  // ------------------------------------------------------------------- approvals

  predicate Delists(op: Op, g: string) {
    op.DoDelist? && Trim(op.id) == g
  }

  /** Before step `k`, or with the table loaded at the start, `g` was approved at the endpoint: outright, or by its
      id on a report that was pending. */
  ghost predicate ApprovedBy(s: State, steps: seq<Timed>, k: nat, g: string, endpoint: string)
    requires k <= |steps|
  {
    if k == 0 then g in s.allow && Trim(s.allow[g]) == Trim(endpoint)
    else
      var op := steps[k - 1].op;
      || (op.DoApprove? && op.id == g && Trim(op.endpoint) == Trim(endpoint))
      || (op.DoApproveById? && Trim(op.id) == g &&
          exists n: Node :: n.gatewayId == g && Trim(n.endpoint) == Trim(endpoint) &&
            WasReported(s.conf, steps, k - 1, n))
  }

  /** ... and not taken back since. */
  ghost predicate Stands(s: State, steps: seq<Timed>, k: nat, i: nat, g: string, endpoint: string)
    requires i <= |steps|
  {
    k <= i && ApprovedBy(s, steps, k, g, endpoint) && forall m :: k <= m < i ==> !Delists(steps[m].op, g)
  }

  ghost predicate HasApproval(s: State, steps: seq<Timed>, i: nat, g: string, endpoint: string)
    requires i <= |steps|
  {
    exists k :: Stands(s, steps, k, i, g, endpoint)
  }

  ghost predicate AllowTraced(s: State, steps: seq<Timed>, i: nat, allow: map<string, string>)
    requires i <= |steps|
  {
    forall g :: g in allow && g != "" && Trim(g) != s.conf.defaultId ==> HasApproval(s, steps, i, g, allow[g])
  }

  lemma ApprovalKept(s: State, steps: seq<Timed>, i: nat, g: string, endpoint: string)
    requires i < |steps| && HasApproval(s, steps, i, g, endpoint) && !Delists(steps[i].op, g)
    ensures HasApproval(s, steps, i + 1, g, endpoint)
  {
    hide ApprovedBy, Delists;
    var k :| Stands(s, steps, k, i, g, endpoint);
    assert Stands(s, steps, k, i + 1, g, endpoint);
  }

  lemma SameEndpoint(s: State, steps: seq<Timed>, i: nat, g: string, e: string, e': string)
    requires i <= |steps| && HasApproval(s, steps, i, g, e) && Trim(e) == Trim(e')
    ensures HasApproval(s, steps, i, g, e')
  {
    hide Trim, WasReported;
    var k :| Stands(s, steps, k, i, g, e);
    assert Stands(s, steps, k, i, g, e');
  }

  lemma ApprovedNow(s: State, steps: seq<Timed>, i: nat, g: string, endpoint: string)
    requires i < |steps| && ApprovedBy(s, steps, i + 1, g, endpoint)
    ensures HasApproval(s, steps, i + 1, g, endpoint)
  {
    hide ApprovedBy;
    assert Stands(s, steps, i + 1, i + 1, g, endpoint);
  }

  /** What one step makes of the approval of `g`: it stays, up to spaces; or the step approves it; or takes it back;
      or `g` is the default gateway. */
  lemma AllowStep(s0: State, s: State, steps: seq<Timed>, i: nat, g: string)
    requires i < |steps| && NodesTraced(s, steps, i) && s.conf == s0.conf && g != "" && Trim(g) != s.conf.defaultId
    ensures var allow := Step(s, steps[i].op, steps[i].now).allow;
      g in allow ==>
        ApprovedBy(s0, steps, i + 1, g, allow[g]) ||
        (g in s.allow && Trim(s.allow[g]) == Trim(allow[g]) && !Delists(steps[i].op, g))
  {
    hide WasReported, AliveList, Fingerprint, Served, Trim, WellFormedReport, Sync;
    var op := steps[i].op;
    if op.DoApproveById? && g in s.seen { assert s.seen[g].gatewayId == g; }
    if op.DoServe? || op.DoSync? { QuietAllow(s, op, steps[i].now); }
    if op.DoDelist? {
      TrimSound(op.id);
      TrimSound(g);
    }
  }

  lemma QuietAllow(s: State, op: Op, now: int)
    requires op.DoServe? || op.DoSync?
    ensures Step(s, op, now).allow == s.allow
  {
    hide AliveList, Fingerprint, IssueAll, Pruned, Known;
  }

  lemma StepAllowTraced(s0: State, s: State, steps: seq<Timed>, i: nat)
    requires i < |steps| && NodesTraced(s, steps, i) && s.conf == s0.conf && AllowTraced(s0, steps, i, s.allow)
    ensures AllowTraced(s0, steps, i + 1, Step(s, steps[i].op, steps[i].now).allow)
  {
    var allow := Step(s, steps[i].op, steps[i].now).allow;
    forall g | g in allow && g != "" && Trim(g) != s0.conf.defaultId
      ensures HasApproval(s0, steps, i + 1, g, allow[g]) {
      AllowStep(s0, s, steps, i, g);
      hide HasApproval, ApprovedBy, NodesTraced, Delists, Trim, Step;
      if ApprovedBy(s0, steps, i + 1, g, allow[g]) {
        ApprovedNow(s0, steps, i, g, allow[g]);
      } else {
        ApprovalKept(s0, steps, i, g, s.allow[g]);
        SameEndpoint(s0, steps, i + 1, g, s.allow[g], allow[g]);
      }
    }
  }

  lemma LoadedStand(s: State, steps: seq<Timed>)
    ensures AllowTraced(s, steps, 0, s.allow)
  {
    forall g | g in s.allow ensures HasApproval(s, steps, 0, g, s.allow[g]) {
      assert Stands(s, steps, 0, 0, g, s.allow[g]);
    }
  }

  lemma {:induction false} RunAllowTraced(s: State, steps: seq<Timed>, i: nat)
    requires s.nodes == map[] && s.seen == map[] && i <= |steps|
    ensures AllowTraced(s, steps, i, StateAt(s, steps, i).allow)
  {
    hide Step, NodesTraced, AllowTraced, Trim;
    if i == 0 {
      LoadedStand(s, steps);
    } else {
      RunAllowTraced(s, steps, i - 1);
      RunTraced(s, steps, i - 1);
      StepAllowTraced(s, StateAt(s, steps, i - 1), steps, i - 1);
    }
  }

  /** A gateway is alive only on an authenticated report of the last ninety seconds, the one its entry shows, with an
      endpoint that is not blank; and unless it is the default one, an approval of its id stands, for that endpoint
      or for a blank one. */
  lemma AliveIsApproved(s: State, steps: seq<Timed>, i: nat, now: int, g: string)
    requires Good(s) && s.nodes == map[] && s.seen == map[] && i <= |steps| && g in AliveIds(StateAt(s, steps, i), now)
    ensures g in StateAt(s, steps, i).nodes
    ensures var n := StateAt(s, steps, i).nodes[g];
      && n.gatewayId == g && Trim(n.endpoint) != "" && now <= n.updatedAt + 90_000_000_000
      && WasReported(s.conf, steps, i, n)
      && (Trim(g) == s.conf.defaultId || HasApproval(s, steps, i, g, n.endpoint) || HasApproval(s, steps, i, g, ""))
  {
    RunGood(s, steps, i);
    RunTraced(s, steps, i);
    RunAllowTraced(s, steps, i);
    var t := StateAt(s, steps, i);
    var n := t.nodes[g];
    TrimSound("");
    assert WasReported(s.conf, steps, i, n);
    assert g != "" by { assert g == "" ==> Trim(g) == ""; }
    hide StateAt, HasApproval, WasReported, Trim;
    if Trim(g) != s.conf.defaultId {
      if Trim(t.allow[g]) == "" { SameEndpoint(s, steps, i, g, t.allow[g], ""); }
      else { SameEndpoint(s, steps, i, g, t.allow[g], n.endpoint); }
    }
  }

  // ------------------------------------------------------------- staying registered

  /** Steps that can take `g`, registered at the endpoint, out of service. */
  predicate Disturbs(conf: Config, op: Op, g: string, endpoint: string) {
    || Delists(op, g)
    || (op.DoApprove? && op.id == g && Trim(op.endpoint) != Trim(endpoint))
    || (op.DoReport? && op.r.gatewayId == g && Trim(g) == conf.defaultId && Trim(op.r.endpoint) != Trim(endpoint))
  }

  ghost predicate InService(s: State, g: string, endpoint: string, since: int) {
    && Trim(endpoint) != "" && g in s.nodes && s.nodes[g].gatewayId == g && s.nodes[g].updatedAt >= since
    && g in s.allow && Trim(s.allow[g]) == Trim(s.nodes[g].endpoint) == Trim(endpoint)
  }

  lemma StaysInService(s: State, op: Op, now: int, g: string, endpoint: string, since: int)
    requires InService(s, g, endpoint, since) && !Disturbs(s.conf, op, g, endpoint) && since <= now
    ensures InService(Step(s, op, now), g, endpoint, since)
  {
    hide Trim, AliveList, Fingerprint, IssueAll, Pruned, Known, WellFormedReport;
    if op.DoReport? { AdmitNodes(s, op.r, op.authenticated, now); }
  }

  /** A gateway that is registered stays alive for ninety seconds from its report, through whatever else happens,
      unless it is delisted or approved at another endpoint, or is the default one and reports another. */
  lemma {:induction false} RegisteredStaysAlive(s: State, steps: seq<Timed>, j: nat, i: nat, now: int)
    requires j < i <= |steps| && steps[j].op.DoReport? && Trim(steps[j].op.r.endpoint) != ""
    requires Admit(StateAt(s, steps, j), steps[j].op.r, steps[j].op.authenticated, steps[j].now).0 == Registered
    requires forall m :: j < m < i ==>
      steps[j].now <= steps[m].now &&
        !Disturbs(StateAt(s, steps, m).conf, steps[m].op, steps[j].op.r.gatewayId, steps[j].op.r.endpoint)
    requires now <= steps[j].now + 90_000_000_000
    ensures steps[j].op.r.gatewayId in AliveIds(StateAt(s, steps, i), now)
  {
    var g, e := steps[j].op.r.gatewayId, steps[j].op.r.endpoint;
    ServedUntil(s, steps, j, i);
    hide StateAt, Trim;
  }

  lemma {:induction false} ServedUntil(s: State, steps: seq<Timed>, j: nat, i: nat)
    requires j < i <= |steps| && steps[j].op.DoReport? && Trim(steps[j].op.r.endpoint) != ""
    requires Admit(StateAt(s, steps, j), steps[j].op.r, steps[j].op.authenticated, steps[j].now).0 == Registered
    requires forall m :: j < m < i ==>
      steps[j].now <= steps[m].now &&
        !Disturbs(StateAt(s, steps, m).conf, steps[m].op, steps[j].op.r.gatewayId, steps[j].op.r.endpoint)
    ensures InService(StateAt(s, steps, i), steps[j].op.r.gatewayId, steps[j].op.r.endpoint, steps[j].now)
    decreases i
  {
    hide Trim, Disturbs, Admit, InService;
    if i == j + 1 {
      NowInService(StateAt(s, steps, j), steps[j].op.r, steps[j].op.authenticated, steps[j].now);
    } else {
      hide Step;
      ServedUntil(s, steps, j, i - 1);
      StaysInService(StateAt(s, steps, i - 1), steps[i - 1].op, steps[i - 1].now, steps[j].op.r.gatewayId,
                     steps[j].op.r.endpoint, steps[j].now);
    }
  }

  lemma NowInService(s: State, r: Report, authenticated: bool, now: int)
    requires Trim(r.endpoint) != "" && Admit(s, r, authenticated, now).0 == Registered
    ensures InService(Admit(s, r, authenticated, now).1, r.gatewayId, r.endpoint, now)
  {
    hide Trim;
  }

  /** Delisting keeps the last report pending: approving the gateway by its id brings it back as it was, with none of
      its grants. */
  lemma DelistThenApprove(s: State, g: string)
    requires Good(s) && g in s.nodes && Trim(g) == g && g != "" && g != s.conf.defaultId &&
      Trim(s.nodes[g].endpoint) != ""
    ensures var d := Delist(s, g); var a := ApproveById(d.1, g);
      && d.0 == None && a.0 == None && g !in d.1.nodes && g !in d.1.allow && d.1.seen == s.seen[g := s.nodes[g]]
      && a.1.nodes == s.nodes && a.1.allow == s.allow[g := s.nodes[g].endpoint]
      && (forall k :: k in a.1.cache <==> k in s.cache && s.cache[k].gatewayId != g)
  {
    hide Trim;
  }

  /** A pending gateway is approved by its id exactly when its report has an endpoint, and is then registered as it
      reported; one approved already, or the default one, is left as it is. */
  lemma ApproveExactly(s: State, id: string)
    ensures var g := Trim(id); var (err, s') := ApproveById(s, id);
      var done := g == s.conf.defaultId || (g in s.allow && Trim(s.allow[g]) != "");
      var pending := g in s.seen && Trim(s.seen[g].endpoint) != "";
      && (err == None <==> g != "" && (done || pending))
      && (err == None && !done ==>
            && g in s'.nodes && s'.nodes[g] == s.seen[g] && g in s'.allow && s'.allow[g] == s.seen[g].endpoint
            && forall h :: h != g ==> SameAbout(s, s', h))
      && (err.Some? || done ==> s' == s)
  {
    hide Trim;
  }

  // ----------------------------------------------------------------- where grants come from

  /** A grant as a call mints it: for an alive gateway, to the caller, with a ticket of the revision in force, that
      ends after the hard time to live and is to be refreshed the lead earlier, in whole milliseconds; its session is
      numbered by the clock and the rank of the gateway, unless it is the one the refresh names. */
  ghost predicate NewGrant(s: State, call: Call, now: int, x: Grant) {
    && x.gatewayId in AliveIds(s, now)
    && x.ticket == Ticket(call.owner.device, call.owner.ip, x.session, Served(s, call, now).rev, x.gatewayId,
                          x.expireMs)
    && x.expireMs * 1_000_000 <= now + s.conf.hardTTL < (x.expireMs + 1) * 1_000_000
    && x.refreshAfterMs * 1_000_000 <= now + s.conf.hardTTL - s.conf.softLead < (x.refreshAfterMs + 1) * 1_000_000
    && ((call.refresh && !call.force && x.session == call.lastSession) || exists rank :: Ranks(s, now, x.session, rank))
  }

  ghost predicate Ranks(s: State, now: int, session: uint64, rank: nat) {
    rank < |AliveList(s, now)| && session == (now + rank) % 0x1_0000_0000_0000_0000
  }

  lemma InMillis(t: int)
    ensures (t / MILLI) * 1_000_000 <= t < (t / MILLI + 1) * 1_000_000
  {
  }

  lemma AliveAt(s: State, now: int, i: nat)
    requires Good(s) && i < |AliveList(s, now)|
    ensures AliveList(s, now)[i].gatewayId in AliveIds(s, now)
  {
    hide AliveList, AliveIds, Good, IsAliveList;
    AliveFacts(s, now);
    assert IsAliveNode(s, now, AliveList(s, now)[i]);
  }

  lemma MintIsNew(s: State, call: Call, now: int, i: nat, session: uint64)
    requires Good(s) && i < |AliveList(s, now)| && AliveList(s, now)[i].channels != []
    requires (call.refresh && !call.force && session == call.lastSession) || session == SessionId(now, i)
    ensures NewGrant(s, call, now, Mint(s.conf, call.owner, AliveList(s, now)[i], session, Prepared(s, now).rev, now))
  {
    hide AliveList, AliveIds, Prepared, Served, Good;
    AliveAt(s, now, i);
    ServedRev(s, call, now);
    if session == SessionId(now, i) { assert Ranks(s, now, session, i); }
    InMillis(now + s.conf.hardTTL);
    InMillis(now + s.conf.hardTTL - s.conf.softLead);
    hide Ranks, SessionId;
  }

  /** Entries of `c'` are entries of `c` or new grants. */
  ghost predicate OnlyNew(s: State, call: Call, now: int, c: Cache, c': Cache) {
    forall k :: k in c' ==> (k in c && c'[k] == c[k]) || NewGrant(s, call, now, c'[k].grant)
  }

  lemma IssueNew(s: State, call: Call, now: int, known: bool, i: nat, cache: Cache)
    requires Good(s) && i < |AliveList(s, now)|
    ensures OnlyNew(s, call, now, cache,
                    IssueFor(Prepared(s, now).(cache := cache), call, known, AliveList(s, now)[i], i, now).cache)
  {
    hide AliveList, NewGrant, Mint, Key, NodeFingerprint, SessionId, Good, Reusable;
    var p, n := Prepared(s, now).(cache := cache), AliveList(s, now)[i];
    var key := Key(call.owner, n.gatewayId);
    var session := if CarriesOver(cache, call, key) then call.lastSession else SessionId(now, i);
    assert p.conf == s.conf && p.rev == Prepared(s, now).rev;
    if n.channels != [] { MintIsNew(s, call, now, i, session); }
    hide Prepared;
  }

  lemma OnlyNewTwice(s: State, call: Call, now: int, a: Cache, b: Cache, c: Cache)
    requires OnlyNew(s, call, now, a, b) && OnlyNew(s, call, now, b, c)
    ensures OnlyNew(s, call, now, a, c)
  {
    hide NewGrant;
  }

  lemma {:induction false} BatchNew(s: State, call: Call, now: int, known: bool, k: nat)
    requires Good(s) && k <= |AliveList(s, now)|
    ensures OnlyNew(s, call, now, Pruned(s, now),
                    IssueAll(Prepared(s, now), call, known, AliveList(s, now), k, now).cache)
  {
    hide AliveList, NewGrant, IssueFor, Pruned, Fingerprint;
    if k > 0 {
      BatchNew(s, call, now, known, k - 1);
      var before := IssueAll(Prepared(s, now), call, known, AliveList(s, now), k - 1, now).cache;
      IssueNew(s, call, now, known, k - 1, before);
      hide Prepared, OnlyNew;
      OnlyNewTwice(s, call, now, Pruned(s, now), before,
                   IssueAll(Prepared(s, now), call, known, AliveList(s, now), k, now).cache);
    }
  }

  /** Step `j` minted the grant, whatever revision has been stamped on it since. */
  ghost predicate MintedAt(s: State, steps: seq<Timed>, j: nat, x: Grant)
    requires j < |steps|
  {
    steps[j].op.DoServe? && NewGrant(StateAt(s, steps, j), steps[j].op.call, steps[j].now, x)
  }

  ghost predicate WasMinted(s: State, steps: seq<Timed>, i: nat, x: Grant)
    requires i <= |steps|
  {
    exists j :: 0 <= j < i && MintedAt(s, steps, j, x)
  }

  ghost predicate CacheMinted(s: State, steps: seq<Timed>, i: nat, cache: Cache)
    requires i <= |steps|
  {
    forall k :: k in cache ==> WasMinted(s, steps, i, cache[k].grant)
  }

  lemma StampedMint(s: State, steps: seq<Timed>, j: nat, x: Grant, rev: uint64)
    requires j < |steps|
    ensures MintedAt(s, steps, j, x) <==> MintedAt(s, steps, j, x.(policyRev := rev))
  {
    hide StateAt, AliveIds, AliveList, Served, Ranks;
  }

  lemma ServeMinted(s: State, steps: seq<Timed>, i: nat)
    requires Good(s) && i < |steps| && steps[i].op.DoServe? && CacheMinted(s, steps, i, StateAt(s, steps, i).cache)
    ensures CacheMinted(s, steps, i + 1, StateAt(s, steps, i + 1).cache)
  {
    RunGood(s, steps, i);
    var t, call, now := StateAt(s, steps, i), steps[i].op.call, steps[i].now;
    var cache := StateAt(s, steps, i + 1).cache;
    assert OnlyNew(t, call, now, t.cache, cache) by {
      BatchNew(t, call, now, Known(t, call, now), |AliveList(t, now)|);
      hide NewGrant, AliveList, IssueAll, Known, Fingerprint, Fresh;
    }
    hide StateAt, NewGrant, Good;
    forall k | k in cache ensures WasMinted(s, steps, i + 1, cache[k].grant) {
      if k in t.cache && cache[k] == t.cache[k] {
        assert WasMinted(s, steps, i, t.cache[k].grant);
      } else {
        assert MintedAt(s, steps, i, cache[k].grant);
      }
    }
  }

  lemma QuietCache(s: State, op: Op, now: int)
    requires !op.DoServe?
    ensures var c, c' := s.cache, Step(s, op, now).cache; forall k :: k in c' ==> k in c && c'[k] == c[k]
  {
    hide Trim, AliveList, Fingerprint, WellFormedReport, Allowed;
  }

  lemma QuietMinted(s: State, steps: seq<Timed>, i: nat)
    requires i < |steps| && !steps[i].op.DoServe? && CacheMinted(s, steps, i, StateAt(s, steps, i).cache)
    ensures CacheMinted(s, steps, i + 1, StateAt(s, steps, i + 1).cache)
  {
    var c, c' := StateAt(s, steps, i).cache, StateAt(s, steps, i + 1).cache;
    QuietCache(StateAt(s, steps, i), steps[i].op, steps[i].now);
    hide Step, MintedAt;
    forall k | k in c' ensures WasMinted(s, steps, i + 1, c'[k].grant) {
      assert WasMinted(s, steps, i, c[k].grant);
    }
  }

  lemma NothingMinted(s: State, steps: seq<Timed>)
    requires s.cache == map[]
    ensures CacheMinted(s, steps, 0, StateAt(s, steps, 0).cache)
  {
  }

  lemma {:induction false} RunMinted(s: State, steps: seq<Timed>, i: nat)
    requires Good(s) && s.cache == map[] && i <= |steps|
    ensures CacheMinted(s, steps, i, StateAt(s, steps, i).cache)
  {
    hide Step, CacheMinted, Good;
    if i == 0 {
      NothingMinted(s, steps);
    } else {
      RunMinted(s, steps, i - 1);
      if steps[i - 1].op.DoServe? { ServeMinted(s, steps, i - 1); } else { QuietMinted(s, steps, i - 1); }
    }
  }

  /** The grant is of a call before, and outlasts the clock by more than thirty seconds; or of this very call. */
  ghost predicate Valid(s: State, steps: seq<Timed>, i: nat, x: Grant)
    requires i < |steps|
  {
    (WasMinted(s, steps, i, x) && x.expireMs * 1_000_000 > steps[i].now + 30_000_000_000) || MintedAt(s, steps, i, x)
  }

  lemma CachedIsValid(s: State, steps: seq<Timed>, i: nat, k: string, rev: uint64)
    requires Good(s) && s.cache == map[] && i < |steps|
    requires k in StateAt(s, steps, i).cache && Fresh(StateAt(s, steps, i), StateAt(s, steps, i).cache[k], steps[i].now)
    ensures Valid(s, steps, i, StateAt(s, steps, i).cache[k].grant.(policyRev := rev))
  {
    hide StateAt, MintedAt;
    RunMinted(s, steps, i);
    RunGood(s, steps, i);
    var t := StateAt(s, steps, i);
    FreshOutlasts(t, t.cache[k], steps[i].now);
    hide Fresh, Good, Coherent;
    var j :| 0 <= j < i && MintedAt(s, steps, j, t.cache[k].grant);
    StampedMint(s, steps, j, t.cache[k].grant, rev);
  }

  lemma FreshOutlasts(s: State, c: Cached, now: int)
    requires Fresh(s, c, now) && Coherent(c)
    ensures c.grant.expireMs * 1_000_000 > now + 30_000_000_000
  {
    hide Approved, NodeFingerprint;
    InMillis(now + MARGIN);
  }

  /** Over every run each grant handed out was minted by a call that was served, this one or an earlier one, and then
      it is good for at least half a minute more; it bears the revision now in force. */
  lemma ListedWasMinted(s: State, steps: seq<Timed>, i: nat, order: seq<string>, x: Grant)
    requires Good(s) && s.cache == map[] && i < |steps| && steps[i].op.DoServe?
    requires RetainedWalk(StateAt(s, steps, i), steps[i].op.call, steps[i].now, order)
    requires x in GrantList(StateAt(s, steps, i), steps[i].op.call, steps[i].now, order)
    ensures Valid(s, steps, i, x) && x.policyRev == StateAt(s, steps, i + 1).rev
  {
    var t, call, now := StateAt(s, steps, i), steps[i].op.call, steps[i].now;
    hide StateAt, GrantList, RetainedWalk, Prepared, Good, Served, Valid, AliveGrant, SilentGrant, Step;
    ServeNext(s, steps, i);
    RunGood(s, steps, i);
    ServedRev(t, call, now);
    GrantListMember(t, call, now, order, x);
    if r: nat :| AliveGrant(t, call, now, r, x) {
      AliveValid(s, steps, i, r, x);
    } else {
      var k :| SilentGrant(t, call, now, k, x);
      SilentValid(s, steps, i, k, x);
    }
  }

  lemma ServeNext(s: State, steps: seq<Timed>, i: nat)
    requires i < |steps| && steps[i].op.DoServe?
    ensures StateAt(s, steps, i + 1) == Served(StateAt(s, steps, i), steps[i].op.call, steps[i].now)
  {
    hide Served;
  }

  lemma SilentValid(s: State, steps: seq<Timed>, i: nat, k: string, x: Grant)
    requires Good(s) && s.cache == map[] && i < |steps| && steps[i].op.DoServe?
    requires SilentGrant(StateAt(s, steps, i), steps[i].op.call, steps[i].now, k, x)
    ensures Valid(s, steps, i, x) && x.policyRev == Prepared(StateAt(s, steps, i), steps[i].now).rev
  {
    hide StateAt, Prepared, Good, Valid, Fresh, AliveIds, Overwritten, Prefix;
    CachedIsValid(s, steps, i, k, Prepared(StateAt(s, steps, i), steps[i].now).rev);
  }

  lemma AliveValid(s: State, steps: seq<Timed>, i: nat, r: nat, x: Grant)
    requires Good(s) && s.cache == map[] && i < |steps| && steps[i].op.DoServe?
    requires AliveGrant(StateAt(s, steps, i), steps[i].op.call, steps[i].now, r, x)
    ensures Valid(s, steps, i, x) && x.policyRev == Prepared(StateAt(s, steps, i), steps[i].now).rev
  {
    hide StateAt, Prepared, Good, Valid, Fresh, AliveList, Reissues, Key, Carried, NodeFingerprint;
    var t, call, now := StateAt(s, steps, i), steps[i].op.call, steps[i].now;
    var g := AliveList(t, now)[r].gatewayId;
    RunGood(s, steps, i);
    MintRev(t, call, now, r, x);
    if Keeps(t, call, g, now) {
      CachedIsValid(s, steps, i, Key(call.owner, g), Prepared(t, now).rev);
    } else {
      SlotMinted(s, steps, i, r, x);
    }
  }

  lemma MintRev(s: State, call: Call, now: int, r: nat, x: Grant)
    requires AliveGrant(s, call, now, r, x)
    ensures x.policyRev == Prepared(s, now).rev
  {
    hide Prepared, AliveList, Keeps, Carried, Key, NodeFingerprint;
  }

  lemma SlotMinted(s: State, steps: seq<Timed>, i: nat, r: nat, x: Grant)
    requires i < |steps| && steps[i].op.DoServe? && Good(StateAt(s, steps, i))
    requires var t, call, now := StateAt(s, steps, i), steps[i].op.call, steps[i].now;
      AliveGrant(t, call, now, r, x) && !Keeps(t, call, AliveList(t, now)[r].gatewayId, now)
    ensures Valid(s, steps, i, x)
  {
    var t, call, now := StateAt(s, steps, i), steps[i].op.call, steps[i].now;
    var n := AliveList(t, now)[r];
    hide StateAt, AliveList, NewGrant, Prepared, Mint, Good, Keeps;
    MintIsNew(t, call, now, r, if Carried(t, call, n.gatewayId, now) then call.lastSession else SessionId(now, r));
  }

  /** Sessions numbered by two calls are different when the second comes at least as many nanoseconds after the first
      as that had gateways, within the range of 64 bits. */
  lemma SessionsApartOverRun(s: State, t: State, now: int, later: int, a: uint64, b: uint64, i: nat, j: nat)
    requires Ranks(s, now, a, i) && Ranks(t, later, b, j)
    requires now + |AliveList(s, now)| <= later && later + |AliveList(t, later)| <= now + TWO64
    ensures a != b
  {
    hide AliveList;
    Apart(now + i, later + j);
  }

  lemma Apart(x: int, y: int)
    requires x < y < x + TWO64
    ensures x % TWO64 != y % TWO64
  {
  }
}
