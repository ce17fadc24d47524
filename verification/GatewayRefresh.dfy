/** The main results about grants: what list a call returns, which sessions a refresh keeps, and what
    the verdict of a refresh tells the client. */
module GatewayRefresh {
  import opened Text
  import opened Ranking
  import opened Gateway
  import opened GatewayGrants

  // ------------------------------------------------------- the list, whatever the names

  lemma ServedRev(s: State, call: Call, now: int)
    ensures Served(s, call, now).rev == Prepared(s, now).rev
  {
  }

  /** Grants of gateways that are active and approved, under revision `rev`, coherent with their tickets. */
  ghost predicate Proper(s: State, x: Grant, rev: uint64) {
    && x.gatewayId in s.nodes && Approved(s, s.nodes[x.gatewayId]) && x.policyRev == rev
    && x.gatewayId == x.ticket.gatewayId && x.session == x.ticket.session && x.expireMs == x.ticket.expireMs
  }

  lemma SlotProper(s: State, call: Call, now: int, i: nat, x: Grant)
    requires Good(s) && i < |AliveList(s, now)| &&
      Gets(Prepared(s, now), call, Known(s, call, now), AliveList(s, now), i, now, x)
    ensures Proper(s, x, Prepared(s, now).rev)
  {
    AliveFacts(s, now);
    hide AliveList, NodeFingerprint, Key, Known, Fingerprint;
    var n := AliveList(s, now)[i];
    var key := Key(call.owner, n.gatewayId);
    if key in s.cache { assert Coherent(s.cache[key]); }
  }

  lemma StampedProper(s: State, call: Call, now: int, k: string)
    requires Good(s) && k in RetainedKeys(Served(s, call, now), call, AliveIds(s, now), now)
    ensures Proper(s, Served(s, call, now).cache[k].grant.(policyRev := Prepared(s, now).rev), Prepared(s, now).rev)
  {
    ServedGood(s, call, now);
    hide BatchOf, NodeFingerprint, Prefix, AliveIds, Trim;
    assert Coherent(Served(s, call, now).cache[k]);
  }

  ghost predicate Slotted(s: State, call: Call, now: int, x: Grant) {
    exists i :: 0 <= i < |AliveList(s, now)| &&
      Gets(Prepared(s, now), call, Known(s, call, now), AliveList(s, now), i, now, x)
  }

  ghost predicate Retained(s: State, call: Call, now: int, x: Grant) {
    call.retain && exists k :: k in RetainedKeys(Served(s, call, now), call, AliveIds(s, now), now) &&
                               x == Served(s, call, now).cache[k].grant.(policyRev := Prepared(s, now).rev)
  }

  lemma SlottedIsListed(s: State, call: Call, now: int, x: Grant)
    requires Good(s)
    ensures Slotted(s, call, now, x) <==> x in BatchOf(s, call, now).grants
  {
    hide IssueAll, IssueFor, Prepared, Known, AliveList;
    AliveFacts(s, now);
    var p, known, nodes := Prepared(s, now), Known(s, call, now), AliveList(s, now);
    if Slotted(s, call, now, x) {
      var i :| 0 <= i < |nodes| && Gets(p, call, known, nodes, i, now, x);
      SlotListed(p, call, known, nodes, |nodes|, now, i, x);
    }
    if x in BatchOf(s, call, now).grants { var i := ListedSlot(p, call, known, nodes, |nodes|, now, x); }
  }

  lemma RetainedIsListed(s: State, call: Call, now: int, order: seq<string>, x: Grant)
    requires RetainedWalk(s, call, now, order)
    ensures Retained(s, call, now, x) <==> x in Stamped(Served(s, call, now).cache, order, Served(s, call, now).rev)
  {
    hide BatchOf, Prepared, Prefix, Fresh;
    ServedRev(s, call, now);
    var gs := Stamped(Served(s, call, now).cache, order, Served(s, call, now).rev);
    if Retained(s, call, now, x) {
      var k :| k in RetainedKeys(Served(s, call, now), call, AliveIds(s, now), now) &&
               x == Served(s, call, now).cache[k].grant.(policyRev := Prepared(s, now).rev);
      var j :| 0 <= j < |order| && order[j] == k;
      assert gs[j] == x;
    }
    if x in gs {
      var j :| 0 <= j < |gs| && gs[j] == x;
      assert order[j] in order;
    }
  }

  /** For every caller in every reachable state, whatever the names: the list holds what the alive gateways
      get and what is retained; it is in order with the default first; and each grant is of an active approved
      gateway, under the returned revision and coherent with its ticket. */
  lemma GrantListAlways(s: State, call: Call, now: int, order: seq<string>)
    requires Good(s) && RetainedWalk(s, call, now, order)
    ensures var l := GrantList(s, call, now, order);
      && (forall x :: x in l <==> Slotted(s, call, now, x) || Retained(s, call, now, x))
      && InOrder(s.conf.defaultId, Ids(GrantId, l))
      && (s.conf.defaultId in Ids(GrantId, l) ==> l[0].gatewayId == s.conf.defaultId)
      && (forall x :: x in l ==> Proper(s, x, Served(s, call, now).rev))
  {
    ServedRev(s, call, now);
    hide BatchOf, Prepared, Served, AliveList, Slotted, Retained, Proper, Good;
    var l := GrantList(s, call, now, order);
    var gs := BatchOf(s, call, now).grants + Stamped(Served(s, call, now).cache, order, Served(s, call, now).rev);
    SortInOrder(s.conf.defaultId, GrantId, gs);
    if s.conf.defaultId in Ids(GrantId, l) { DefaultLeads(s.conf.defaultId, Ids(GrantId, l)); }
    forall x ensures x in l <==> Slotted(s, call, now, x) || Retained(s, call, now, x) {
      SortMember(s.conf.defaultId, GrantId, gs, x);
      SlottedIsListed(s, call, now, x);
      RetainedIsListed(s, call, now, order, x);
    }
    forall x | x in l ensures Proper(s, x, Served(s, call, now).rev) { ListedProper(s, call, now, x); }
  }

  lemma ListedProper(s: State, call: Call, now: int, x: Grant)
    requires Good(s) && (Slotted(s, call, now, x) || Retained(s, call, now, x))
    ensures Proper(s, x, Prepared(s, now).rev)
  {
    hide Prepared, Served, AliveList, Good, Proper, Gets, Prefix, Fresh;
    if Slotted(s, call, now, x) {
      var i :| 0 <= i < |AliveList(s, now)| &&
        Gets(Prepared(s, now), call, Known(s, call, now), AliveList(s, now), i, now, x);
      SlotProper(s, call, now, i, x);
    } else {
      var k :| k in RetainedKeys(Served(s, call, now), call, AliveIds(s, now), now) &&
               x == Served(s, call, now).cache[k].grant.(policyRev := Prepared(s, now).rev);
      StampedProper(s, call, now, k);
    }
  }

  // ------------------------------------------------- the list, against the reference

  lemma GrantListMember(s: State, call: Call, now: int, order: seq<string>, x: Grant)
    requires Good(s) && RetainedWalk(s, call, now, order)
    ensures x in GrantList(s, call, now, order) <==>
      (exists i :: AliveGrant(s, call, now, i, x)) || (call.retain && exists k :: SilentGrant(s, call, now, k, x))
  {
    hide BatchOf, Served, Prepared, AliveGrant, SilentGrant, Good;
    var a, b := BatchOf(s, call, now).grants, Stamped(Served(s, call, now).cache, order, Served(s, call, now).rev);
    SortMember(s.conf.defaultId, GrantId, a + b, x);
    ServedRev(s, call, now);
    if x in a { var i := ListedIsAliveGrant(s, call, now, x); }
    if x in b {
      var j :| 0 <= j < |b| && b[j] == x;
      StampedIsSilentGrant(s, call, now, order, j);
    }
    forall i | AliveGrant(s, call, now, i, x) ensures x in a { AliveGrantListed(s, call, now, i, x); }
    if call.retain {
      forall k | SilentGrant(s, call, now, k, x) ensures x in b { SilentGrantListed(s, call, now, order, k, x); }
    }
  }

  lemma GrantListRanked(s: State, call: Call, now: int, order: seq<string>)
    requires Good(s) && RetainedWalk(s, call, now, order)
    ensures Ranked(s.conf.defaultId, Ids(GrantId, GrantList(s, call, now, order))) <==> NoRivals(s, call, now)
  {
    hide BatchOf, Served, Prepared, Good, NoRivals;
    ServedRev(s, call, now);
    AllIdsDistinct(s, call, now, order);
    var gs := BatchOf(s, call, now).grants + Stamped(Served(s, call, now).cache, order, Served(s, call, now).rev);
    if DistinctIds(GrantId, gs) { SortRanks(s.conf.defaultId, GrantId, gs); }
    if Ranked(s.conf.defaultId, Ids(GrantId, GrantList(s, call, now, order))) {
      RankedDistinct(s.conf.defaultId, GrantId, GrantList(s, call, now, order));
      SortDistinct(s.conf.defaultId, GrantId, gs);
    }
  }

  /** Every entry the call keeps or retains was signed for the caller's device and address. */
  ghost predicate NoStrangers(s: State, call: Call, now: int) {
    && (forall g :: g in AliveIds(s, now) ==> OffersOwn(s, call, g, now))
    && (call.retain ==> forall k :: Silent(s, call, k, now) ==> SignedFor(s.cache[k].grant, call.owner))
  }

  lemma GrantsSigned(s: State, call: Call, now: int, order: seq<string>)
    requires Good(s) && RetainedWalk(s, call, now, order)
    ensures (forall x :: x in GrantList(s, call, now, order) ==> SignedFor(x, call.owner)) <==>
      NoStrangers(s, call, now)
  {
    hide GrantList, Prepared, AliveGrant, Silent, Good, RetainedWalk, OffersOwn, AliveIds;
    if NoStrangers(s, call, now) {
      forall x | x in GrantList(s, call, now, order) ensures SignedFor(x, call.owner) {
        GrantListMember(s, call, now, order, x);
        if i: nat :| AliveGrant(s, call, now, i, x) { AliveGrantFacts(s, call, now, i, x); }
      }
    }
    if forall x :: x in GrantList(s, call, now, order) ==> SignedFor(x, call.owner) {
      forall g | g in AliveIds(s, now) ensures OffersOwn(s, call, g, now) { KeptSigned(s, call, now, order, g); }
      SilentAreCached(s, call, now);
      if call.retain {
        forall k | Silent(s, call, k, now) ensures SignedFor(s.cache[k].grant, call.owner) {
          var x := s.cache[k].grant.(policyRev := Prepared(s, now).rev);
          assert SilentGrant(s, call, now, k, x);
          GrantListMember(s, call, now, order, x);
        }
      }
    }
  }

  lemma KeptSigned(s: State, call: Call, now: int, order: seq<string>, g: string)
    requires Good(s) && RetainedWalk(s, call, now, order) && g in AliveIds(s, now)
    requires forall x :: x in GrantList(s, call, now, order) ==> SignedFor(x, call.owner)
    ensures OffersOwn(s, call, g, now)
  {
    AliveAreNodes(s, now);
    hide GrantList, Prepared, AliveGrant, Good, RetainedWalk, AliveIds, Unmintable;
    if Keeps(s, call, g, now) {
      hide Keeps;
      var i, x := OfferedIsGrant(s, call, now, g);
      AliveGrantFacts(s, call, now, i, x);
      GrantListMember(s, call, now, order, x);
    }
  }

  /** The list, for every caller in every reachable state: one grant per alive gateway, the good cached one or a
      new one, and for an existing client the good entry of every silent gateway that its scan meets and the call
      leaves alone.  No gateway comes twice exactly when no two of these name one, and all grants are signed for
      the caller exactly when the cached ones among them are. */
  lemma GrantListExact(s: State, call: Call, now: int, order: seq<string>)
    requires Good(s) && RetainedWalk(s, call, now, order)
    ensures var l := GrantList(s, call, now, order);
      && (forall x :: x in l <==>
            (exists i :: AliveGrant(s, call, now, i, x)) ||
              (call.retain && exists k :: SilentGrant(s, call, now, k, x)))
      && (Ranked(s.conf.defaultId, Ids(GrantId, l)) <==> NoRivals(s, call, now))
      && ((forall x :: x in l ==> SignedFor(x, call.owner)) <==> NoStrangers(s, call, now))
  {
    hide GrantList, Prepared, AliveGrant, SilentGrant, Good, RetainedWalk, NoRivals, NoStrangers;
    forall x ensures x in GrantList(s, call, now, order) <==>
      (exists i :: AliveGrant(s, call, now, i, x)) || (call.retain && exists k :: SilentGrant(s, call, now, k, x))
    {
      GrantListMember(s, call, now, order, x);
    }
    GrantListRanked(s, call, now, order);
    GrantsSigned(s, call, now, order);
  }

  /** With readable names the entries met are the caller's own and those of devices whose id goes on after a bar;
      so without bars in device ids there are neither rivals nor strangers. */
  lemma NoBarsNoStrangers(s: State, call: Call, now: int)
    requires Owned(s, false) && ReadableOwner(call.owner, false)
    ensures KeysTell(s, call.owner) && NoStrangers(s, call, now) && NoRivals(s, call, now)
  {
    OwnedKeysTell(s, call.owner, false);
    OwnNoRivals(s, call, now);
    hide Fresh, Key, Trim, Prefix, KeysTell, AliveIds, OffersOwn, NoRivals;
    forall k | Silent(s, call, k, now) ensures SameKeyOwner(s, call.owner, k) { OwnSilent(s, call, k, now); }
  }

  ghost predicate SameKeyOwner(s: State, o: Owner, k: string) {
    k in s.cache && k == Key(o, s.cache[k].gatewayId) && SignedFor(s.cache[k].grant, o)
  }

  lemma OwnSilent(s: State, call: Call, k: string, now: int)
    requires Owned(s, false) && ReadableOwner(call.owner, false) && Silent(s, call, k, now)
    ensures SameKeyOwner(s, call.owner, k)
  {
    hide Fresh, Trim, Meets, AliveIds, Overwritten;
    var o' := MetEntry(s, call.owner, k, false);
    PrefixIsOwner(call.owner, o', s.cache[k].gatewayId);
  }

  /** A good cached grant of a device whose id is the caller's, a bar and more, for the same network and
      address, is handed to the caller whenever the gateway is silent: a grant signed for another device. */
  lemma StrangersGrantListed(s: State, call: Call, now: int, order: seq<string>, o': Owner, k: string, gate: bool)
    requires Good(s) && Owned(s, gate) && ReadableOwner(call.owner, gate) && RetainedWalk(s, call, now, order) &&
      call.retain
    requires k in s.cache && OwnedBy(k, s.cache[k], o', gate) && Meets(call.owner, o') && o'.device != call.owner.device
    requires Fresh(s, s.cache[k], now) && s.cache[k].gatewayId !in AliveIds(s, now)
    ensures exists x :: x in GrantList(s, call, now, order) && x.ticket.device == o'.device != call.owner.device
  {
    OwnedKeysTell(s, call.owner, gate);
    ReadableCaller(s, call.owner, s.cache[k], gate);
    ScanMeets(call.owner, o', s.cache[k].gatewayId, gate);
    OwnNotOverwritten(s, call, k, now);
    hide GrantList, Prepared, Good, KeysTell, RetainedWalk, Fresh, Key, Prefix, Trim, AliveIds, Owned, Silent;
    var x := s.cache[k].grant.(policyRev := Prepared(s, now).rev);
    assert SilentGrant(s, call, now, k, x);
    GrantListMember(s, call, now, order, x);
  }

  lemma ReadableCaller(s: State, o: Owner, c: Cached, gate: bool)
    requires Owned(s, gate) && ReadableOwner(o, gate) && c.gatewayId in s.nodes
    ensures Readable(o, c.gatewayId, gate)
  {
  }

  // ------------------------------------------------------------- who is in the list

  ghost predicate Names(l: seq<Grant>, g: string) {
    exists x :: x in l && x.gatewayId == g
  }

  /** An alive gateway for which the call has a grant naming `g`. */
  ghost predicate OffersFor(s: State, call: Call, h: string, g: string, now: int) {
    h in AliveIds(s, now) && Offers(s, call, h, now) && NameOf(s, call, h, now) == g
  }

  /** The scan meets a good entry of the silent gateway `g`, and the call leaves it alone. */
  ghost predicate MeetsSilent(s: State, call: Call, g: string, now: int) {
    exists k :: Silent(s, call, k, now) && s.cache[k].gatewayId == g
  }

  lemma NamedGivesSource(s: State, call: Call, now: int, order: seq<string>, g: string)
    requires Good(s) && RetainedWalk(s, call, now, order) && Names(GrantList(s, call, now, order), g)
    ensures (exists h :: OffersFor(s, call, h, g, now)) || (call.retain && MeetsSilent(s, call, g, now))
  {
    hide GrantList, Prepared, RetainedWalk, AliveList, AliveIds, Offers, NameOf, Silent, AliveGrant;
    var x :| x in GrantList(s, call, now, order) && x.gatewayId == g;
    GrantListMember(s, call, now, order, x);
    if i: nat :| AliveGrant(s, call, now, i, x) {
      AliveGrantFacts(s, call, now, i, x);
      assert OffersFor(s, call, AliveList(s, now)[i].gatewayId, g, now);
    } else {
      var k :| SilentGrant(s, call, now, k, x);
      SilentGrantNames(s, call, now, k, x);
    }
  }

  lemma OfferNames(s: State, call: Call, now: int, order: seq<string>, h: string, g: string)
    requires Good(s) && RetainedWalk(s, call, now, order) && OffersFor(s, call, h, g, now)
    ensures Names(GrantList(s, call, now, order), g)
  {
    AliveAreNodes(s, now);
    hide GrantList, Prepared, RetainedWalk, AliveList, AliveIds, Offers, NameOf, AliveGrant;
    var i, x := OfferedIsGrant(s, call, now, h);
    AliveGrantFacts(s, call, now, i, x);
    GrantListMember(s, call, now, order, x);
  }

  lemma SilentNames(s: State, call: Call, now: int, order: seq<string>, g: string)
    requires Good(s) && RetainedWalk(s, call, now, order) && call.retain && MeetsSilent(s, call, g, now)
    ensures Names(GrantList(s, call, now, order), g)
  {
    SilentAreCached(s, call, now);
    hide GrantList, Prepared, RetainedWalk, Silent;
    var k :| Silent(s, call, k, now) && s.cache[k].gatewayId == g;
    var x := s.cache[k].grant.(policyRev := Prepared(s, now).rev);
    assert SilentGrant(s, call, now, k, x);
    GrantListMember(s, call, now, order, x);
    SilentGrantNames(s, call, now, k, x);
  }

  /** A gateway is in the list exactly when the call has a grant naming it, for an alive gateway or retained. */
  lemma NamedExactly(s: State, call: Call, now: int, order: seq<string>, g: string)
    requires Good(s) && RetainedWalk(s, call, now, order)
    ensures Names(GrantList(s, call, now, order), g) <==>
      (exists h :: OffersFor(s, call, h, g, now)) || (call.retain && MeetsSilent(s, call, g, now))
  {
    hide Names, OffersFor, MeetsSilent, Good, RetainedWalk;
    if Names(GrantList(s, call, now, order), g) { NamedGivesSource(s, call, now, order, g); }
    if h :| OffersFor(s, call, h, g, now) { OfferNames(s, call, now, order, h, g); }
    if call.retain && MeetsSilent(s, call, g, now) { SilentNames(s, call, now, order, g); }
  }

  /** When the keys hold the caller's own grants: an alive gateway is listed exactly when the call has a grant for
      it, a silent one exactly when the caller is an existing client whose scan meets a good entry for it. */
  lemma OwnNamed(s: State, call: Call, now: int, order: seq<string>, g: string)
    requires Good(s) && KeysTell(s, call.owner) && RetainedWalk(s, call, now, order)
    ensures Names(GrantList(s, call, now, order), g) <==>
      if g in AliveIds(s, now) then Offers(s, call, g, now) else call.retain && MeetsSilent(s, call, g, now)
  {
    NamedExactly(s, call, now, order, g);
    OwnNoRivals(s, call, now);
    hide GrantList, RetainedWalk, Good, KeysTell, Offers, NameOf, NoRivals, OffersOwn;
    if g in AliveIds(s, now) && Offers(s, call, g, now) { assert OffersFor(s, call, g, g, now); }
  }

  // ----------------------------------------------------------------- sessions

  /** Every grant in the list of a refresh is retained unchanged, or it is of an alive gateway: then it keeps the
      cached session of that gateway, or gives it the new session of its rank; only an entry that does not fit
      its key makes a new grant carry the session the client named. */
  lemma SessionsKeptOrReissued(s: State, call: Call, now: int, order: seq<string>, x: Grant) returns (i: nat)
    requires Good(s) && RetainedWalk(s, call, now, order) && call.refresh && x in GrantList(s, call, now, order)
    ensures AliveGrant(s, call, now, i, x) || (call.retain && exists k :: SilentGrant(s, call, now, k, x))
    ensures AliveGrant(s, call, now, i, x) ==>
      var g := AliveList(s, now)[i].gatewayId;
      && (Keeps(s, call, g, now) ==> x.session == s.cache[Key(call.owner, g)].grant.session)
      && (Reissues(s, call, now) ==> x.session == SessionId(now, i))
      && (!Keeps(s, call, g, now) ==> x.session == if Carried(s, call, g, now) then call.lastSession
          else SessionId(now, i))
  {
    hide GrantList, Prepared, RetainedWalk, AliveList, AliveIds, OwnFresh, SilentGrant, SessionId, Fresh, Key, Prefix,
         MetSession;
    GrantListMember(s, call, now, order, x);
    if j: nat :| AliveGrant(s, call, now, j, x) {
      i := j;
      var g := AliveList(s, now)[i].gatewayId;
      if Carried(s, call, g, now) { CarriedIsMet(s, call, g, now); }
    } else {
      i := 0;
    }
  }

  lemma CarriedIsMet(s: State, call: Call, g: string, now: int)
    requires Carried(s, call, g, now)
    ensures MetSession(s, call.owner, call.lastSession, now) && !Reissues(s, call, now)
  {
    KeyHasPrefix(call.owner, g);
    hide Key, Prefix, Fresh, OwnFresh;
    assert Met(s, call.owner, Key(call.owner, g), now);
  }

  /** The new sessions of one reissuing call are distinct exactly as far as 64 bits can number the gateways. */
  lemma ReissuedSessionsDistinct(s: State, call: Call, now: int, order: seq<string>, i: nat, j: nat, x: Grant, y: Grant)
    requires Good(s) && RetainedWalk(s, call, now, order) && Reissues(s, call, now)
    requires AliveGrant(s, call, now, i, x) && AliveGrant(s, call, now, j, y)
    ensures x.session == y.session <==> (i - j) % TWO64 == 0
    ensures i != j && |AliveList(s, now)| <= TWO64 ==> x.session != y.session
  {
    hide AliveList, Fresh, Key, Prepared, MetSession, OwnFresh, RetainedWalk, Good;
    if Carried(s, call, AliveList(s, now)[i].gatewayId,
               now) { CarriedIsMet(s, call, AliveList(s, now)[i].gatewayId, now); }
    if Carried(s, call, AliveList(s, now)[j].gatewayId,
               now) { CarriedIsMet(s, call, AliveList(s, now)[j].gatewayId, now); }
    hide Carried, Reissues;
    SessionsApart(now, i, j);
  }

  lemma SessionsApart(now: int, i: nat, j: nat)
    ensures SessionId(now, i) == SessionId(now, j) <==> (i - j) % TWO64 == 0
  {
  }

  // ------------------------------------------------------- the verdict of a refresh

  datatype Verdict = Updated | NoChange | Revoked | Unavailable

  function VerdictOf(some: bool, rev: uint64, minted: bool, call: Call, lastPolicyRev: uint64): Verdict {
    if some then
      if !call.force && call.lastSession != 0 && lastPolicyRev == rev && !minted then NoChange else Updated
    else if lastPolicyRev < rev then Revoked
    else Unavailable
  }

  ghost function RefreshVerdict(s: State, call: Call, lastPolicyRev: uint64, now: int, order: seq<string>): Verdict
    requires RetainedWalk(s, call, now, order)
  {
    VerdictOf(GrantList(s, call, now, order) != [], Served(s, call, now).rev, BatchOf(s, call, now).minted, call,
              lastPolicyRev)
  }

  /** Every entry of `c` is an entry of `c'`. */
  ghost predicate Within(c: Cache, c': Cache) {
    forall k :: k in c ==> k in c' && c[k] == c'[k]
  }

  lemma {:induction false} NotMintedWithin(s: State, call: Call, known: bool, nodes: seq<Node>, k: nat, now: int)
    requires k <= |nodes| && !IssueAll(s, call, known, nodes, k, now).minted
    ensures Within(IssueAll(s, call, known, nodes, k, now).cache, s.cache)
  {
    if k > 0 {
      var b := IssueAll(s, call, known, nodes, k - 1, now);
      NotMintedWithin(s, call, known, nodes, k - 1, now);
      IssueWithin(s.(cache := b.cache), call, known, nodes[k - 1], k - 1, now);
    }
  }

  lemma IssueWithin(s: State, call: Call, known: bool, n: Node, salt: nat, now: int)
    ensures !IssueFor(s, call, known, n, salt, now).minted ==>
      Within(IssueFor(s, call, known, n, salt, now).cache, s.cache)
  {
  }

  /** A grant kept for an alive gateway by an unforced refresh that names a session shows the session is known. */
  lemma KeptShowsKnown(s: State, call: Call, now: int, x: Grant)
    requires Good(s) && call.refresh && !call.force && call.lastSession != 0
    requires Slotted(s, call, now, x) && !BatchOf(s, call, now).minted
    ensures Known(s, call, now)
  {
    hide IssueAll, Prepared, Known, AliveList, NodeFingerprint, Key;
    AliveFacts(s, now);
    var p, known, nodes := Prepared(s, now), Known(s, call, now), AliveList(s, now);
    var i :| 0 <= i < |nodes| && Gets(p, call, known, nodes, i, now, x);
    if Mints(p, call, known, nodes, i, now) { MintingShows(p, call, known, nodes, |nodes|, now, i); }
  }

  /** NO_CHANGE, whatever the names: the client's revision is current and nothing was issued; and when some
      alive gateway has a grant in the list, the client's session is in a good cached grant its scan meets. */
  lemma NoChangeSound(s: State, call: Call, lastPolicyRev: uint64, now: int, order: seq<string>)
    requires Good(s) && RetainedWalk(s, call, now, order) && call.refresh
    requires RefreshVerdict(s, call, lastPolicyRev, now, order) == NoChange
    ensures lastPolicyRev == Served(s, call, now).rev && Within(Served(s, call, now).cache, s.cache)
    ensures (exists x :: Slotted(s, call, now, x)) ==> MetSession(s, call.owner, call.lastSession, now)
  {
    hide GrantList, BatchOf, Prepared, AliveList, Good, RetainedWalk, MetSession, Slotted, SessionKnown, Pruned;
    assert Within(Served(s, call, now).cache, s.cache) by { NothingIssued(s, call, now); }
    if x :| Slotted(s, call, now, x) {
      KeptShowsKnown(s, call, now, x);
      KnownIsMet(s, call.owner, call.lastSession, now);
    }
  }

  ghost predicate HoldsSession(s: State, o: Owner, g: string, session: uint64, now: int) {
    OwnFresh(s, o, g, now) && s.cache[Key(o, g)].grant.session == session
  }

  /** Without bars in device ids the session met is in a grant of the caller's own. */
  lemma SessionIsOwn(s: State, o: Owner, session: uint64, now: int)
    requires Owned(s, false) && ReadableOwner(o, false)
    ensures MetSession(s, o, session, now) <==> exists g :: HoldsSession(s, o, g, session, now)
  {
    hide Approved, NodeFingerprint, Trim;
    if MetSession(s, o, session, now) {
      var k :| Met(s, o, k, now) && s.cache[k].grant.session == session;
      hide Meets;
      var o' := MetEntry(s, o, k, false);
      PrefixIsOwner(o, o', s.cache[k].gatewayId);
      assert HoldsSession(s, o, s.cache[k].gatewayId, session, now);
    }
    forall g | HoldsSession(s, o, g, session, now) ensures MetSession(s, o, session, now) {
      KeyHasPrefix(o, g);
      assert Met(s, o, Key(o, g), now);
    }
  }

  lemma NothingIssued(s: State, call: Call, now: int)
    requires !BatchOf(s, call, now).minted
    ensures Within(Served(s, call, now).cache, s.cache)
  {
    NotMintedWithin(Prepared(s, now), call, Known(s, call, now), AliveList(s, now), |AliveList(s, now)|, now);
  }

  /** REVOKED or TEMPORARILY_UNAVAILABLE: no alive gateway has a grant to keep or can be given one, and no good
      entry of a silent one is retained; REVOKED exactly when the client is behind the policy. */
  lemma NothingToOffer(s: State, call: Call, lastPolicyRev: uint64, now: int, order: seq<string>)
    requires Good(s) && RetainedWalk(s, call, now, order) && call.refresh
    ensures var v := RefreshVerdict(s, call, lastPolicyRev, now, order);
      && (v == Revoked || v == Unavailable <==>
            (forall g :: g in AliveIds(s, now) ==> !Offers(s, call, g, now)) &&
            (call.retain ==> forall k :: !Silent(s, call, k, now)))
      && (v == Revoked ==> lastPolicyRev < Served(s, call, now).rev)
      && (v == Unavailable ==> lastPolicyRev >= Served(s, call, now).rev)
  {
    AliveAreNodes(s, now);
    SilentAreCached(s, call, now);
    hide GrantList, IssueAll, Prepared, AliveList, RetainedWalk, Offers, NameOf, Silent, AliveIds, Good;
    var l := GrantList(s, call, now, order);
    if l != [] {
      assert l[0] in l && Names(l, l[0].gatewayId);
      NamedGivesSource(s, call, now, order, l[0].gatewayId);
    }
    forall g | g in AliveIds(s, now) && Offers(s, call, g, now) ensures l != [] {
      assert OffersFor(s, call, g, NameOf(s, call, g, now), now);
      OfferNames(s, call, now, order, g, NameOf(s, call, g, now));
    }
    if call.retain {
      forall k | Silent(s, call, k, now) ensures l != [] { SilentNames(s, call, now, order, s.cache[k].gatewayId); }
    }
  }

  /** When no alive gateway has a grant in the list the session is never compared: an unforced refresh at the
      current revision, whatever session it names, reports NO_CHANGE exactly when a good entry of a silent
      gateway is retained. */
  lemma SilentRefreshIgnoresSession(s: State, call: Call, now: int, order: seq<string>)
    requires Good(s) && RetainedWalk(s, call, now, order) && call.refresh && call.retain && !call.force &&
      call.lastSession != 0
    requires !exists x :: Slotted(s, call, now, x)
    ensures RefreshVerdict(s, call, Served(s, call, now).rev, now, order) == NoChange <==>
      exists k :: Silent(s, call, k, now)
  {
    NobodySlotted(s, call, now);
    AliveAreNodes(s, now);
    hide GrantList, Prepared, AliveList, RetainedWalk, Offers, Silent, AliveIds, Good, Slotted, BatchOf;
    NothingToOffer(s, call, Served(s, call, now).rev, now, order);
    forall g | g in AliveIds(s, now) ensures !Offers(s, call, g, now) {
      if Offers(s, call, g, now) { OfferSlotted(s, call, now, g); }
    }
  }

  lemma OfferSlotted(s: State, call: Call, now: int, g: string)
    requires Good(s) && g in AliveIds(s, now) && Offers(s, call, g, now)
    ensures exists x :: Slotted(s, call, now, x)
  {
    hide Prepared, AliveList, Offers, AliveIds, Known, AliveGrant, Gets;
    var i, x := OfferedIsGrant(s, call, now, g);
    SlotIsExpected(s, call, now, i, x);
    assert Slotted(s, call, now, x);
  }

  lemma NobodySlotted(s: State, call: Call, now: int)
    requires Good(s)
    ensures BatchOf(s, call, now).minted ==> exists x :: Slotted(s, call, now, x)
  {
    AliveFacts(s, now);
    hide Prepared, AliveList, Known, IssueFor;
    var p, known, nodes := Prepared(s, now), Known(s, call, now), AliveList(s, now);
    if BatchOf(s, call, now).minted {
      var i, x := MintedShows(p, call, known, nodes, |nodes|, now);
      assert Slotted(s, call, now, x);
    }
  }

  lemma {:induction false} MintedShows(s: State, call: Call, known: bool, nodes: seq<Node>, k: nat, now: int)
    returns (i: nat, x: Grant)
    requires k <= |nodes| && DistinctIds(NodeId, nodes) && IssueAll(s, call, known, nodes, k, now).minted
    ensures i < k && Gets(s, call, known, nodes, i, now, x)
  {
    SlotInBatch(s, call, known, nodes, k - 1, now);
    if Slot(s, call, known, nodes, k - 1, now).minted {
      i, x := k - 1, Slot(s, call, known, nodes, k - 1, now).grant.value;
    } else {
      hide IssueFor;
      i, x := MintedShows(s, call, known, nodes, k - 1, now);
    }
  }
}
