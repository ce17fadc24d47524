/** Finding the settings of the group a token names (control/gateway.go, control/registration.go): under the
    longest configured domain the token ends in, whatever order the table of domains is walked in. */
module Domains {
  import opened Text
  import Subnet

  predicate EndsIn(token: string, domain: string) {
    HasSuffix(token, "." + domain)
  }

  /** `d` is the longest non-empty configured domain the token ends in; "" when there is none. */
  ghost predicate IsBest(token: string, domains: set<string>, d: string) {
    && (d != "" ==> d in domains && EndsIn(token, d))
    && (forall x :: x in domains && EndsIn(token, x) ==> |x| <= |d|)
  }

  lemma BestUnique(token: string, domains: set<string>, d: string, e: string)
    requires IsBest(token, domains, d) && IsBest(token, domains, e)
    ensures d == e
  {
    if d != "" && e != "" {
      assert |d| == |e|;
      assert "." + d == token[|token| - |d| - 1..] == "." + e;
      assert ("." + d)[1..] == d && ("." + e)[1..] == e;
    }
  }

  /** What stands before the domain. */
  function GroupBefore(token: string, d: string): string
    requires EndsIn(token, d)
  {
    Trim(token[..|token| - |d| - 1])
  }

  function Split(token: string, d: string): Option<(string, string)> {
    if d == "" || !EndsIn(token, d) || GroupBefore(token, d) == "" then None else Some((d, GroupBefore(token, d)))
  }

  /** The best domain, "" when there is none. */
  ghost function Best(token: string, domains: set<string>): string {
    if exists d :: IsBest(token, domains, d) then var d :| IsBest(token, domains, d); d else ""
  }

  lemma BestIs(token: string, domains: set<string>, d: string)
    requires IsBest(token, domains, d)
    ensures Best(token, domains) == d
  {
    BestUnique(token, domains, d, Best(token, domains));
  }

  /** Domain and group of a token. */
  ghost function Match(token: string, domains: set<string>): Option<(string, string)> {
    Split(token, Best(token, domains))
  }

  method MatchDomainAndGroup(token: string, domains: set<string>) returns (r: Option<(string, string)>)
    ensures r == Match(token, domains)
    ensures r.Some? ==> IsBest(token, domains, r.value.0) && IsTrimmed(r.value.1)
  {
    var bestDomain := "";
    var todo := domains;
    while todo != {}
      invariant todo <= domains && IsBest(token, domains - todo, bestDomain)
      decreases todo
    {
      var domain :| domain in todo;
      if EndsIn(token, domain) && |domain| > |bestDomain| {
        bestDomain := domain;
      }
      todo := todo - {domain};
    }
    assert domains - todo == domains;
    BestIs(token, domains, bestDomain);
    if bestDomain == "" {
      return None;
    }
    var group := GroupBefore(token, bestDomain);
    TrimSound(token[..|token| - |bestDomain| - 1]);
    if group == "" {
      return None;
    }
    return Some((bestDomain, group));
  }

  // -------------------------------------------------------------- configuration

  /** The settings of one group: its subnet and the addresses kept for services. */
  datatype Group = Group(subnet: Subnet.ValidNet, reserved: set<uint32>)

  /** Groups under domains, or full group names, or one domain; `reserved` finds the service addresses. */
  datatype Config = Config(domains: map<string, map<string, Subnet.ValidNet>>, groups: map<string, Subnet.ValidNet>,
                           domain: string, subnet: Subnet.ValidNet, reserved: string -> set<uint32>)

  predicate IsLetter(c: char) {
    'a' <= c <= 'z' || 'A' <= c <= 'Z'
  }

  predicate IsHostChar(c: char) {
    IsLetter(c) || '0' <= c <= '9' || c == '-'
  }

  /** Host names separated by single dots. */
  predicate IsDotted(s: string) {
    && s != "" && s[0] != '.' && s[|s| - 1] != '.'
    && (forall i :: 0 <= i < |s| ==> IsHostChar(s[i]) || (s[i] == '.' && s[i + 1] != '.'))
  }

  /** A fully qualified domain name, ending in two letters or more. */
  predicate IsDomain(s: string) {
    exists i :: 0 <= i < |s| - 2 && s[i] == '.' && IsDotted(s[..i]) && forall j :: i < j < |s| ==> IsLetter(s[j])
  }

  /** A configuration that passes the check at the start. */
  ghost predicate Valid(cfg: Config) {
    if cfg.domains != map[] then forall d :: d in cfg.domains ==> IsDomain(d)
    else if cfg.groups != map[] then forall g :: g in cfg.groups ==> IsDomain(g)
    else IsDomain(cfg.domain)
  }

  lemma MatchIsConfigured(token: string, domains: set<string>)
    ensures var r := Match(token, domains); r.Some? ==>
      r.value.0 in domains && EndsIn(token, r.value.0) && r.value.0 != ""
  {
  }

  /** The settings of the group a token names, if it is configured. */
  ghost function Resolve(cfg: Config, token: string): Option<Group> {
    if cfg.domains != map[] then
      MatchIsConfigured(token, cfg.domains.Keys);
      match Match(token, cfg.domains.Keys)
      case None => None
      case Some((d, g)) => if g in cfg.domains[d] then Some(Group(cfg.domains[d][g], cfg.reserved(token))) else None
    else if cfg.groups != map[] then
      if token in cfg.groups then Some(Group(cfg.groups[token], cfg.reserved(token))) else None
    else if cfg.domain != "" && token != cfg.domain then None
    else Some(Group(cfg.subnet, cfg.reserved(token)))
  }

  method ResolveGroupNetworkConfig(cfg: Config, token: string) returns (r: Option<Group>)
    ensures r == Resolve(cfg, token)
  {
    if cfg.domains != map[] {
      var found := MatchDomainAndGroup(token, cfg.domains.Keys);
      if found == None {
        return None;
      }
      MatchIsConfigured(token, cfg.domains.Keys);
      var groups := cfg.domains[found.value.0];
      if found.value.1 !in groups {
        return None;
      }
      return Some(Group(groups[found.value.1], cfg.reserved(token)));
    }
    if cfg.groups != map[] {
      if token !in cfg.groups {
        return None;
      }
      return Some(Group(cfg.groups[token], cfg.reserved(token)));
    }
    if cfg.domain != "" && token != cfg.domain {
      return None;
    }
    return Some(Group(cfg.subnet, cfg.reserved(token)));
  }

  /** The token is a group and a domain, no longer domain of the table ends it, and `net` is the group's subnet. */
  ghost predicate NamedUnder(cfg: Config, token: string, left: string, d: string, net: Subnet.ValidNet) {
    && token == left + "." + d && d != "" && d in cfg.domains
    && (forall x :: x in cfg.domains && HasSuffix(token, "." + x) ==> |x| <= |d|)
    && Trim(left) != "" && Trim(left) in cfg.domains[d] && cfg.domains[d][Trim(left)] == net
  }

  /** The subnet `cfg` gives the group a token names, by the first of its three tables that is filled in. */
  ghost predicate Configured(cfg: Config, token: string, net: Subnet.ValidNet) {
    if cfg.domains != map[] then exists left, d :: NamedUnder(cfg, token, left, d, net)
    else if cfg.groups != map[] then token in cfg.groups && net == cfg.groups[token]
    else (cfg.domain == "" || cfg.domain == token) && net == cfg.subnet
  }

  lemma NamedIsMatched(cfg: Config, token: string, left: string, d: string, net: Subnet.ValidNet)
    requires NamedUnder(cfg, token, left, d, net)
    ensures Match(token, cfg.domains.Keys) == Some((d, Trim(left))) && Trim(left) in cfg.domains[d]
    ensures cfg.domains[d][Trim(left)] == net
  {
    hide Trim;
    assert token[|left|..] == "." + d && token[..|left|] == left;
    BestIs(token, cfg.domains.Keys, d);
  }

  lemma MatchedIsBest(token: string, domains: set<string>)
    requires Match(token, domains).Some?
    ensures IsBest(token, domains, Match(token, domains).value.0)
  {
  }

  lemma MatchedIsNamed(cfg: Config, token: string)
    requires Match(token, cfg.domains.Keys).Some?
    ensures var (d, g) := Match(token, cfg.domains.Keys).value;
      d in cfg.domains && (g in cfg.domains[d] ==> Configured(cfg, token, cfg.domains[d][g]))
  {
    hide Trim, Best;
    MatchIsConfigured(token, cfg.domains.Keys);
    MatchedIsBest(token, cfg.domains.Keys);
    var (d, g) := Match(token, cfg.domains.Keys).value;
    var left := token[..|token| - |d| - 1];
    assert token == left + "." + d;
    if g in cfg.domains[d] { assert NamedUnder(cfg, token, left, d, cfg.domains[d][g]); }
  }

  /** A token resolves exactly to the subnet of the group it names, with the group's own service addresses. */
  lemma ResolvesExactly(cfg: Config, token: string, r: Group)
    ensures Resolve(cfg, token) == Some(r) <==> Configured(cfg, token, r.subnet) && r.reserved == cfg.reserved(token)
  {
    if cfg.domains != map[] {
      hide Trim, Best, Match;
      if Match(token, cfg.domains.Keys).Some? { MatchedIsNamed(cfg, token); }
      if Configured(cfg, token, r.subnet) {
        var left, d :| NamedUnder(cfg, token, left, d, r.subnet);
        NamedIsMatched(cfg, token, left, d, r.subnet);
      }
    }
  }

  lemma DomainEndsInLetter(s: string)
    requires IsDomain(s)
    ensures s != "" && IsLetter(s[|s| - 1]) && !IsSpace(s[|s| - 1])
  {
  }

  /** Whatever comes before it, a token that resolves ends like a domain name. */
  lemma ResolvedEndsInLetter(cfg: Config, token: string)
    requires Valid(cfg) && Resolve(cfg, token).Some?
    ensures token != "" && !IsSpace(token[|token| - 1])
  {
    hide IsDomain, IsSpace, Best;
    if cfg.domains != map[] {
      MatchIsConfigured(token, cfg.domains.Keys);
      var d := Match(token, cfg.domains.Keys).value.0;
      DomainEndsInLetter(d);
      assert token[|token| - 1] == ("." + d)[|d|] == d[|d| - 1];
    } else {
      if cfg.groups == map[] { DomainEndsInLetter(cfg.domain); }
      DomainEndsInLetter(token);
    }
  }
}
