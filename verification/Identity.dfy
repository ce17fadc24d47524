/** Names that the controller derives from other names: full group names, the key of an authorised
    device and the key of a virtual network (control/user.go, control/ip.go). */
module Identity {
  import opened Text

  const DEFAULT_DOMAIN: string := "ms.net"
  const PERSONAL_PREFIX: string := "personal:"
  const PERSONAL_USER: string := "sdl-"

  // -------------------------------------------------------------- group names

  function DomainOf(domain: string): string {
    if Trim(domain) == "" then DEFAULT_DOMAIN else domain
  }

  /** The full name of a group of a user; `None` when it lies outside the user's domain. */
  function NormalizeGroup(group: string, domain: string): Option<string> {
    var d := DomainOf(domain);
    if '.' in group then
      if group == d || HasSuffix(group, "." + d) then Some(group) else None
    else Some(group + "." + d)
  }

  /** `full` is the full name of what was asked for: a name with a dot stands for itself, and one without is a group
      of the domain. */
  predicate IsFullName(asked: string, domain: string, full: string) {
    if '.' in asked then full == asked && (full == domain || HasSuffix(full, "." + domain))
    else full == asked + "." + domain
  }

  /** In a domain: exactly the full name comes out, and a name with a dot from elsewhere is refused. */
  lemma NormalizeExactly(group: string, domain: string, full: string)
    requires Trim(domain) != ""
    ensures NormalizeGroup(group, domain) == Some(full) <==> IsFullName(group, domain, full)
    ensures NormalizeGroup(group, domain) == None <==>
      '.' in group && group != domain && !HasSuffix(group, "." + domain)
  {
  }

  /** A user without a domain has the default one. */
  lemma NormalizeByDefault(group: string, domain: string)
    requires Trim(domain) == ""
    ensures NormalizeGroup(group, domain) == NormalizeGroup(group, DEFAULT_DOMAIN)
  {
    TrimSound(DEFAULT_DOMAIN);
  }

  /** Two groups without a dot have one full name exactly when they are one; and with a dot likewise. */
  lemma NormalizeTells(a: string, b: string, domain: string)
    requires ('.' in a) == ('.' in b) && NormalizeGroup(a, domain).Some?
    ensures NormalizeGroup(a, domain) == NormalizeGroup(b, domain) <==> a == b
  {
    var d := DomainOf(domain);
    if '.' !in a && a + "." + d == b + "." + d {
      assert |a| == |b|;
      assert (a + "." + d)[..|a|] == a && (b + "." + d)[..|b|] == b;
    }
  }

  /** Full names are fixed points: normalising again changes nothing. */
  lemma NormalizeIdempotent(group: string, domain: string)
    ensures var n := NormalizeGroup(group, domain);
      n.Some? ==>
        NormalizeGroup(n.value, domain) == n &&
        (n.value == DomainOf(domain) || HasSuffix(n.value, "." + DomainOf(domain)))
  {
    var n, d := NormalizeGroup(group, domain), DomainOf(domain);
    if n.Some? && '.' !in group {
      var full := group + "." + d;
      assert full[|group|] == '.';
      assert full[|full| - |"." + d|..] == "." + d;
    }
  }

  /** A trimmed group of a trimmed domain has a trimmed full name. */
  lemma NormalizeTrimmed(group: string, domain: string)
    requires IsTrimmed(group) && group != "" && IsTrimmed(domain) && domain != ""
    ensures var n := NormalizeGroup(group, domain); n.Some? ==> IsTrimmed(n.value) && n.value != ""
  {
    TrimSound(domain);
    var full := group + "." + domain;
    assert full[0] == group[0] && full[|full| - 1] == domain[|domain| - 1];
  }

  // ---------------------------------------------------------- authorised devices

  function AuthKey(group: string, device: string): string {
    group + "|" + device
  }

  /** For groups without a bar the key tells group and device. */
  lemma AuthKeyExact(g: string, d: string, g': string, d': string)
    requires '|' !in g && '|' !in g'
    ensures AuthKey(g, d) == AuthKey(g', d') <==> g == g' && d == d'
  {
    if AuthKey(g, d) == AuthKey(g', d') { SplitUnique(g, d, g', d', '|'); }
  }

  // ------------------------------------------------------------ virtual networks

  predicate IsPersonal(user: string) {
    HasPrefix(Trim(user), PERSONAL_USER)
  }

  /** Personal users have a network of their own per group; everybody else shares the group's. */
  function NetworkKey(group: string, user: string): string {
    if IsPersonal(user) then PERSONAL_PREFIX + Trim(user) + "@" + Trim(group) else Trim(group)
  }

  /** Spaces around the names do not matter; those who are not personal users share one network per group, and a
      personal user never shares it with them. */
  lemma NetworksShared(g: string, u: string, u': string)
    ensures NetworkKey(g, u) == NetworkKey(Trim(g), Trim(u))
    ensures !("sdl-" <= Trim(u)) && !("sdl-" <= Trim(u')) ==> NetworkKey(g, u) == NetworkKey(g, u')
    ensures "sdl-" <= Trim(u) && !("sdl-" <= Trim(u')) ==> NetworkKey(g, u) != NetworkKey(g, u')
  {
    TrimSound(g);
    TrimSound(u);
    hide Trim;
  }

  /** Names by which networks can be told apart. */
  predicate PlainNames(group: string, user: string) {
    '@' !in Trim(user) && !HasPrefix(Trim(group), PERSONAL_PREFIX)
  }

  /** For plain names the key tells the group, whether the network is personal, and whose it is. */
  lemma NetworkKeyExact(g: string, u: string, g': string, u': string)
    requires PlainNames(g, u) && PlainNames(g', u')
    ensures NetworkKey(g, u) == NetworkKey(g', u') <==>
      Trim(g) == Trim(g') && IsPersonal(u) == IsPersonal(u') && (IsPersonal(u) ==> Trim(u) == Trim(u'))
  {
    hide Trim;
    if IsPersonal(u) && IsPersonal(u') {
      PersonalKey(Trim(u), Trim(g), Trim(u'), Trim(g'));
    } else if IsPersonal(u) {
      assert HasPrefix(NetworkKey(g, u), PERSONAL_PREFIX);
    } else if IsPersonal(u') {
      assert HasPrefix(NetworkKey(g', u'), PERSONAL_PREFIX);
    }
  }

  lemma PersonalKey(u: string, g: string, u': string, g': string)
    requires '@' !in u && '@' !in u'
    ensures PERSONAL_PREFIX + u + "@" + g == PERSONAL_PREFIX + u' + "@" + g' <==> u == u' && g == g'
  {
    var k, k', n := PERSONAL_PREFIX + u + "@" + g, PERSONAL_PREFIX + u' + "@" + g', |PERSONAL_PREFIX|;
    if k == k' {
      assert k[n..] == u + ['@'] + g && k'[n..] == u' + ['@'] + g';
      SplitUnique(u, g, u', g', '@');
    }
  }
}
