/** Device authorisation (control/user.go, the challenge half of control/controller.go and the two
    handlers in control/registration.go): a ticket leads to a challenge, a challenge to a proof, and
    an accepted proof to a record of the device.

    Saving to the store may fail after the change in memory was made; `saved` says whether it
    succeeded.  Random ids, signature checks and the digest of a public key are parameters. */
module Accounts {
  import opened Text
  import opened Identity
  import opened Names
  import Bytes

  const SECOND: int := 1_000_000_000
  const CHALLENGE_TTL: int := 60 * SECOND
  const AUTH_TTL: int := 30 * 24 * 3600 * SECOND

  type Blob = seq<Bytes.byte>

  datatype Ticket = Ticket(user: string, group: string, expireAt: int, used: bool)

  datatype Challenge = Challenge(user: string, group: string, device: string, ticket: string, pubKey: Blob, nonce: Blob,
                                 expireAt: int, reauthRequired: bool)

  /** Users by id with their domain, tickets and challenges by id, records by `AuthKey`. */
  datatype State = State(users: map<string, string>, tickets: map<string, Ticket>, authed: Records,
                         challenges: map<string, Challenge>)

  datatype Error =
    | Required | InvalidTtl | UserNotFound | UserExists | ForeignGroup
    | TicketNotFound | TicketUsed | TicketExpired | TicketMismatch
    | KeyEmpty | ChallengeExpired | KeyMismatch | InvalidSignature
    | NotAuthed | AuthExpired | DeviceNotFound | AmbiguousDevice
    | NameEmpty | NameTooLong | NameTaken | NotSaved

  // ------------------------------------------------------------ users and tickets

  const DEFAULT_GROUP := "default"

  /** A user with a domain; the first group named must lie in it. */
  function AddUser(s: State, id: string, domain: string, group: string, saved: bool): (Option<Error>, State) {
    var u, d := Trim(id), if Trim(domain) == "" then DEFAULT_DOMAIN else Trim(domain);
    if u == "" then (Some(Required), s)
    else if NormalizeGroup(if Trim(group) == "" then DEFAULT_GROUP else Trim(group), d) == None
      then (Some(ForeignGroup), s)
    else if u in s.users then (if s.users[u] != d then Some(UserExists) else None, s)
    else (if saved then None else Some(NotSaved), s.(users := s.users[u := d]))
  }

  /** A ticket for one group of a user. */
  function IssueTicket(s: State, user: string, group: string, ttl: int, id: string, saved: bool, now: int)
    : (Option<Error>, State)
  {
    var g := Trim(group);
    if user == "" || g == "" then (Some(Required), s)
    else if ttl <= 0 then (Some(InvalidTtl), s)
    else if user !in s.users then (Some(UserNotFound), s)
    else match NormalizeGroup(g, s.users[user])
      case None => (Some(ForeignGroup), s)
      case Some(full) =>
        (if saved then None else Some(NotSaved), s.(tickets := s.tickets[id := Ticket(user, full, now + ttl, false)]))
  }

  /** May the ticket authorise the device now?  The answer is the full group name. */
  function ValidateAuth(s: State, user: string, group: string, device: string, ticket: string, now: int)
    : Result<string, Error>
  {
    if user == "" || group == "" || device == "" || ticket == "" then Err(Required)
    else if ticket !in s.tickets then Err(TicketNotFound)
    else if s.tickets[ticket].used then Err(TicketUsed)
    else if now > s.tickets[ticket].expireAt then Err(TicketExpired)
    else if user !in s.users then Err(UserNotFound)
    else match NormalizeGroup(group, s.users[user])
      case None => Err(ForeignGroup)
      case Some(full) =>
        if s.tickets[ticket].user != user || s.tickets[ticket].group != full then Err(TicketMismatch) else Ok(full)
  }

  // -------------------------------------------------------- challenges and proofs

  function LiveChallenges(cs: map<string, Challenge>, now: int): map<string, Challenge> {
    map id | id in cs && !(now > cs[id].expireAt) :: cs[id]
  }

  /** A device asks to be authorised and is challenged. */
  function RequestAuth(s: State, digest: Blob -> string, user: string, group: string, device: string, ticket: string,
                       pubKey: Blob, id: string, nonce: Blob, now: int): (Option<Error>, State)
  {
    match ValidateAuth(s, user, group, device, ticket, now)
    case Err(e) => (Some(e), s)
    case Ok(full) =>
      if pubKey == [] then (Some(KeyEmpty), s)
      else
        var key := AuthKey(full, device);
        var reauth := key in s.authed && s.authed[key].pubKeyHex != digest(pubKey);
        var c := Challenge(user, full, device, ticket, pubKey, nonce, now + CHALLENGE_TTL, reauth);
        (None, s.(challenges := LiveChallenges(s.challenges, now)[id := c]))
  }

  function Authorise(s: State, digest: Blob -> string, user: string, group: string, device: string, ticket: string,
                     pubKey: Blob, saved: bool, now: int): (Option<Error>, State)
  {
    if pubKey == [] then (Some(KeyEmpty), s)
    else match ValidateAuth(s, user, group, device, ticket, now)
      case Err(e) => (Some(e), s)
      case Ok(full) =>
        var key := AuthKey(full, device);
        var name := if key in s.authed then Trim(s.authed[key].name) else "";
        (if saved then None else Some(NotSaved),
         s.(authed := s.authed[key := Record(user, full, device, name, digest(pubKey), now + AUTH_TTL)],
            tickets := s.tickets[ticket := s.tickets[ticket].(used := true)]))
  }

  /** The device answers its challenge; the challenge is gone whatever the answer. */
  function Prove(s: State, digest: Blob -> string, id: string, device: string, pubKey: Blob, signed: bool, saved: bool,
                 now: int)
    : (Option<Error>, State)
  {
    var s1 := s.(challenges := s.challenges - {id});
    if id !in s.challenges || now > s.challenges[id].expireAt then (Some(ChallengeExpired), s1)
    else
      var c := s.challenges[id];
      if c.device != device || c.pubKey != pubKey then (Some(KeyMismatch), s1)
      else if !signed then (Some(InvalidSignature), s1)
      else Authorise(s1, digest, c.user, c.group, c.device, c.ticket, c.pubKey, saved, now)
  }

  // --------------------------------------------------------- the signed payload

  function LenPrefixed(data: Blob): Blob {
    Bytes.BigEndian(|data|, 4) + data
  }

  function SignedPayload(id: Blob, nonce: Blob, device: Blob, pubKey: Blob): Blob {
    LenPrefixed(id) + (LenPrefixed(nonce) + (LenPrefixed(device) + LenPrefixed(pubKey)))
  }

  predicate Short(data: Blob) {
    |data| < Bytes.TWO32
  }

  lemma LenPrefixedSplits(a: Blob, x: Blob, b: Blob, y: Blob)
    requires Short(a) && Short(b) && LenPrefixed(a) + x == LenPrefixed(b) + y
    ensures a == b && x == y
  {
    var p, q := LenPrefixed(a) + x, LenPrefixed(b) + y;
    assert p[..4] == Bytes.BigEndian(|a|, 4) && q[..4] == Bytes.BigEndian(|b|, 4);
    Bytes.Uint32Field(|a|);
    Bytes.Uint32Field(|b|);
    assert p[4..4 + |a|] == a && q[4..4 + |b|] == b;
    assert p[4 + |a|..] == x && q[4 + |b|..] == y;
  }

  /** A signature over one challenge is over no other: the payload tells its four parts. */
  lemma PayloadInjective(a1: Blob, a2: Blob, a3: Blob, a4: Blob, b1: Blob, b2: Blob, b3: Blob, b4: Blob)
    requires Short(a1) && Short(a2) && Short(a3) && Short(a4) && Short(b1) && Short(b2) && Short(b3) && Short(b4)
    requires SignedPayload(a1, a2, a3, a4) == SignedPayload(b1, b2, b3, b4)
    ensures a1 == b1 && a2 == b2 && a3 == b3 && a4 == b4
  {
    hide LenPrefixed;
    LenPrefixedSplits(a1, LenPrefixed(a2) + (LenPrefixed(a3) + LenPrefixed(a4)), b1,
                      LenPrefixed(b2) + (LenPrefixed(b3) + LenPrefixed(b4)));
    LenPrefixedSplits(a2, LenPrefixed(a3) + LenPrefixed(a4), b2, LenPrefixed(b3) + LenPrefixed(b4));
    LenPrefixedSplits(a3, LenPrefixed(a4), b3, LenPrefixed(b4));
    assert LenPrefixed(a4) + [] == LenPrefixed(a4) && LenPrefixed(b4) + [] == LenPrefixed(b4);
    LenPrefixedSplits(a4, [], b4, []);
  }

  // ------------------------------------------------------------- authorised devices

  function CheckDevice(s: State, digest: Blob -> string, group: string, device: string, pubKey: Blob,
                       now: int): Option<Error> {
    var key := AuthKey(group, device);
    if key !in s.authed then Some(NotAuthed)
    else if now > s.authed[key].authExpireAt then Some(AuthExpired)
    else if pubKey == [] || s.authed[key].pubKeyHex != digest(pubKey) then Some(KeyMismatch)
    else None
  }

  function Utf8Length(s: string): nat {
    if s == "" then 0
    else
      var c := s[0] as int;
      (if c < 0x80 then 1 else if c < 0x800 then 2 else if c < 0x1_0000 then 3 else 4) + Utf8Length(s[1..])
  }

  function CheckName(name: string): Result<string, Error> {
    if Trim(name) == "" then Err(NameEmpty)
    else if Utf8Length(Trim(name)) > 128 then Err(NameTooLong)
    else Ok(Trim(name))
  }

  /** A device without a name gets the desired one, or that with the first free number. */
  ghost function AssignName(s: State, fold: char -> char, group: string, device: string, desired: string, saved: bool)
    : (Option<Error>, State)
    requires DigitsUnfolded(fold)
  {
    var key := AuthKey(group, device);
    match CheckName(desired)
    case Err(e) => (Some(e), s)
    case Ok(name) =>
      if key !in s.authed then (Some(DeviceNotFound), s)
      else if Trim(s.authed[key].name) != "" then (None, s)
      else
        TrimSound(desired);
        var r := s.authed[key];
        (if saved then None else Some(NotSaved),
         s.(authed := s.authed[key := r.(name := UniqueName(fold, s.authed, r, name))]))
  }

  /** Another device id of the network bears the name; records of the same device id are not looked at. */
  predicate TakenByOther(fold: char -> char, authed: Records, r: Record, device: string, name: string) {
    exists k :: k in authed && authed[k].device != device && NetworkOf(authed[k]) == NetworkOf(r) &&
      Bears(fold, authed[k], name)
  }

  function SetName(s: State, fold: char -> char, group: string, device: string, name: string,
                   saved: bool): (Option<Error>, State) {
    var key := AuthKey(group, device);
    match CheckName(name)
    case Err(e) => (Some(e), s)
    case Ok(n) =>
      if key !in s.authed then (Some(DeviceNotFound), s)
      else if TakenByOther(fold, s.authed, s.authed[key], device, n) then (Some(NameTaken), s)
      else (if saved then None else Some(NotSaved), s.(authed := s.authed[key := s.authed[key].(name := n)]))
  }

  /** The records an administrator's command means; a blank group stands for any. */
  function Matches(s: State, user: string, group: string, device: string): set<string> {
    set k | k in s.authed && s.authed[k].user == user && s.authed[k].device == device &&
      (group == "" || s.authed[k].group == group)
  }

  /** Trimmed arguments, the group normalised when one is given. */
  function Select(s: State, user: string, group: string, device: string): Result<set<string>, Error> {
    var u, g, d := Trim(user), Trim(group), Trim(device);
    if u == "" || d == "" then Err(Required)
    else if u !in s.users then Err(UserNotFound)
    else
      var full := if g == "" then Some("") else NormalizeGroup(g, s.users[u]);
      if full == None then Err(ForeignGroup)
      else
        var ks := Matches(s, u, full.value, d);
        if ks == {} then Err(DeviceNotFound)
        else if g == "" && |ks| > 1 then Err(AmbiguousDevice)
        else Ok(ks)
  }

  /** With a group given the match is a single record. */
  lemma MatchIsSingle(s: State, user: string, group: string, device: string)
    requires Filed(s.authed) && group != ""
    ensures Matches(s, user, group, device) <= {AuthKey(group, device)}
  {
  }

  /** The records are gone from memory even when saving fails, and then the caller is told of none. */
  function DeleteDevice(s: State, user: string, group: string, device: string, saved: bool)
    : (Result<set<string>, Error>, State)
  {
    match Select(s, user, group, device)
    case Err(e) => (Err(e), s)
    case Ok(ks) => (if saved then Ok(ks) else Err(NotSaved), s.(authed := s.authed - ks))
  }

  ghost function RenameDevice(s: State, fold: char -> char, user: string, group: string, device: string, name: string,
                              saved: bool)
    : (Option<Error>, State)
  {
    match CheckName(name)
    case Err(e) => (Some(e), s)
    case Ok(n) =>
      match Select(s, user, group, device)
      case Err(e) => (Some(e), s)
      case Ok(ks) =>
        var key :| key in ks;
        if Taken(fold, s.authed, s.authed[key], n) then (Some(NameTaken), s)
        else (if saved then None else Some(NotSaved), s.(authed := s.authed[key := s.authed[key].(name := n)]))
  }

  /** A command that goes through means exactly one record. */
  lemma SelectIsSingle(s: State, user: string, group: string, device: string) returns (key: string)
    requires Filed(s.authed) && Select(s, user, group, device).Ok?
    ensures key in s.authed && Select(s, user, group, device) == Ok({key})
    ensures s.authed[key].user == Trim(user) && s.authed[key].device == Trim(device)
  {
    var u, g, d := Trim(user), Trim(group), Trim(device);
    var ks := Select(s, user, group, device).value;
    key :| key in ks;
    if g != "" {
      NormalizeNonEmpty(g, s.users[u]);
      MatchIsSingle(s, u, NormalizeGroup(g, s.users[u]).value, d);
    } else {
      assert ks - {key} == {} by { assert |ks - {key}| == |ks| - 1; }
    }
    assert ks == {key};
  }

  lemma NormalizeNonEmpty(group: string, domain: string)
    requires group != ""
    ensures NormalizeGroup(group, domain) != Some("")
  {
  }
}
