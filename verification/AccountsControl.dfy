/** The user manager and the challenge table as the controller runs them: tables are fields that the
    methods update, and tables are walked in an arbitrary order. */
module AccountsControl {
  import opened Text
  import opened Identity
  import opened Names
  import opened Accounts
  import Bytes

  class UserManager {
    const fold: char -> char
    const digest: Blob -> string
    var users: map<string, string>
    var deviceTickets: map<string, Ticket>
    var authedDevices: Records
    var authChallenges: map<string, Challenge>

    ghost function Model(): State
      reads this
    {
      State(users, deviceTickets, authedDevices, authChallenges)
    }

    constructor (fold: char -> char, digest: Blob -> string)
      ensures Model() == State(map[], map[], map[], map[]) && this.fold == fold && this.digest == digest
    {
      this.fold, this.digest := fold, digest;
      users, deviceTickets, authedDevices, authChallenges := map[], map[], map[], map[];
    }

    method CreateUserWithID(id: string, domain: string, group: string, saved: bool) returns (err: Option<Error>)
      modifies this`users
      ensures (err, Model()) == AddUser(old(Model()), id, domain, group, saved)
    {
      var user := Trim(id);
      if user == "" {
        return Some(Required);
      }
      var userDomain := DEFAULT_DOMAIN;
      if Trim(domain) != "" {
        userDomain := Trim(domain);
      }
      var defaultGroup := Trim(group);
      if defaultGroup == "" {
        defaultGroup := DEFAULT_GROUP;
      }
      if NormalizeGroup(defaultGroup, userDomain) == None {
        return Some(ForeignGroup);
      }
      if user in users {
        if users[user] != userDomain {
          return Some(UserExists);
        }
        return None;
      }
      users := users[user := userDomain];
      return if saved then None else Some(NotSaved);
    }

    // ---------------------------------------------------- tickets, challenges, proofs

    method IssueDeviceTicket(user: string, group: string, ttl: int, id: string, saved: bool, now: int)
      returns (err: Option<Error>)
      modifies this`deviceTickets
      ensures (err, Model()) == IssueTicket(old(Model()), user, group, ttl, id, saved, now)
    {
      if user == "" {
        return Some(Required);
      }
      var name := Trim(group);
      if name == "" {
        return Some(Required);
      }
      if ttl <= 0 {
        return Some(InvalidTtl);
      }
      if user !in users {
        return Some(UserNotFound);
      }
      var full := NormalizeGroup(name, users[user]);
      if full == None {
        return Some(ForeignGroup);
      }
      deviceTickets := deviceTickets[id := Ticket(user, full.value, now + ttl, false)];
      return if saved then None else Some(NotSaved);
    }

    method ValidateDeviceAuth(user: string, group: string, device: string, ticket: string, now: int)
      returns (r: Result<string, Error>)
      ensures r == ValidateAuth(Model(), user, group, device, ticket, now)
    {
      if user == "" || group == "" || device == "" || ticket == "" {
        return Err(Required);
      }
      if ticket !in deviceTickets {
        return Err(TicketNotFound);
      }
      var t := deviceTickets[ticket];
      if t.used {
        return Err(TicketUsed);
      }
      if now > t.expireAt {
        return Err(TicketExpired);
      }
      if user !in users {
        return Err(UserNotFound);
      }
      var full := NormalizeGroup(group, users[user]);
      if full == None {
        return Err(ForeignGroup);
      }
      if t.user != user || t.group != full.value {
        return Err(TicketMismatch);
      }
      return Ok(full.value);
    }

    method AuthDevice(user: string, group: string, device: string, ticket: string, pubKey: Blob, saved: bool, now: int)
      returns (err: Option<Error>)
      modifies this`authedDevices, this`deviceTickets
      ensures (err, Model()) == Authorise(old(Model()), digest, user, group, device, ticket, pubKey, saved, now)
    {
      if pubKey == [] {
        return Some(KeyEmpty);
      }
      var full := ValidateDeviceAuth(user, group, device, ticket, now);
      if full.Err? {
        return Some(full.error);
      }
      var key := AuthKey(full.value, device);
      var displayName := "";
      if key in authedDevices {
        displayName := Trim(authedDevices[key].name);
      }
      authedDevices := authedDevices[key :=
                                     Record(user, full.value, device, displayName, digest(pubKey), now + AUTH_TTL)];
      deviceTickets := deviceTickets[ticket := deviceTickets[ticket].(used := true)];
      return if saved then None else Some(NotSaved);
    }

    method HandleDeviceAuth(user: string, group: string, device: string, ticket: string, pubKey: Blob, id: string,
                            nonce: Blob, now: int)
      returns (err: Option<Error>)
      modifies this`authChallenges
      ensures (err, Model()) == RequestAuth(old(Model()), digest, user, group, device, ticket, pubKey, id, nonce, now)
    {
      var full := ValidateDeviceAuth(user, group, device, ticket, now);
      if full.Err? {
        return Some(full.error);
      }
      if pubKey == [] {
        return Some(KeyEmpty);
      }
      var key := AuthKey(full.value, device);
      var reauthRequired := key in authedDevices && authedDevices[key].pubKeyHex != digest(pubKey);
      NewDeviceAuthChallenge(id,
                             Challenge(user, full.value, device, ticket, pubKey, nonce, now + CHALLENGE_TTL,
                                       reauthRequired), now);
      return None;
    }

    /** Expired challenges are dropped whenever a new one is made. */
    method NewDeviceAuthChallenge(id: string, challenge: Challenge, now: int)
      modifies this`authChallenges
      ensures authChallenges == LiveChallenges(old(authChallenges), now)[id := challenge]
    {
      ghost var cs := authChallenges;
      var todo := authChallenges.Keys;
      while todo != {}
        invariant todo <= cs.Keys
        invariant authChallenges == map k | k in cs && (k in todo || !(now > cs[k].expireAt)) :: cs[k]
        decreases todo
      {
        var key :| key in todo;
        if now > authChallenges[key].expireAt {
          authChallenges := authChallenges - {key};
        }
        todo := todo - {key};
      }
      authChallenges := authChallenges[id := challenge];
    }

    method ConsumeDeviceAuthChallenge(id: string) returns (challenge: Option<Challenge>)
      modifies this`authChallenges
      ensures authChallenges == old(authChallenges) - {id}
      ensures challenge == if id in old(authChallenges) then Some(old(authChallenges)[id]) else None
    {
      challenge := None;
      if id in authChallenges {
        challenge := Some(authChallenges[id]);
        authChallenges := authChallenges - {id};
      }
    }

    method HandleDeviceAuthProof(id: string, device: string, pubKey: Blob, signed: bool, saved: bool, now: int)
      returns (err: Option<Error>)
      modifies this
      ensures (err, Model()) == Prove(old(Model()), digest, id, device, pubKey, signed, saved, now)
    {
      hide Authorise;
      var challenge := ConsumeDeviceAuthChallenge(id);
      if challenge == None || now > challenge.value.expireAt {
        return Some(ChallengeExpired);
      }
      var c := challenge.value;
      if c.device != device || c.pubKey != pubKey {
        return Some(KeyMismatch);
      }
      if !signed {
        return Some(InvalidSignature);
      }
      err := AuthDevice(c.user, c.group, c.device, c.ticket, c.pubKey, saved, now);
    }

    /** The bytes a device signs. */
    static method BuildDeviceAuthSignedPayload(id: Blob, nonce: Blob, device: Blob, pubKey: Blob) returns (buf: Blob)
      ensures buf == SignedPayload(id, nonce, device, pubKey)
    {
      hide LenPrefixed;
      buf := AppendLenPrefixed([], id);
      buf := AppendLenPrefixed(buf, nonce);
      buf := AppendLenPrefixed(buf, device);
      buf := AppendLenPrefixed(buf, pubKey);
      assert buf == [] + LenPrefixed(id) + LenPrefixed(nonce) + LenPrefixed(device) + LenPrefixed(pubKey);
    }

    static method AppendLenPrefixed(buf: Blob, data: Blob) returns (r: Blob)
      ensures r == buf + LenPrefixed(data)
    {
      r := buf + Bytes.BigEndian(|data|, 4) + data;
    }

    // ------------------------------------------------------------------- names

    method DisplayNameExistsInNetwork(record: Record, displayName: string) returns (exists_: bool)
      ensures exists_ == Taken(fold, authedDevices, record, displayName)
    {
      var name := Trim(displayName);
      if name == "" {
        return false;
      }
      var todo := authedDevices.Keys;
      while todo != {}
        invariant todo <= authedDevices.Keys
        invariant forall k :: k in authedDevices && k !in todo ==> !Rival(record, name, authedDevices[k])
        decreases todo
      {
        var key :| key in todo;
        if Rival(record, name, authedDevices[key]) {
          return true;
        }
        todo := todo - {key};
      }
      return false;
    }

    predicate Rival(record: Record, name: string, other: Record) {
      !SameDevice(other, record) && NetworkOf(other) == NetworkOf(record) && Bears(fold, other, name)
    }

    /** Tries the desired name, then numbered ones; the bound of the search is proved, not coded. */
    method UniqueDisplayName(record: Record, desired: string) returns (name: string)
      requires DigitsUnfolded(fold) && IsTrimmed(desired) && desired != ""
      ensures name == UniqueName(fold, authedDevices, record, desired)
    {
      hide Taken, Candidate, IsTrimmed, DigitsUnfolded;
      name := desired;
      var i := 0;
      assert Candidate(desired, 0) == desired by { CandidateZero(desired); }
      var taken := DisplayNameExistsInNetwork(record, name);
      while taken
        invariant name == Candidate(desired, i) && taken == Taken(fold, authedDevices, record, name)
        invariant forall j :: 0 <= j < i ==> Taken(fold, authedDevices, record, Candidate(desired, j))
        decreases |authedDevices| + 1 - i, taken
      {
        SearchBounded(fold, authedDevices, record, desired, i + 1);
        i := i + 1;
        name := desired + "-" + Dec(i);
        CandidateNumber(desired, i);
        taken := DisplayNameExistsInNetwork(record, name);
      }
      FirstFreeUnique(fold, authedDevices, record, desired, i, FirstFreeIndex(fold, authedDevices, record, desired));
    }

    method AssignAuthedDeviceDisplayName(group: string, device: string, displayName: string, saved: bool)
      returns (err: Option<Error>)
      requires DigitsUnfolded(fold)
      modifies this`authedDevices
      ensures (err, Model()) == AssignName(old(Model()), fold, group, device, displayName, saved)
    {
      hide UniqueName, DigitsUnfolded, Utf8Length, Trim;
      var checked := CheckName(displayName);
      if checked.Err? {
        return Some(checked.error);
      }
      var key := AuthKey(group, device);
      if key !in authedDevices {
        return Some(DeviceNotFound);
      }
      if Trim(authedDevices[key].name) != "" {
        return None;
      }
      TrimSound(displayName);
      var name := UniqueDisplayName(authedDevices[key], checked.value);
      authedDevices := authedDevices[key := authedDevices[key].(name := name)];
      return if saved then None else Some(NotSaved);
    }

    method SetAuthedDeviceDisplayName(group: string, device: string, displayName: string, saved: bool)
      returns (err: Option<Error>)
      modifies this`authedDevices
      ensures (err, Model()) == SetName(old(Model()), fold, group, device, displayName, saved)
    {
      hide Utf8Length, Trim, Bears;
      var checked := CheckName(displayName);
      if checked.Err? {
        return Some(checked.error);
      }
      var key, name := AuthKey(group, device), checked.value;
      if key !in authedDevices {
        return Some(DeviceNotFound);
      }
      var record := authedDevices[key];
      var todo := authedDevices.Keys;
      while todo != {}
        invariant todo <= authedDevices.Keys && authedDevices == old(authedDevices)
        invariant forall k :: k in authedDevices && k !in todo ==> !OtherBears(record, device, name, authedDevices[k])
        decreases todo
      {
        var k :| k in todo;
        if OtherBears(record, device, name, authedDevices[k]) {
          return Some(NameTaken);
        }
        todo := todo - {k};
      }
      authedDevices := authedDevices[key := record.(name := name)];
      return if saved then None else Some(NotSaved);
    }

    predicate OtherBears(record: Record, device: string, name: string, other: Record) {
      other.device != device && NetworkOf(other) == NetworkOf(record) && Bears(fold, other, name)
    }

    // ------------------------------------------------------------- administration

    method MatchingDevices(user: string, group: string, device: string) returns (matches: set<string>)
      ensures matches == Matches(Model(), user, group, device)
    {
      matches := {};
      var todo := authedDevices.Keys;
      while todo != {}
        invariant todo <= authedDevices.Keys
        invariant matches == Matches(Model(), user, group, device) - todo
        decreases todo
      {
        var key :| key in todo;
        var record := authedDevices[key];
        if record.user == user && record.device == device && (group == "" || record.group == group) {
          matches := matches + {key};
        }
        todo := todo - {key};
      }
    }

    method SelectDevices(user: string, group: string, device: string) returns (r: Result<set<string>, Error>)
      ensures r == Select(Model(), user, group, device)
    {
      hide Matches;
      var u, g, d := Trim(user), Trim(group), Trim(device);
      if u == "" || d == "" {
        return Err(Required);
      }
      if u !in users {
        return Err(UserNotFound);
      }
      if g != "" {
        var full := NormalizeGroup(g, users[u]);
        if full == None {
          return Err(ForeignGroup);
        }
        var matches := MatchingDevices(u, full.value, d);
        return if matches == {} then Err(DeviceNotFound) else Ok(matches);
      }
      var matches := MatchingDevices(u, "", d);
      if matches == {} {
        return Err(DeviceNotFound);
      }
      if |matches| > 1 {
        return Err(AmbiguousDevice);
      }
      return Ok(matches);
    }

    method DeleteAuthedDevice(user: string, group: string, device: string, saved: bool)
      returns (r: Result<set<string>, Error>)
      modifies this`authedDevices
      ensures (r, Model()) == DeleteDevice(old(Model()), user, group, device, saved)
    {
      hide Select;
      var selected := SelectDevices(user, group, device);
      if selected.Err? {
        return Err(selected.error);
      }
      var todo := selected.value;
      while todo != {}
        invariant todo <= selected.value && authedDevices == old(authedDevices) - (selected.value - todo)
        decreases todo
      {
        var key :| key in todo;
        authedDevices := authedDevices - {key};
        todo := todo - {key};
      }
      assert selected.value - todo == selected.value;
      return if saved then Ok(selected.value) else Err(NotSaved);
    }

    method RenameAuthedDevice(user: string, group: string, device: string, displayName: string, saved: bool)
      returns (err: Option<Error>)
      requires Filed(authedDevices)
      modifies this`authedDevices
      ensures (err, Model()) == Accounts.RenameDevice(old(Model()), fold, user, group, device, displayName, saved)
    {
      hide Select, Utf8Length, Trim, Taken;
      var checked := CheckName(displayName);
      if checked.Err? {
        return Some(checked.error);
      }
      var selected := SelectDevices(user, group, device);
      if selected.Err? {
        return Some(selected.error);
      }
      ghost var only := SelectIsSingle(Model(), user, group, device);
      var key :| key in selected.value;
      var taken := DisplayNameExistsInNetwork(authedDevices[key], checked.value);
      if taken {
        return Some(NameTaken);
      }
      authedDevices := authedDevices[key := authedDevices[key].(name := checked.value)];
      return if saved then None else Some(NotSaved);
    }

    method CheckAuthedDevice(group: string, device: string, pubKey: Blob, now: int) returns (err: Option<Error>)
      ensures err == CheckDevice(Model(), digest, group, device, pubKey, now)
    {
      var key := AuthKey(group, device);
      if key !in authedDevices {
        return Some(NotAuthed);
      }
      if now > authedDevices[key].authExpireAt {
        return Some(AuthExpired);
      }
      if pubKey == [] || authedDevices[key].pubKeyHex != digest(pubKey) {
        return Some(KeyMismatch);
      }
      return None;
    }
  }

  lemma CandidateZero(desired: string)
    ensures Candidate(desired, 0) == desired
  {
  }

  lemma CandidateNumber(desired: string, i: nat)
    requires i > 0
    ensures Candidate(desired, i) == desired + "-" + Dec(i)
  {
  }
}
