/** Display names of authorised devices (control/user.go): unique per virtual network up to case.
    `fold` is the case folding of the runtime's library; all that is used of it is that it leaves
    decimal digits alone. */
module Names {
  import opened Text
  import opened Identity

  datatype Record = Record(user: string, group: string, device: string, name: string, pubKeyHex: string,
                           authExpireAt: int)

  type Records = map<string, Record>

  function NetworkOf(r: Record): string {
    NetworkKey(r.group, r.user)
  }

  predicate SameDevice(a: Record, b: Record) {
    a.group == b.group && a.device == b.device
  }

  /** `r` bears `name`, up to spaces at the ends and case. */
  predicate Bears(fold: char -> char, r: Record, name: string) {
    EqualFold(fold, Trim(r.name), name)
  }

  /** Another device of the record's network bears the name. */
  predicate Taken(fold: char -> char, authed: Records, r: Record, name: string) {
    Trim(name) != "" &&
    exists k :: k in authed && !SameDevice(authed[k], r) && NetworkOf(authed[k]) == NetworkOf(r) &&
      Bears(fold, authed[k], Trim(name))
  }

  // ---------------------------------------------------------- the suffix search

  function Candidate(desired: string, i: nat): string {
    if i == 0 then desired else desired + "-" + Dec(i)
  }

  lemma CandidateTrimmed(desired: string, i: nat)
    requires IsTrimmed(desired) && desired != ""
    ensures Trim(Candidate(desired, i)) == Candidate(desired, i) != ""
  {
    var c := Candidate(desired, i);
    TrimSound(c);
    assert c[0] == desired[0];
    if i > 0 { assert c[|c| - 1] == Dec(i)[|Dec(i)| - 1]; }
  }

  lemma FoldAppend(fold: char -> char, a: string, b: string)
    ensures FoldAll(fold, a + b) == FoldAll(fold, a) + FoldAll(fold, b)
  {
  }

  lemma FoldDigits(fold: char -> char, s: string)
    requires DigitsUnfolded(fold) && forall i :: 0 <= i < |s| ==> IsDigit(s[i])
    ensures FoldAll(fold, s) == s
  {
  }

  /** Different candidates differ even after folding. */
  lemma CandidatesDistinct(fold: char -> char, desired: string, i: nat, j: nat)
    requires DigitsUnfolded(fold) && i < j
    ensures !EqualFold(fold, Candidate(desired, i), Candidate(desired, j))
  {
    if i > 0 && EqualFold(fold, Candidate(desired, i), Candidate(desired, j)) {
      EqualFoldIsFoldEquality(fold, Candidate(desired, i), Candidate(desired, j));
      var front := desired + "-";
      FoldAppend(fold, front, Dec(i));
      FoldAppend(fold, front, Dec(j));
      FoldDigits(fold, Dec(i));
      FoldDigits(fold, Dec(j));
      var f := FoldAll(fold, front);
      assert (f + Dec(i))[|f|..] == Dec(i) && (f + Dec(j))[|f|..] == Dec(j);
      DecInjective(i, j);
    }
  }

  ghost predicate BearsOne(fold: char -> char, r: Record, desired: string, n: nat) {
    exists i :: 0 <= i < n && Bears(fold, r, Candidate(desired, i))
  }

  lemma BearerIsNew(fold: char -> char, r: Record, desired: string, n: nat)
    requires DigitsUnfolded(fold)
    ensures Bears(fold, r, Candidate(desired, n)) ==> !BearsOne(fold, r, desired, n)
  {
    if Bears(fold, r, Candidate(desired, n)) {
      forall i | 0 <= i < n ensures !Bears(fold, r, Candidate(desired, i)) {
        CandidatesDistinct(fold, desired, i, n);
      }
    }
  }

  lemma Bearer(fold: char -> char, authed: Records, r: Record, desired: string, i: nat) returns (k: string)
    requires IsTrimmed(desired) && desired != "" && Taken(fold, authed, r, Candidate(desired, i))
    ensures k in authed && Bears(fold, authed[k], Candidate(desired, i))
  {
    CandidateTrimmed(desired, i);
    k :| k in authed && Bears(fold, authed[k], Candidate(desired, i));
  }

  /** One bearer for each taken candidate, all different. */
  lemma {:induction false} Bearers(fold: char -> char, authed: Records, r: Record, desired: string, n: nat)
    returns (keys: set<string>)
    requires DigitsUnfolded(fold) && IsTrimmed(desired) && desired != ""
    requires forall i :: 0 <= i < n ==> Taken(fold, authed, r, Candidate(desired, i))
    ensures keys <= authed.Keys && |keys| == n
    ensures forall k :: k in keys ==> BearsOne(fold, authed[k], desired, n)
  {
    hide Taken, Candidate, Bears, IsTrimmed, DigitsUnfolded;
    keys := {};
    if n > 0 {
      var rest := Bearers(fold, authed, r, desired, n - 1);
      var k := Bearer(fold, authed, r, desired, n - 1);
      BearerIsNew(fold, authed[k], desired, n - 1);
      keys := rest + {k};
      forall j | j in keys ensures BearsOne(fold, authed[j], desired, n) {
        if j == k { assert Bears(fold, authed[k], Candidate(desired, n - 1)); }
      }
    }
  }

  lemma SubsetSize(a: set<string>, b: set<string>)
    requires a <= b
    ensures |a| <= |b|
  {
    if a != b {
      var x :| x in b && x !in a;
      SubsetSize(a, b - {x});
    }
  }

  /** The search never needs more tries than there are devices, plus one. */
  lemma SearchBounded(fold: char -> char, authed: Records, r: Record, desired: string, n: nat)
    requires DigitsUnfolded(fold) && IsTrimmed(desired) && desired != ""
    requires forall i :: 0 <= i < n ==> Taken(fold, authed, r, Candidate(desired, i))
    ensures n <= |authed|
  {
    var keys := Bearers(fold, authed, r, desired, n);
    SubsetSize(keys, authed.Keys);
    assert |authed.Keys| == |authed|;
  }

  /** The first candidate nobody else bears. */
  ghost predicate FirstFree(fold: char -> char, authed: Records, r: Record, desired: string, i: nat) {
    !Taken(fold, authed, r, Candidate(desired, i)) && forall j :: 0 <= j < i ==>
      Taken(fold, authed, r, Candidate(desired, j))
  }

  lemma FirstFreeExists(fold: char -> char, authed: Records, r: Record, desired: string, n: nat) returns (i: nat)
    requires DigitsUnfolded(fold) && IsTrimmed(desired) && desired != ""
    requires forall j :: 0 <= j < n ==> Taken(fold, authed, r, Candidate(desired, j))
    ensures FirstFree(fold, authed, r, desired, i)
    decreases |authed| + 1 - n
  {
    hide Taken, Candidate, IsTrimmed, DigitsUnfolded;
    SearchBounded(fold, authed, r, desired, n);
    if Taken(fold, authed, r, Candidate(desired, n)) {
      i := FirstFreeExists(fold, authed, r, desired, n + 1);
    } else {
      i := n;
    }
  }

  lemma FirstFreeUnique(fold: char -> char, authed: Records, r: Record, desired: string, i: nat, j: nat)
    requires FirstFree(fold, authed, r, desired, i) && FirstFree(fold, authed, r, desired, j)
    ensures i == j
  {
  }

  /** The name the search settles on. */
  ghost function UniqueName(fold: char -> char, authed: Records, r: Record, desired: string): (name: string)
    requires DigitsUnfolded(fold) && IsTrimmed(desired) && desired != ""
    ensures !Taken(fold, authed, r, name) && IsTrimmed(name) && name != ""
  {
    var i := FirstFreeIndex(fold, authed, r, desired);
    CandidateTrimmed(desired, i);
    TrimSound(Candidate(desired, i));
    Candidate(desired, i)
  }

  ghost function FirstFreeIndex(fold: char -> char, authed: Records, r: Record, desired: string): (i: nat)
    requires DigitsUnfolded(fold) && IsTrimmed(desired) && desired != ""
    ensures FirstFree(fold, authed, r, desired, i)
  {
    assert exists i :: FirstFree(fold, authed, r, desired, i) by {
      var i := FirstFreeExists(fold, authed, r, desired, 0);
    }
    var i :| FirstFree(fold, authed, r, desired, i);
    i
  }

  // ------------------------------------------------------------------ uniqueness

  predicate Clash(fold: char -> char, a: Record, b: Record) {
    NetworkOf(a) == NetworkOf(b) && Trim(a.name) != "" && Bears(fold, b, Trim(a.name))
  }

  /** No two devices of a network bear the same name. */
  ghost predicate UniqueNames(fold: char -> char, authed: Records) {
    forall k, j :: k in authed && j in authed && k != j ==> !Clash(fold, authed[k], authed[j])
  }

  lemma ClashSymmetric(fold: char -> char, a: Record, b: Record)
    ensures Clash(fold, a, b) ==> Clash(fold, b, a)
  {
  }

  /** Every record sits under its own key. */
  ghost predicate Filed(authed: Records) {
    forall k :: k in authed ==> k == AuthKey(authed[k].group, authed[k].device)
  }

  /** Storing a record keeps names unique exactly when no other record clashes with it. */
  lemma StoreUnique(fold: char -> char, authed: Records, key: string, r: Record)
    requires UniqueNames(fold, authed)
    ensures UniqueNames(fold, authed[key := r]) <==> forall k :: k in authed && k != key ==> !Clash(fold, r, authed[k])
  {
    var a := authed[key := r];
    if forall k :: k in authed && k != key ==> !Clash(fold, r, authed[k]) {
      forall k, j | k in a && j in a && k != j ensures !Clash(fold, a[k], a[j]) {
        if j == key { ClashSymmetric(fold, a[k], a[j]); }
      }
    }
    if UniqueNames(fold, a) {
      forall k | k in authed && k != key ensures !Clash(fold, r, authed[k]) {
        assert !Clash(fold, a[key], a[k]);
      }
    }
  }

  lemma DropUnique(fold: char -> char, authed: Records, keys: set<string>)
    requires UniqueNames(fold, authed)
    ensures UniqueNames(fold, authed - keys)
  {
  }

  /** A name nobody else bears can be given to a device. */
  lemma FreeNameUnique(fold: char -> char, authed: Records, key: string, r: Record, name: string)
    requires UniqueNames(fold, authed) && Filed(authed) && key == AuthKey(r.group, r.device)
    requires Trim(name) == name != "" && !Taken(fold, authed, r, name)
    ensures UniqueNames(fold, authed[key := r.(name := name)])
  {
    var r' := r.(name := name);
    forall k | k in authed && k != key ensures !Clash(fold, r', authed[k]) {
      assert !SameDevice(authed[k], r);
    }
    StoreUnique(fold, authed, key, r');
  }

  /** When names are unique, the name a device bears is free for it in any case and with any spaces around it. */
  lemma OwnNameFree(fold: char -> char, authed: Records, key: string, name: string)
    requires UniqueNames(fold, authed) && Filed(authed) && key in authed && Trim(authed[key].name) != ""
    requires EqualFold(fold, Trim(authed[key].name), Trim(name))
    ensures !Taken(fold, authed, authed[key], name)
  {
    hide Trim;
    forall k | k in authed && !SameDevice(authed[k], authed[key]) && NetworkOf(authed[k]) == NetworkOf(authed[key])
      ensures !Bears(fold, authed[k], Trim(name))
    {
      assert k != key;
      assert !Clash(fold, authed[key], authed[k]);
    }
  }
}
