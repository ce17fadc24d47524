/** The wildcard filter (control/user.go): '*' stands for any run of runes, '?' for any one rune. */
module Wildcard {

  /** Reference meaning: the value can be cut into one piece per pattern rune, each piece fitting. */
  predicate Fits(c: char, piece: string) {
    c == '*' || (|piece| == 1 && (c == '?' || piece[0] == c))
  }

  function Concat(pieces: seq<string>): string {
    if pieces == [] then "" else pieces[0] + Concat(pieces[1..])
  }

  ghost predicate IsCutting(pattern: string, value: string, pieces: seq<string>) {
    && |pieces| == |pattern|
    && Concat(pieces) == value
    && forall i :: 0 <= i < |pattern| ==> Fits(pattern[i], pieces[i])
  }

  ghost predicate Matches(pattern: string, value: string) {
    exists pieces :: IsCutting(pattern, value, pieces)
  }

  lemma {:induction false} ConcatSnoc(pieces: seq<string>, last: string)
    ensures Concat(pieces + [last]) == Concat(pieces) + last
  {
    if pieces == [] {
      assert pieces + [last] == [last];
      assert Concat([last]) == last + Concat([]);
    } else {
      assert (pieces + [last])[1..] == pieces[1..] + [last];
      ConcatSnoc(pieces[1..], last);
    }
  }

  /** A longer pattern matches exactly when its last rune takes some final piece of the value. */
  lemma MatchesSnoc(p: string, c: char, v: string)
    ensures Matches(p + [c], v) <==> exists k :: 0 <= k <= |v| && Matches(p, v[..k]) && Fits(c, v[k..])
  {
    if Matches(p + [c], v) {
      var pieces :| IsCutting(p + [c], v, pieces);
      var front, last := pieces[..|p|], pieces[|p|];
      assert pieces == front + [last];
      ConcatSnoc(front, last);
      var k := |v| - |last|;
      assert v[..k] == Concat(front) && v[k..] == last;
      assert forall i :: 0 <= i < |p| ==> Fits((p + [c])[i], pieces[i]);
      assert IsCutting(p, v[..k], front);
      assert Fits((p + [c])[|p|], last);
    }
    if k :| 0 <= k <= |v| && Matches(p, v[..k]) && Fits(c, v[k..]) {
      var front :| IsCutting(p, v[..k], front);
      ConcatSnoc(front, v[k..]);
      assert v == v[..k] + v[k..];
      assert IsCutting(p + [c], v, front + [v[k..]]);
    }
  }

  /** The three ways a row of the table is computed from the previous one. */
  lemma MatchesStar(p: string, v: string)
    ensures Matches(p + ['*'], v) <==> Matches(p, v) || (v != "" && Matches(p + ['*'], v[..|v| - 1]))
  {
    MatchesSnoc(p, '*', v);
    assert v[..|v|] == v;
    if v != "" {
      var w := v[..|v| - 1];
      MatchesSnoc(p, '*', w);
      assert forall k :: 0 <= k <= |w| ==> w[..k] == v[..k];
      assert Matches(p, v) ==> Matches(p, v[..|v|]) && Fits('*', v[|v|..]);
    } else {
      assert Matches(p, v) ==> Matches(p, v[..0]) && Fits('*', v[0..]);
    }
  }

  lemma MatchesOne(p: string, c: char, v: string)
    requires c != '*'
    ensures Matches(p + [c], v) <==> v != "" && Matches(p, v[..|v| - 1]) && (c == '?' || c == v[|v| - 1])
  {
    MatchesSnoc(p, c, v);
    if v != "" && Matches(p, v[..|v| - 1]) && (c == '?' || c == v[|v| - 1]) {
      assert v[|v| - 1..] == [v[|v| - 1]];
      assert Fits(c, v[|v| - 1..]);
    }
  }

  lemma MatchesEmptyPattern(v: string)
    ensures Matches("", v) <==> v == ""
  {
    if v == "" {
      assert IsCutting("", v, []);
    }
  }

  /** `row[i]` says whether `p` matches the first `i` runes of `v`. */
  ghost predicate IsRow(row: array<bool>, p: string, v: string, n: int)
    requires n <= row.Length == |v| + 1
    reads row
  {
    forall i :: 0 <= i < n ==> (row[i] <==> Matches(p, v[..i]))
  }

  /** The row-by-row table decides the reference meaning, for every pattern and value. */
  method WildcardMatch(pattern: string, value: string) returns (r: bool)
    ensures r <==> Matches(pattern, value)
  {
    var n := |value| + 1;
    var matches := new bool[n](i => false);
    matches[0] := true;
    forall i | 0 <= i < n ensures matches[i] <==> Matches("", value[..i]) { MatchesEmptyPattern(value[..i]); }
    var j := 0;
    assert pattern[..0] == "";
    while j < |pattern|
      invariant 0 <= j <= |pattern|
      invariant matches.Length == n && IsRow(matches, pattern[..j], value, n)
    {
      var c := pattern[j];
      assert pattern[..j + 1] == pattern[..j] + [c];
      var next := NextRow(matches, pattern[..j], c, value);
      matches := next;
      j := j + 1;
    }
    assert pattern[..j] == pattern && value[..|value|] == value;
    return matches[|value|];
  }

  method NextRow(matches: array<bool>, ghost p: string, c: char, value: string) returns (next: array<bool>)
    requires matches.Length == |value| + 1 && IsRow(matches, p, value, |value| + 1)
    ensures fresh(next) && next.Length == |value| + 1 && IsRow(next, p + [c], value, |value| + 1)
  {
    next := new bool[|value| + 1](i => false);
    if c == '*' {
      next[0] := matches[0];
      MatchesStar(p, value[..0]);
      for i := 1 to |value| + 1
        invariant IsRow(next, p + [c], value, i)
      {
        MatchesStar(p, value[..i]);
        assert value[..i][..i - 1] == value[..i - 1];
        next[i] := matches[i] || next[i - 1];
      }
    } else {
      MatchesOne(p, c, value[..0]);
      for i := 1 to |value| + 1
        invariant IsRow(next, p + [c], value, i)
        invariant forall k :: i <= k <= |value| ==> !next[k]
      {
        MatchesOne(p, c, value[..i]);
        assert value[..i][..i - 1] == value[..i - 1];
        next[i] := matches[i - 1] && (c == '?' || c == value[i - 1]);
      }
    }
  }
}
