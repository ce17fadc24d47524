/** Text helpers the controller relies on: trimming, case folding, decimal numerals,
    joining and the order on strings.  They follow the Go standard library functions
    of the same purpose on sequences of runes. */
module Text {

  datatype Option<+T> = None | Some(value: T)

  datatype Result<+T, +E> = Ok(value: T) | Err(error: E)

  const UINT32_MAX: nat := 0xFFFF_FFFF

  type uint32 = x: nat | x <= UINT32_MAX

  // ---------------------------------------------------------------- trimming

  /** Unicode White_Space, as `unicode.IsSpace` defines it. */
  predicate IsSpace(c: char) {
    var n := c as int;
    9 <= n <= 13 || n == 0x20 || n == 0x85 || n == 0xA0 || n == 0x1680 ||
    0x2000 <= n <= 0x200A || n == 0x2028 || n == 0x2029 || n == 0x202F ||
    n == 0x205F || n == 0x3000
  }

  function TrimLeft(s: string): string {
    if s != "" && IsSpace(s[0]) then TrimLeft(s[1..]) else s
  }

  function TrimRight(s: string): string {
    if s != "" && IsSpace(s[|s| - 1]) then TrimRight(s[..|s| - 1]) else s
  }

  function Trim(s: string): string {
    TrimRight(TrimLeft(s))
  }

  /** No space at either end. */
  predicate IsTrimmed(s: string) {
    s == "" || (!IsSpace(s[0]) && !IsSpace(s[|s| - 1]))
  }

  lemma {:induction false} TrimLeftEnds(s: string)
    ensures TrimLeft(s) == "" || !IsSpace(TrimLeft(s)[0])
  {
    if s != "" && IsSpace(s[0]) { TrimLeftEnds(s[1..]); }
  }

  lemma {:induction false} TrimRightKeepsFront(s: string)
    requires s == "" || !IsSpace(s[0])
    ensures IsTrimmed(TrimRight(s))
  {
    if s != "" && IsSpace(s[|s| - 1]) {
      assert |s| > 1;
      TrimRightKeepsFront(s[..|s| - 1]);
    }
  }

  /** Trimming yields a trimmed string and leaves trimmed strings alone, hence is idempotent. */
  lemma TrimSound(s: string)
    ensures IsTrimmed(Trim(s))
    ensures IsTrimmed(s) ==> Trim(s) == s
    ensures Trim(Trim(s)) == Trim(s)
  {
    TrimLeftEnds(s);
    TrimRightKeepsFront(TrimLeft(s));
  }

  // ------------------------------------------------------------- case folding

  /** `strings.EqualFold` for a given rune folding. */
  predicate EqualFold(fold: char -> char, a: string, b: string) {
    |a| == |b| && forall i :: 0 <= i < |a| ==> fold(a[i]) == fold(b[i])
  }

  function FoldAll(fold: char -> char, s: string): (r: string)
    ensures |r| == |s|
    ensures forall i :: 0 <= i < |s| ==> r[i] == fold(s[i])
  {
    if s == "" then "" else [fold(s[0])] + FoldAll(fold, s[1..])
  }

  lemma EqualFoldIsFoldEquality(fold: char -> char, a: string, b: string)
    ensures EqualFold(fold, a, b) <==> FoldAll(fold, a) == FoldAll(fold, b)
  {
    if FoldAll(fold, a) == FoldAll(fold, b) {
      forall i | 0 <= i < |a| ensures fold(a[i]) == fold(b[i]) {
        assert FoldAll(fold, a)[i] == FoldAll(fold, b)[i];
      }
    }
  }

  predicate IsDigit(c: char) { '0' <= c <= '9' }

  /** Case folding never touches a decimal digit; true of ASCII and of Unicode simple folding. */
  ghost predicate DigitsUnfolded(fold: char -> char) {
    forall c :: IsDigit(c) ==> fold(c) == c
  }

  // ---------------------------------------------------------------- numerals

  function Digit(n: nat): (c: char)
    requires n < 10
    ensures IsDigit(c)
  {
    '0' + n as char
  }

  function DigitValue(c: char): (n: nat)
    requires IsDigit(c)
    ensures n < 10
  {
    c as int - '0' as int
  }

  /** Decimal numeral, as `%d` and `strconv.FormatUint(_, 10)` print it. */
  function Dec(n: nat): (s: string)
    ensures s != ""
    ensures forall i :: 0 <= i < |s| ==> IsDigit(s[i])
  {
    if n < 10 then [Digit(n)] else Dec(n / 10) + [Digit(n % 10)]
  }

  function DigitsValue(s: string): nat
    requires forall i :: 0 <= i < |s| ==> IsDigit(s[i])
  {
    if s == "" then 0 else 10 * DigitsValue(s[..|s| - 1]) + DigitValue(s[|s| - 1])
  }

  /** `strconv.ParseUint(s, 10, 32)`. */
  function ParseUint32(s: string): Option<uint32> {
    if s != "" && (forall i :: 0 <= i < |s| ==> IsDigit(s[i])) && DigitsValue(s) <= UINT32_MAX
    then Some(DigitsValue(s)) else None
  }

  lemma {:induction false} DecValue(n: nat)
    ensures DigitsValue(Dec(n)) == n
  {
    if n >= 10 {
      DecValue(n / 10);
      var s := Dec(n);
      assert s[..|s| - 1] == Dec(n / 10);
    }
  }

  lemma DecInjective(a: nat, b: nat)
    requires Dec(a) == Dec(b)
    ensures a == b
  {
    DecValue(a);
    DecValue(b);
  }

  // ----------------------------------------------------- cutting and joining

  /** `strings.Cut(s, sep)` for a one-rune separator. */
  function Cut(s: string, sep: char): Option<(string, string)> {
    if s == "" then None
    else if s[0] == sep then Some(("", s[1..]))
    else match Cut(s[1..], sep)
      case None => None
      case Some((before, after)) => Some(([s[0]] + before, after))
  }

  lemma {:induction false} CutAtFirst(a: string, sep: char, b: string)
    requires sep !in a
    ensures Cut(a + [sep] + b, sep) == Some((a, b))
  {
    var s := a + [sep] + b;
    if a == "" {
      assert s[1..] == b;
    } else {
      assert s[1..] == a[1..] + [sep] + b;
      CutAtFirst(a[1..], sep, b);
      assert [a[0]] + a[1..] == a;
    }
  }

  /** Two strings split by the same separator agree piecewise when it is absent from the fronts. */
  lemma SplitUnique(a: string, b: string, c: string, d: string, sep: char)
    requires sep !in a && sep !in c
    requires a + [sep] + b == c + [sep] + d
    ensures a == c && b == d
  {
    CutAtFirst(a, sep, b);
    CutAtFirst(c, sep, d);
  }

  /** The same from the other end: agreement when the separator is absent from the backs. */
  lemma SplitLast(a: string, b: string, c: string, d: string, sep: char)
    requires sep !in b && sep !in d
    requires a + [sep] + b == c + [sep] + d
    ensures a == c && b == d
  {
    var s, t := a + [sep] + b, c + [sep] + d;
    assert s[|a|] == sep && t[|c|] == sep;
    assert s[..|a|] == a && t[..|c|] == c;
    assert s[|a| + 1..] == b && t[|c| + 1..] == d;
  }

  function JoinStrings(parts: seq<string>, sep: string): string {
    if |parts| == 0 then ""
    else if |parts| == 1 then parts[0]
    else parts[0] + sep + JoinStrings(parts[1..], sep)
  }

  predicate HasPrefix(s: string, p: string) {
    p <= s
  }

  predicate HasSuffix(s: string, p: string) {
    |p| <= |s| && s[|s| - |p|..] == p
  }

  // ------------------------------------------------------------------- order

  /** Lexicographic order on strings. */
  predicate StringLess(a: string, b: string) {
    b != "" && (a == "" || a[0] < b[0] || (a[0] == b[0] && StringLess(a[1..], b[1..])))
  }

  lemma {:induction false} StringLessTotal(a: string, b: string)
    ensures a == b || StringLess(a, b) || StringLess(b, a)
  {
    if a != "" && b != "" && a[0] == b[0] {
      StringLessTotal(a[1..], b[1..]);
      if a[1..] == b[1..] {
        assert a == [a[0]] + a[1..] == b;
      }
    }
  }

  lemma {:induction false} StringLessTransitive(a: string, b: string, c: string)
    requires StringLess(a, b) && StringLess(b, c)
    ensures StringLess(a, c)
  {
    if a != "" && a[0] == b[0] && b[0] == c[0] {
      StringLessTransitive(a[1..], b[1..], c[1..]);
    }
  }

  lemma {:induction false} StringLessIrreflexive(a: string)
    ensures !StringLess(a, a)
  {
    if a != "" { StringLessIrreflexive(a[1..]); }
  }
}
