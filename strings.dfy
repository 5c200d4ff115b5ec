/**
 * The handful of JavaScript string operations the application relies on:
 * `indexOf`, `includes`, `startsWith`, `replace` with a string pattern,
 * `trim`, `split` and `join` with a one-character separator, and the
 * decimal rendering of a natural number inside a template literal.
 */
module Strings {
  import opened Wrappers

  /** `p` occurs in `s` starting at index `j`. */
  predicate MatchAt(s: string, p: string, j: int) {
    0 <= j && j + |p| <= |s| && s[j..j + |p|] == p
  }

  /** `p` occurs somewhere in `s`. */
  ghost predicate Occurs(s: string, p: string) {
    exists j :: MatchAt(s, p, j)
  }

  /** Character-by-character comparison of `p` with `s` from index `i`, from the `k`-th character on. */
  predicate AgreeFrom(s: string, p: string, i: nat, k: nat)
    requires i + |p| <= |s| && k <= |p|
    decreases |p| - k
  {
    k == |p| || (s[i + k] == p[k] && AgreeFrom(s, p, i, k + 1))
  }

  lemma {:induction false} AgreeFromIff(s: string, p: string, i: nat, k: nat)
    requires i + |p| <= |s| && k <= |p|
    ensures AgreeFrom(s, p, i, k) <==> forall m :: k <= m < |p| ==> s[i + m] == p[m]
    decreases |p| - k
  {
    if k < |p| {
      AgreeFromIff(s, p, i, k + 1);
    }
  }

  lemma AgreeIsMatch(s: string, p: string, i: nat)
    requires i + |p| <= |s|
    ensures AgreeFrom(s, p, i, 0) <==> MatchAt(s, p, i)
  {
    AgreeFromIff(s, p, i, 0);
    var w := s[i..i + |p|];
    assert forall m :: 0 <= m < |p| ==> w[m] == s[i + m];
  }

  /** The first occurrence of `p` in `s` at index `i` or later. */
  function IndexFrom(s: string, p: string, i: nat): Option<nat>
    decreases |s| - i
  {
    if i + |p| > |s| then None
    else if AgreeFrom(s, p, i, 0) then Some(i)
    else IndexFrom(s, p, i + 1)
  }

  lemma {:induction false} IndexFromSpec(s: string, p: string, i: nat)
    ensures var r := IndexFrom(s, p, i);
      && (r.Some? ==> i <= r.value && MatchAt(s, p, r.value))
      && (r.Some? ==> forall j :: i <= j < r.value ==> !MatchAt(s, p, j))
      && (r.None? ==> forall j :: i <= j ==> !MatchAt(s, p, j))
    decreases |s| - i
  {
    if i + |p| <= |s| {
      AgreeIsMatch(s, p, i);
      if !AgreeFrom(s, p, i, 0) {
        IndexFromSpec(s, p, i + 1);
      }
    }
  }

  /**
   * `String.prototype.indexOf`: the index of the first occurrence of `p`
   * in `s`, or `None` (JavaScript's -1) when there is none.
   */
  function IndexOf(s: string, p: string): Option<nat> {
    IndexFrom(s, p, 0)
  }

  /** `IndexOf` finds the first occurrence, and `None` means there is none. */
  lemma IndexOfSpec(s: string, p: string)
    ensures IndexOf(s, p).Some? ==> MatchAt(s, p, IndexOf(s, p).value)
    ensures IndexOf(s, p).Some? ==> forall j :: 0 <= j < IndexOf(s, p).value ==> !MatchAt(s, p, j)
    ensures IndexOf(s, p).None? ==> forall j :: !MatchAt(s, p, j)
  {
    IndexFromSpec(s, p, 0);
  }

  /** A first occurrence determines `IndexOf`. */
  lemma IndexOfIs(s: string, p: string, i: nat)
    requires MatchAt(s, p, i)
    requires forall j :: 0 <= j < i ==> !MatchAt(s, p, j)
    ensures IndexOf(s, p) == Some(i)
  {
    IndexOfSpec(s, p);
  }

  /** `String.prototype.includes`. */
  function Contains(s: string, p: string): bool {
    IndexOf(s, p).Some?
  }

  /** `includes` holds exactly when the pattern occurs somewhere. */
  lemma ContainsIff(s: string, p: string)
    ensures Contains(s, p) <==> Occurs(s, p)
  {
    IndexOfSpec(s, p);
  }

  /** A witness occurrence makes `includes` true. */
  lemma ContainsAt(s: string, p: string, j: nat)
    requires MatchAt(s, p, j)
    ensures Contains(s, p)
  {
    ContainsIff(s, p);
  }

  /** A pattern holding a character the string lacks does not occur in it. */
  lemma AbsentChar(s: string, p: string, k: nat)
    requires k < |p| && p[k] !in s
    ensures !Contains(s, p)
  {
    ContainsIff(s, p);
    forall j | 0 <= j && j + |p| <= |s| ensures !MatchAt(s, p, j) {
      assert s[j..j + |p|][k] == s[j + k];
    }
  }

  /** An occurrence of `q` inside an occurrence of `p` is an occurrence in `s`. */
  lemma {:induction false} ContainsTransitive(s: string, p: string, q: string)
    requires Contains(s, p) && Contains(p, q)
    ensures Contains(s, q)
  {
    ContainsIff(s, p);
    ContainsIff(p, q);
    var j :| MatchAt(s, p, j);
    var k :| MatchAt(p, q, k);
    assert p == s[j..j + |p|];
    forall i | 0 <= i < |q| ensures s[j + k..j + k + |q|][i] == q[i] {
      assert q[i] == p[k + i] == s[j + k + i];
    }
    assert MatchAt(s, q, j + k);
    ContainsIff(s, q);
  }

  /** A one-character pattern occurs iff that character is in the string. */
  lemma CharOccurs(s: string, c: char)
    ensures Contains(s, [c]) <==> c in s
  {
    ContainsIff(s, [c]);
    if c in s {
      var j :| 0 <= j < |s| && s[j] == c;
      assert s[j..j + 1] == [c];
      assert MatchAt(s, [c], j);
    }
    if Contains(s, [c]) {
      var j :| MatchAt(s, [c], j);
      assert s[j] == s[j..j + 1][0];
    }
  }

  /** A list of strings without repetitions. */
  predicate Distinct(s: seq<string>) {
    forall i, j :: 0 <= i < j < |s| ==> s[i] != s[j]
  }

  /** `String.prototype.startsWith`. */
  predicate StartsWith(s: string, p: string) {
    |p| <= |s| && s[..|p|] == p
  }

  /**
   * `String.prototype.replace` with a string pattern: only the first
   * occurrence of `p` is replaced by `q`.
   */
  function ReplaceFirst(s: string, p: string, q: string): (r: string)
    ensures Contains(s, p) ==> |r| == |s| - |p| + |q|
    ensures !Contains(s, p) ==> r == s
  {
    match IndexOf(s, p)
    case None => s
    case Some(i) =>
      IndexOfSpec(s, p);
      s[..i] + q + s[i + |p|..]
  }

  /**
   * The characters `String.prototype.trim` removes: ECMAScript WhiteSpace
   * (tab, vertical tab, form feed, no-break space, byte order mark and the
   * Unicode category Zs) and LineTerminator (LF, CR, U+2028, U+2029).
   */
  predicate IsWhiteSpace(c: char) {
    c == '\t' || c == '\n' || c == '\U{B}' || c == '\U{C}' || c == '\r' || c == ' '
    || c == '\U{A0}' || c == '\U{1680}' || ('\U{2000}' <= c <= '\U{200A}')
    || c == '\U{2028}' || c == '\U{2029}' || c == '\U{202F}' || c == '\U{205F}'
    || c == '\U{3000}' || c == '\U{FEFF}'
  }

  predicate AllWhiteSpace(s: string) {
    forall i :: 0 <= i < |s| ==> IsWhiteSpace(s[i])
  }

  /** Drops leading white space. */
  function TrimStart(s: string): string {
    if s != [] && IsWhiteSpace(s[0]) then TrimStart(s[1..]) else s
  }

  /** Drops trailing white space. */
  function TrimEnd(s: string): string {
    if s != [] && IsWhiteSpace(s[|s| - 1]) then TrimEnd(s[..|s| - 1]) else s
  }

  /** `String.prototype.trim`. */
  function Trim(s: string): string {
    TrimEnd(TrimStart(s))
  }

  /** `TrimStart` keeps a suffix, drops only white space, and leaves none at the front. */
  lemma {:induction false} TrimStartSpec(s: string)
    ensures var r := TrimStart(s);
      && |r| <= |s| && r == s[|s| - |r|..]
      && AllWhiteSpace(s[..|s| - |r|])
      && (r != [] ==> !IsWhiteSpace(r[0]))
  {
    if s != [] && IsWhiteSpace(s[0]) {
      TrimStartSpec(s[1..]);
      var r := TrimStart(s[1..]);
      assert s[..|s| - |r|] == [s[0]] + s[1..][..|s| - 1 - |r|];
    }
  }

  /** `TrimEnd` keeps a prefix, drops only white space, and leaves none at the back. */
  lemma {:induction false} TrimEndSpec(s: string)
    ensures var r := TrimEnd(s);
      && |r| <= |s| && r == s[..|r|]
      && AllWhiteSpace(s[|r|..])
      && (r != [] ==> !IsWhiteSpace(r[|r| - 1]))
  {
    if s != [] && IsWhiteSpace(s[|s| - 1]) {
      TrimEndSpec(s[..|s| - 1]);
      var r := TrimEnd(s[..|s| - 1]);
      assert s[|r|..] == s[..|s| - 1][|r|..] + [s[|s| - 1]];
    }
  }

  /** `trim` yields the empty string exactly on all-white-space input. */
  lemma TrimEmptyIff(s: string)
    ensures Trim(s) == "" <==> AllWhiteSpace(s)
  {
    var t := TrimStart(s);
    TrimStartSpec(s);
    TrimEndSpec(t);
    if Trim(s) == "" {
      assert t[0..] == t;
      assert t == [];
      assert s[..|s|] == s;
    }
  }

  /** `trim` leaves no white space at either end of its result. */
  lemma TrimmedEnds(s: string)
    ensures Trim(s) != "" ==> !IsWhiteSpace(Trim(s)[0]) && !IsWhiteSpace(Trim(s)[|Trim(s)| - 1])
  {
    var t := TrimStart(s);
    var r := TrimEnd(t);
    TrimStartSpec(s);
    TrimEndSpec(t);
    if r != "" {
      assert r[0] == t[0];
    }
  }

  /** `Array.prototype.join(sep)`. */
  function Join(ls: seq<string>, sep: string): string
    decreases |ls|
  {
    if |ls| == 0 then ""
    else if |ls| == 1 then ls[0]
    else ls[0] + sep + Join(ls[1..], sep)
  }

  /** `String.prototype.split(sep)` for a one-character separator. */
  function Split(s: string, sep: char): (r: seq<string>)
    ensures |r| >= 1
    decreases |s|
  {
    match IndexOf(s, [sep])
    case None => [s]
    case Some(i) =>
      IndexOfSpec(s, [sep]);
      [s[..i]] + Split(s[i + 1..], sep)
  }

  /** Splitting a join on the same separator gives the pieces back. */
  lemma {:induction false} SplitJoin(ls: seq<string>, sep: char)
    requires |ls| >= 1
    requires forall i :: 0 <= i < |ls| ==> sep !in ls[i]
    ensures Split(Join(ls, [sep]), sep) == ls
    decreases |ls|
  {
    var s := Join(ls, [sep]);
    if |ls| == 1 {
      CharOccurs(ls[0], sep);
    } else {
      var rest := Join(ls[1..], [sep]);
      assert s == ls[0] + [sep] + rest;
      var i := |ls[0]|;
      assert s[i..i + 1] == [sep];
      forall j | 0 <= j < i ensures !MatchAt(s, [sep], j) {
        assert s[j] == ls[0][j];
      }
      IndexOfIs(s, [sep], i);
      assert s[..i] == ls[0];
      assert s[i + 1..] == rest;
      SplitJoin(ls[1..], sep);
    }
  }

  predicate IsDigit(c: char) {
    '0' <= c <= '9'
  }

  function DigitChar(d: nat): (c: char)
    requires d < 10
    ensures IsDigit(c)
  {
    ['0', '1', '2', '3', '4', '5', '6', '7', '8', '9'][d]
  }

  function DigitValue(c: char): nat
    requires IsDigit(c)
  {
    (c as int - '0' as int) as nat
  }

  /** Decimal rendering of a natural number, as `${n}` in a template literal. */
  function NatToString(n: nat): (r: string)
    ensures |r| >= 1
    ensures forall i :: 0 <= i < |r| ==> IsDigit(r[i])
  {
    if n < 10 then [DigitChar(n)] else NatToString(n / 10) + [DigitChar(n % 10)]
  }

  /** The value of a non-empty string of decimal digits. */
  function DecimalValue(s: string): nat
    requires |s| >= 1 && forall i :: 0 <= i < |s| ==> IsDigit(s[i])
  {
    if |s| == 1 then DigitValue(s[0])
    else DecimalValue(s[..|s| - 1]) * 10 + DigitValue(s[|s| - 1])
  }

  /** Reading back a rendered number gives the number. */
  lemma {:induction false} DecimalRoundTrip(n: nat)
    ensures DecimalValue(NatToString(n)) == n
  {
    if n >= 10 {
      var s := NatToString(n);
      assert s[..|s| - 1] == NatToString(n / 10);
      DecimalRoundTrip(n / 10);
    }
  }
}
