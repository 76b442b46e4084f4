// String primitives shared by every other module: the subset of Python's
// str API the system relies on (in, startswith, endswith, strip, lower,
// split, replace, isdigit, int(), str()) stated over seq<char>.
module Text {

  datatype Option<T> = None | Some(value: T)

  /** Python's str.isspace set, which is also what `\s` and str.strip() use. */
  predicate IsSpace(c: char)
  {
    c == ' ' || ('\U{9}' <= c <= '\U{D}') || ('\U{1C}' <= c <= '\U{1F}') ||
    c == '\U{85}' || c == '\U{A0}' || c == '\U{1680}' || ('\U{2000}' <= c <= '\U{200A}') ||
    c == '\U{2028}' || c == '\U{2029}' || c == '\U{202F}' || c == '\U{205F}' || c == '\U{3000}'
  }

  /** Line boundaries recognised by str.splitlines(). */
  predicate IsLineBreak(c: char)
  {
    ('\U{A}' <= c <= '\U{D}') || ('\U{1C}' <= c <= '\U{1E}') ||
    c == '\U{85}' || c == '\U{2028}' || c == '\U{2029}'
  }

  predicate IsDigit(c: char) { '0' <= c <= '9' }
  predicate IsLetter(c: char) { ('a' <= c <= 'z') || ('A' <= c <= 'Z') }
  /** `\w`, restricted to ASCII. */
  predicate IsWordChar(c: char) { IsLetter(c) || IsDigit(c) || c == '_' }

  function LowerChar(c: char): char
  {
    if 'A' <= c <= 'Z' then (c as int + 32) as char else c
  }

  function Lower(s: string): (r: string)
    ensures |r| == |s|
    ensures forall i :: 0 <= i < |s| ==> r[i] == LowerChar(s[i])
  {
    if s == [] then [] else [LowerChar(s[0])] + Lower(s[1..])
  }

  predicate IsUpper(c: char) { 'A' <= c <= 'Z' }

  /** Lowercasing a character never makes or unmakes whitespace. */
  lemma LowerCharKeepsSpace(c: char)
    ensures IsSpace(LowerChar(c)) <==> IsSpace(c)
  {
  }

  /** No character of `s` is an ASCII capital. */
  predicate NoUpper(s: string) { forall c :: c in s ==> !IsUpper(c) }

  /** Lowercasing leaves a string alone exactly when it holds no capital letter. */
  lemma LowerFixedIff(s: string)
    ensures Lower(s) == s <==> NoUpper(s)
  {
    if Lower(s) == s {
      forall c | c in s
        ensures !IsUpper(c)
      {
        var i :| 0 <= i < |s| && s[i] == c;
        assert Lower(s)[i] == LowerChar(c);
      }
    }
    if NoUpper(s) {
      forall i | 0 <= i < |s|
        ensures Lower(s)[i] == s[i]
      {
        assert s[i] in s;
      }
    }
  }

  predicate StartsWith(s: string, p: string) { p <= s }

  predicate EndsWith(s: string, suffix: string)
  {
    |suffix| <= |s| && s[|s| - |suffix|..] == suffix
  }

  predicate OccursAt(s: string, sub: string, i: nat)
  {
    i + |sub| <= |s| && s[i..i + |sub|] == sub
  }

  /** Python's `sub in s`. */
  predicate Contains(s: string, sub: string)
  {
    exists i: nat | i <= |s| :: OccursAt(s, sub, i)
  }

  predicate AllChars(s: string, p: char -> bool)
  {
    forall i :: 0 <= i < |s| ==> p(s[i])
  }

  /** Number of leading characters of `s` satisfying `p` (a greedy regex run). */
  function Run(s: string, p: char -> bool): (n: nat)
    ensures n <= |s|
    ensures AllChars(s[..n], p)
    ensures n < |s| ==> !p(s[n])
  {
    if s == [] || !p(s[0]) then 0
    else
      var k := Run(s[1..], p);
      assert s[..k + 1] == [s[0]] + s[1..][..k];
      k + 1
  }

  /** The first position at which `sub` occurs in `s`. */
  function IndexOf(s: string, sub: string): (r: Option<nat>)
    ensures r.Some? ==> OccursAt(s, sub, r.value)
    ensures r.Some? ==> forall j: nat :: j < r.value ==> !OccursAt(s, sub, j)
    ensures r.None? <==> !Contains(s, sub)
    decreases |s|
  {
    if |s| < |sub| then
      assert forall j: nat | j <= |s| :: !OccursAt(s, sub, j);
      None
    else if s[..|sub|] == sub then Some(0)
    else
      match IndexOf(s[1..], sub)
      case None =>
        forall j: nat | j <= |s| ensures !OccursAt(s, sub, j)
        {
          if j > 0 && OccursAt(s, sub, j) {
            assert s[1..][j - 1..j - 1 + |sub|] == s[j..j + |sub|];
            assert OccursAt(s[1..], sub, j - 1);
          }
        }
        None
      case Some(k) =>
        assert s[1..][k..k + |sub|] == s[k + 1..k + 1 + |sub|];
        forall j: nat | j < k + 1 ensures !OccursAt(s, sub, j)
        {
          if j > 0 && OccursAt(s, sub, j) {
            assert s[1..][j - 1..j - 1 + |sub|] == s[j..j + |sub|];
            assert OccursAt(s[1..], sub, j - 1);
          }
        }
        assert OccursAt(s, sub, k + 1);
        Some(k + 1)
  }

  /** Python's s.split(sep) for a non-empty separator. */
  function Split(s: string, sep: string): (parts: seq<string>)
    requires sep != []
    ensures |parts| >= 1
    ensures |parts| == 1 <==> !Contains(s, sep)
    decreases |s|
  {
    match IndexOf(s, sep)
    case None => [s]
    case Some(i) => [s[..i]] + Split(s[i + |sep|..], sep)
  }

  /** Python's s.replace(pattern, replacement) for a non-empty pattern. */
  function ReplaceAll(s: string, pattern: string, replacement: string): (r: string)
    requires pattern != []
    ensures !Contains(s, pattern) ==> r == s
    decreases |s|
  {
    match IndexOf(s, pattern)
    case None => s
    case Some(i) => s[..i] + replacement + ReplaceAll(s[i + |pattern|..], pattern, replacement)
  }

  function TrimLeft(s: string): (r: string)
    ensures r == s[Run(s, IsSpace)..]
  {
    s[Run(s, IsSpace)..]
  }

  function TrimRight(s: string): (r: string)
    ensures |r| <= |s| && r == s[..|r|]
    ensures r != [] ==> !IsSpace(r[|r| - 1])
    ensures AllChars(s[|r|..], IsSpace)
    decreases |s|
  {
    if s != [] && IsSpace(s[|s| - 1]) then
      var r := TrimRight(s[..|s| - 1]);
      assert s[..|s| - 1][..|r|] == s[..|r|];
      assert s[|r|..] == s[..|s| - 1][|r|..] + [s[|s| - 1]];
      r
    else s
  }

  /** Python's s.strip(). */
  function Strip(s: string): (r: string)
    ensures |r| <= |s|
    ensures r != [] ==> !IsSpace(r[0]) && !IsSpace(r[|r| - 1])
  {
    var l := TrimLeft(s);
    var r := TrimRight(l);
    assert r != [] ==> r[0] == l[0];
    r
  }

  /** A string with no whitespace at either end is its own strip. */
  lemma {:induction false} StripNoop(s: string)
    requires s == [] || (!IsSpace(s[0]) && !IsSpace(s[|s| - 1]))
    ensures Strip(s) == s
  {
    assert Run(s, IsSpace) == 0;
    assert TrimLeft(s) == s;
  }

  lemma {:induction false} StripIdempotent(s: string)
    ensures Strip(Strip(s)) == Strip(s)
  {
    StripNoop(Strip(s));
  }

  lemma OccursInConcat(a: string, sub: string, b: string)
    ensures OccursAt(a + sub + b, sub, |a|)
    ensures Contains(a + sub + b, sub)
  {
    assert (a + sub + b)[|a|..|a| + |sub|] == sub;
    assert OccursAt(a + sub + b, sub, |a|);
  }

  /** A run of `p` characters stops where they stop. */
  lemma {:induction false} RunOfConcat(x: string, y: string, p: char -> bool)
    requires AllChars(x, p)
    requires y == [] || !p(y[0])
    ensures Run(x + y, p) == |x|
    decreases |x|
  {
    if x != [] {
      assert (x + y)[1..] == x[1..] + y;
      RunOfConcat(x[1..], y, p);
    }
  }

  /** A character of `sub` that `s` lacks rules out `sub in s`. */
  lemma ContainsNeedsChar(s: string, sub: string, c: char)
    requires c in sub && c !in s
    ensures !Contains(s, sub)
  {
  }

  /** Splitting on a one-character separator that `a` lacks peels off `a` first. */
  lemma SplitOfJoin(a: string, c: char, rest: string)
    requires c !in a
    ensures Split(a + [c] + rest, [c]) == [a] + Split(rest, [c])
  {
    var s := a + [c] + rest;
    OccursInConcat(a, [c], rest);
    forall j: nat | j < |a| ensures !OccursAt(s, [c], j) {
      assert s[j] == a[j];
      assert s[j..j + 1] == [s[j]];
    }
    assert IndexOf(s, [c]) == Some(|a|);
    assert s[..|a|] == a;
    assert s[|a| + 1..] == rest;
  }

  lemma SplitNoSep(a: string, c: char)
    requires c !in a
    ensures Split(a, [c]) == [a]
  {
    ContainsNeedsChar(a, [c], c);
  }

  /** `[p.strip() for p in parts if p.strip()]`. */
  function StrippedNonEmpty(parts: seq<string>): (r: seq<string>)
    ensures |r| <= |parts|
    ensures forall i :: 0 <= i < |r| ==> r[i] != [] && Strip(r[i]) == r[i]
  {
    if parts == [] then []
    else
      var e := Strip(parts[0]);
      StripIdempotent(parts[0]);
      (if e != [] then [e] else []) + StrippedNonEmpty(parts[1..])
  }

  /** Python's s.isdigit() on ASCII: non-empty and all digits. */
  predicate IsDigits(s: string)
  {
    s != [] && AllChars(s, IsDigit)
  }

  function DigitValue(c: char): nat
    requires IsDigit(c)
  {
    c as int - '0' as int
  }

  /** int(s) for a string of ASCII digits (leading zeros allowed). */
  function DigitsValue(s: string): nat
    requires AllChars(s, IsDigit)
  {
    if s == [] then 0 else 10 * DigitsValue(s[..|s| - 1]) + DigitValue(s[|s| - 1])
  }

  /** str(n) for a natural number. */
  function NatToString(n: nat): (r: string)
    ensures IsDigits(r)
    decreases n
  {
    if n < 10 then ['0' + n as char]
    else NatToString(n / 10) + ['0' + (n % 10) as char]
  }

  /** str(i) for an integer. */
  function IntToString(i: int): string
  {
    if i < 0 then "-" + NatToString(-i) else NatToString(i)
  }

  lemma {:induction false} NatToStringRoundTrip(n: nat)
    ensures DigitsValue(NatToString(n)) == n
    decreases n
  {
    var r := NatToString(n);
    if n >= 10 {
      NatToStringRoundTrip(n / 10);
      assert r[..|r| - 1] == NatToString(n / 10);
    }
  }

  /** str(n) never carries whitespace, so it is its own strip. */
  lemma NatToStringStripped(n: nat)
    ensures Strip(NatToString(n)) == NatToString(n)
  {
    var r := NatToString(n);
    assert IsDigit(r[0]) && IsDigit(r[|r| - 1]);
    StripNoop(r);
  }

  /** An optional sign followed by ASCII digits. */
  predicate IsIntLiteral(t: string)
  {
    IsDigits(t) || (t != [] && (t[0] == '-' || t[0] == '+') && IsDigits(t[1..]))
  }

  /**
   * Python's int() on a string: surrounding whitespace, an optional sign, then
   * ASCII digits. The underscores between digits and the non-ASCII digits that
   * int() also accepts are left out.
   */
  function ParseInt(s: string): (r: Option<int>)
    ensures r.Some? <==> IsIntLiteral(Strip(s))
    ensures r.Some? && IsDigits(Strip(s)) ==> r.value == DigitsValue(Strip(s))
  {
    var t := Strip(s);
    if t == [] then None
    else if (t[0] == '-' || t[0] == '+') && IsDigits(t[1..]) then
      Some(if t[0] == '-' then -(DigitsValue(t[1..]) as int) else DigitsValue(t[1..]))
    else if IsDigits(t) then Some(DigitsValue(t))
    else None
  }

  lemma {:induction false} ParseIntOfNat(n: nat)
    ensures ParseInt(NatToString(n)) == Some(n)
  {
    NatToStringStripped(n);
    NatToStringRoundTrip(n);
    assert NatToString(n)[0] != '-' && NatToString(n)[0] != '+' by {
      assert IsDigit(NatToString(n)[0]);
    }
  }

  /**
   * `re.search` for a pattern anchored by `m`: the first position, from
   * `from` on, whose suffix `m` matches, with what it matched.
   */
  function Search<T>(s: string, m: string -> Option<T>, from: nat): (r: Option<(nat, T)>)
    requires from <= |s|
    ensures r.Some? ==> from <= r.value.0 <= |s| && m(s[r.value.0..]) == Some(r.value.1)
    ensures r.Some? ==> forall j :: from <= j < r.value.0 ==> m(s[j..]).None?
    ensures r.None? <==> forall j :: from <= j <= |s| ==> m(s[j..]).None?
    decreases |s| - from
  {
    if m(s[from..]).Some? then Some((from, m(s[from..]).value))
    else if from == |s| then None
    else Search(s, m, from + 1)
  }

  /** No element occurs twice. */
  predicate Distinct<T(==)>(s: seq<T>)
  {
    forall i, j :: 0 <= i < j < |s| ==> s[i] != s[j]
  }

  /** The elements of `s`. */
  function Elems<T(!new)>(s: seq<T>): (e: set<T>)
    ensures forall x :: x in e <==> x in s
  {
    set x | x in s
  }

  /** A sequence has at most as many distinct elements as entries, and as many exactly when no entry repeats. */
  lemma {:induction false} DistinctCard<T(!new)>(s: seq<T>)
    ensures |Elems(s)| <= |s|
    ensures |Elems(s)| == |s| <==> Distinct(s)
  {
    if s != [] {
      var t := s[1..];
      DistinctCard(t);
      assert Elems(s) == {s[0]} + Elems(t);
      if s[0] in t {
        assert Elems(s) == Elems(t);
        var k :| 0 <= k < |t| && t[k] == s[0];
        assert s[0] == s[k + 1];
      } else {
        assert Distinct(s) <==> Distinct(t) by {
          if Distinct(t) {
            forall i, j | 0 <= i < j < |s| ensures s[i] != s[j] {
              if i > 0 { assert s[i] == t[i - 1] && s[j] == t[j - 1]; } else { assert s[j] in t; }
            }
          }
          if Distinct(s) {
            forall i, j | 0 <= i < j < |t| ensures t[i] != t[j] {
              assert t[i] == s[i + 1] && t[j] == s[j + 1];
            }
          }
        }
      }
    }
  }

  /** A subset is at most as large as its superset, and as large only when they are equal. */
  lemma SubsetCard<T>(small: set<T>, big: set<T>)
    requires small <= big
    ensures |small| <= |big|
    ensures |small| == |big| ==> small == big
  {
    var rest := big - small;
    assert big == small + rest;
    assert small * rest == {};
    assert |small + rest| == |small| + |rest|;
    if |small| == |big| {
      assert rest == {};
    }
  }

  /** A search finds the first position whose suffix matches, with what it matched. */
  lemma SearchFinds<T>(s: string, m: string -> Option<T>, k: nat, v: T)
    requires k <= |s| && m(s[k..]) == Some(v)
    requires forall j :: 0 <= j < k ==> m(s[j..]).None?
    ensures Search(s, m, 0) == Some((k, v))
  {
    var r := Search(s, m, 0);
    assert r.Some?;
    assert r.value.0 >= k;
  }
}
