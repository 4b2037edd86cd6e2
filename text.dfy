/** The handful of Python `str` operations the core relies on, written out:
    `lower()`, `strip()`, `startswith`, the substring test `p in s`,
    `find`/`rfind` of one character, `str()` of an integer and `join`. */
module Text {
  import opened Wrappers

  /** `c.isspace()` in CPython: the characters `str.strip()` removes when it
      is called without arguments (tab to carriage return, the four
      information separators, space, NEL, NBSP and the Unicode space
      separators and line/paragraph separators). */
  predicate IsSpace(c: char) {
    var n := c as int;
    (9 <= n <= 13) || (28 <= n <= 32) || n == 0x85 || n == 0xA0 || n == 0x1680
    || (0x2000 <= n <= 0x200A) || n == 0x2028 || n == 0x2029 || n == 0x202F
    || n == 0x205F || n == 0x3000
  }

  /** Lower-casing of one character, ASCII letters only. */
  function LowerChar(c: char): char {
    if 'A' <= c <= 'Z' then (c as int + 32) as char else c
  }

  /** `s.lower()` restricted to ASCII letters. */
  function Lower(s: string): (r: string)
    ensures |r| == |s|
    ensures forall i :: 0 <= i < |s| ==> r[i] == LowerChar(s[i])
  {
    seq(|s|, i requires 0 <= i < |s| => LowerChar(s[i]))
  }

  /** `s.startswith(p)`. */
  predicate StartsWith(s: string, p: string) {
    |p| <= |s| && s[..|p|] == p
  }

  /** The index of the first character at or after `i` that is not white
      space, or `|s|` when there is none: the forward scan of `strip`. */
  function SkipSpace(s: string, i: nat): (k: nat)
    requires i <= |s|
    ensures i <= k <= |s|
    ensures forall j :: i <= j < k ==> IsSpace(s[j])
    ensures k == |s| || !IsSpace(s[k])
    decreases |s| - i
  {
    if i < |s| && IsSpace(s[i]) then SkipSpace(s, i + 1) else i
  }

  /** The index just after the last character of `s[lo..j]` that is not
      white space, or `lo` when there is none: the backward scan of `strip`. */
  function TrimSpace(s: string, lo: nat, j: nat): (n: nat)
    requires lo <= j <= |s|
    ensures lo <= n <= j
    ensures forall m :: n <= m < j ==> IsSpace(s[m])
    ensures n == lo || !IsSpace(s[n - 1])
    decreases j
  {
    if lo < j && IsSpace(s[j - 1]) then TrimSpace(s, lo, j - 1) else j
  }

  /** `s.strip()`: scan forward over leading white space, then backward over
      trailing white space, and keep what lies between. */
  function Strip(s: string): string {
    var k := SkipSpace(s, 0);
    s[k..TrimSpace(s, k, |s|)]
  }

  /** `Strip(s)` is `s[k..n]`, with only white space before `k` and from `n`
      on, and a non-empty result begins and ends with a character that is
      not white space. */
  lemma StripBounds(s: string) returns (k: nat, n: nat)
    ensures k <= n <= |s| && Strip(s) == s[k..n]
    ensures forall j :: 0 <= j < k ==> IsSpace(s[j])
    ensures forall j :: n <= j < |s| ==> IsSpace(s[j])
    ensures k < n ==> !IsSpace(s[k]) && !IsSpace(s[n - 1])
  {
    k := SkipSpace(s, 0);
    n := TrimSpace(s, k, |s|);
  }

  /** Conversely, cutting white space from both ends down to characters that
      are not white space is what `strip` does. */
  lemma StripUnique(s: string, k: nat, n: nat)
    requires k < n <= |s| && !IsSpace(s[k]) && !IsSpace(s[n - 1])
    requires forall j :: 0 <= j < k ==> IsSpace(s[j])
    requires forall j :: n <= j < |s| ==> IsSpace(s[j])
    ensures Strip(s) == s[k..n]
  {
    var k', n' := StripBounds(s);
    assert k' <= k;
    assert n <= n';
  }

  /** What `strip` returns neither starts nor ends with white space. */
  lemma StripTrimsEnds(s: string)
    ensures Strip(s) == [] || (!IsSpace(Strip(s)[0]) && !IsSpace(Strip(s)[|Strip(s)| - 1]))
  {
    var k, n := StripBounds(s);
  }

  /** A string that neither starts nor ends with white space is its own strip. */
  lemma StripTrimmed(s: string)
    requires s == [] || (!IsSpace(s[0]) && !IsSpace(s[|s| - 1]))
    ensures Strip(s) == s
  {
    if s != [] {
      StripUnique(s, 0, |s|);
    }
  }

  /** `strip()` is idempotent. */
  lemma StripIdempotent(s: string)
    ensures Strip(Strip(s)) == Strip(s)
  {
    StripTrimsEnds(s);
    StripTrimmed(Strip(s));
  }

  /** Stripping only removes white space, so a character that is not white
      space occurs in `s` exactly when it occurs in `Strip(s)`. */
  lemma StripKeepsNonSpace(s: string, c: char)
    requires !IsSpace(c)
    ensures c in s <==> c in Strip(s)
  {
    var k, n := StripBounds(s);
    if c in s {
      var i :| 0 <= i < |s| && s[i] == c;
      assert Strip(s)[i - k] == c;
    }
    if c in Strip(s) {
      var j :| 0 <= j < |Strip(s)| && Strip(s)[j] == c;
      assert s[k + j] == c;
    }
  }

  /** Two characters that are not white space, at `i` and `last`, both
      survive `strip`: it cuts at most up to `i` from the front and ends
      after `last`. */
  lemma StripBetween(text: string, i: nat, last: nat) returns (k: nat, n: nat)
    requires i <= last < |text| && !IsSpace(text[i]) && !IsSpace(text[last])
    ensures k <= i && last < n <= |text| && Strip(text) == text[k..n]
  {
    k, n := StripBounds(text);
  }

  /** A slice of `prefix + middle + suffix` that covers all of `middle`. */
  lemma SliceAround(prefix: string, middle: string, suffix: string, k: nat, n: nat)
    requires k <= |prefix| && |prefix| + |middle| <= n <= |prefix| + |middle| + |suffix|
    ensures (prefix + middle + suffix)[k..n] == prefix[k..] + middle + suffix[..n - |prefix| - |middle|]
  {
    var text := prefix + middle + suffix;
    var r := prefix[k..] + middle + suffix[..n - |prefix| - |middle|];
    forall j | 0 <= j < n - k ensures text[k..n][j] == r[j] {
      if k + j < |prefix| {
        assert r[j] == prefix[k + j];
      } else if k + j < |prefix| + |middle| {
        assert r[j] == middle[k + j - |prefix|];
      } else {
        assert r[j] == suffix[k + j - |prefix| - |middle|];
      }
    }
  }

  /** `Lower` of a literal, checked character by character. */
  lemma LowerOfLiteral(s: string, t: string)
    requires |s| == |t| && forall i :: 0 <= i < |s| ==> LowerChar(s[i]) == t[i]
    ensures Lower(s) == t
  {
  }

  /** Stripping removes white-space padding around a word that neither
      starts nor ends with white space. */
  lemma StripPadded(before: string, word: string, after: string)
    requires forall i :: 0 <= i < |before| ==> IsSpace(before[i])
    requires forall i :: 0 <= i < |after| ==> IsSpace(after[i])
    requires word != [] && !IsSpace(word[0]) && !IsSpace(word[|word| - 1])
    ensures Strip(before + word + after) == word
  {
    var s := before + word + after;
    var k, n := |before|, |before| + |word|;
    assert s[k] == word[0] && s[n - 1] == word[|word| - 1];
    assert forall j :: 0 <= j < k ==> s[j] == before[j];
    assert forall j :: n <= j < |s| ==> s[j] == after[j - n];
    StripUnique(s, k, n);
    assert s[k..n] == word;
  }

  /** `p` occurs in `s` starting at index `i`. */
  predicate OccursAt(s: string, p: string, i: int) {
    0 <= i && i + |p| <= |s| && s[i..i + |p|] == p
  }

  /** Python's substring test `p in s`. */
  function Contains(s: string, p: string): bool
    decreases |s|
  {
    if |p| > |s| then false
    else if s[..|p|] == p then true
    else Contains(s[1..], p)
  }

  /** `Contains` is the substring test: it holds exactly when `p` occurs in `s`
      at some index. */
  lemma {:induction false} ContainsIff(s: string, p: string)
    ensures Contains(s, p) <==> exists i :: OccursAt(s, p, i)
    decreases |s|
  {
    if |p| > |s| {
    } else if s[..|p|] == p {
      assert OccursAt(s, p, 0);
    } else {
      ContainsIff(s[1..], p);
      if Contains(s[1..], p) {
        var i :| OccursAt(s[1..], p, i);
        assert s[i + 1..i + 1 + |p|] == s[1..][i..i + |p|];
        assert OccursAt(s, p, i + 1);
      }
      if i :| OccursAt(s, p, i) {
        assert i != 0;
        assert s[1..][i - 1..i - 1 + |p|] == s[i..i + |p|];
        assert OccursAt(s[1..], p, i - 1);
      }
    }
  }

  /** `s.find(c)` for one character: the first index of `c`, or -1. */
  function Find(s: string, c: char): (r: int)
    ensures -1 <= r < |s|
    ensures r == -1 <==> c !in s
    ensures 0 <= r ==> s[r] == c && c !in s[..r]
    decreases |s|
  {
    if |s| == 0 then -1
    else if s[0] == c then 0
    else
      var k := Find(s[1..], c);
      assert s == [s[0]] + s[1..];
      if k == -1 then -1
      else
        assert s[..k + 1] == [s[0]] + s[1..][..k];
        k + 1
  }

  /** An index holding the first `c` is what `Find` returns. */
  lemma FindFirst(s: string, c: char, j: int)
    requires 0 <= j < |s| && s[j] == c && c !in s[..j]
    ensures Find(s, c) == j
  {
    var r := Find(s, c);
    assert s[j] in s;
    assert forall i :: 0 <= i < j ==> s[..j][i] == s[i];
    assert forall i :: 0 <= i < r ==> s[..r][i] == s[i];
  }

  /** The last index below `j` holding `c`, or -1: the backward scan of `rfind`. */
  function RFindBefore(s: string, c: char, j: nat): (r: int)
    requires j <= |s|
    ensures -1 <= r < j
    ensures r == -1 <==> forall m :: 0 <= m < j ==> s[m] != c
    ensures 0 <= r ==> s[r] == c && forall m :: r < m < j ==> s[m] != c
    decreases j
  {
    if j == 0 then -1
    else if s[j - 1] == c then j - 1
    else RFindBefore(s, c, j - 1)
  }

  /** `s.rfind(c)` for one character: the last index of `c`, or -1. */
  function RFind(s: string, c: char): (r: int)
    ensures -1 <= r < |s|
    ensures r == -1 <==> c !in s
    ensures 0 <= r ==> s[r] == c && c !in s[r + 1..]
  {
    var r := RFindBefore(s, c, |s|);
    assert forall m :: r < m < |s| ==> s[r + 1..][m - r - 1] == s[m];
    r
  }

  /** An index holding the last `c` is what `RFind` returns. */
  lemma RFindLast(s: string, c: char, j: int)
    requires 0 <= j < |s| && s[j] == c && c !in s[j + 1..]
    ensures RFind(s, c) == j
  {
    var r := RFind(s, c);
    assert s[j] in s;
    assert forall i :: j < i < |s| ==> s[j + 1..][i - j - 1] == s[i];
    assert forall i :: r < i < |s| ==> s[r + 1..][i - r - 1] == s[i];
  }

  /** The decimal digit character for `d`. */
  function DigitChar(d: nat): char
    requires d < 10
  {
    ('0' as int + d) as char
  }

  predicate IsDigit(c: char) {
    '0' <= c <= '9'
  }

  /** `str(n)` for a natural number: its decimal digits, most significant first. */
  function NatToString(n: nat): (r: string)
    ensures |r| >= 1
    ensures forall i :: 0 <= i < |r| ==> IsDigit(r[i])
    decreases n
  {
    if n < 10 then [DigitChar(n)] else NatToString(n / 10) + [DigitChar(n % 10)]
  }

  /** `str(i)` for any integer. */
  function IntToString(i: int): string {
    if i < 0 then "-" + NatToString(-i) else NatToString(i)
  }

  /** The value of a string of decimal digits, `int(s)`. */
  function ParseDigits(s: string): nat
    requires forall i :: 0 <= i < |s| ==> IsDigit(s[i])
    decreases |s|
  {
    if s == [] then 0
    else
      assert IsDigit(s[|s| - 1]);
      ParseDigits(s[..|s| - 1]) * 10 + (s[|s| - 1] as int - '0' as int)
  }

  /** Reading back what `NatToString` writes gives the number again, so two
      different counts are never printed alike. */
  lemma {:induction false} NatToStringRoundTrip(n: nat)
    ensures ParseDigits(NatToString(n)) == n
    decreases n
  {
    var s := NatToString(n);
    if n >= 10 {
      NatToStringRoundTrip(n / 10);
      assert s[..|s| - 1] == NatToString(n / 10);
    }
  }

  /** An optional string in an f-string: `None` prints as "None". */
  function Show(o: Option<string>): string {
    match o
    case Some(s) => s
    case None => "None"
  }

  /** `sep.join(lines)`. */
  function Join(lines: seq<string>, sep: string): string
    decreases |lines|
  {
    if |lines| == 0 then ""
    else if |lines| == 1 then lines[0]
    else lines[0] + sep + Join(lines[1..], sep)
  }
}
