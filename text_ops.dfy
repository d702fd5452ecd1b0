/** The Python string operations the converter and the code animator rely on:
    `in` on strings, `str.find`/`str.rfind` for one character, the last piece of
    `str.split(sep)`, `str.strip()`, `str.lower()` and `str(n)` for a natural
    number.  Each is given a definition and a contract that says what it means. */
module TextOps {

  /** `sub` occurs in `s` starting at index `i`. */
  predicate OccursAt(s: string, sub: string, i: int)
  {
    0 <= i <= |s| - |sub| && s[i..i + |sub|] == sub
  }

  /** `sub in s` (true for an empty `sub`). */
  predicate Contains(s: string, sub: string)
  {
    exists i | 0 <= i <= |s| - |sub| :: OccursAt(s, sub, i)
  }

  /** A keyword whose first character is missing from `s` does not occur in it. */
  lemma NotContainsFirstChar(s: string, sub: string)
    requires |sub| > 0 && sub[0] !in s
    ensures !Contains(s, sub)
  {
    forall i | 0 <= i <= |s| - |sub| ensures !OccursAt(s, sub, i) {
      assert s[i..i + |sub|][0] == s[i] && s[i] in s;
    }
  }

  /** The first `c` at or after index `k`, or -1. */
  function FindFrom(s: string, c: char, k: nat): (r: int)
    requires k <= |s|
    ensures r == -1 || (k <= r < |s| && s[r] == c)
    ensures forall i :: k <= i < |s| && (r == -1 || i < r) ==> s[i] != c
    decreases |s| - k
  {
    if k == |s| then -1
    else if s[k] == c then k
    else FindFrom(s, c, k + 1)
  }

  /** `s.find(c)`: the index of the first `c`, or -1 when `s` has none. */
  function Find(s: string, c: char): (r: int)
    ensures -1 <= r < |s|
    ensures r == -1 <==> c !in s
    ensures 0 <= r ==> s[r] == c && c !in s[..r]
  {
    var r := FindFrom(s, c, 0);
    assert r >= 0 ==> c !in s[..r] by {
      if r >= 0 {
        assert forall j :: 0 <= j < r ==> s[..r][j] == s[j];
      }
    }
    r
  }

  /** The last `c` before index `n`, or -1. */
  function RFindBelow(s: string, c: char, n: nat): (r: int)
    requires n <= |s|
    ensures r == -1 || (0 <= r < n && s[r] == c)
    ensures forall i :: r < i < n ==> s[i] != c
  {
    if n == 0 then -1
    else if s[n - 1] == c then n - 1
    else RFindBelow(s, c, n - 1)
  }

  /** `s.rfind(c)`: the index of the last `c`, or -1 when `s` has none. */
  function RFind(s: string, c: char): (r: int)
    ensures -1 <= r < |s|
    ensures r == -1 <==> c !in s
    ensures 0 <= r ==> s[r] == c && c !in s[r + 1..]
  {
    var r := RFindBelow(s, c, |s|);
    assert r >= 0 ==> c !in s[r + 1..] by {
      if r >= 0 {
        assert forall i :: r + 1 <= i < |s| ==> s[r + 1..][i - r - 1] == s[i];
      }
    }
    r
  }

  /** The first occurrence of a non-empty `sub` in `s` at or after `k`, or -1. */
  function FindSubFrom(s: string, sub: string, k: nat): (r: int)
    requires |sub| > 0
    ensures r == -1 || (k <= r && OccursAt(s, sub, r))
    ensures forall i :: k <= i && (r == -1 || i < r) ==> !OccursAt(s, sub, i)
    decreases |s| - k
  {
    if k + |sub| > |s| then -1
    else if s[k..k + |sub|] == sub then k
    else FindSubFrom(s, sub, k + 1)
  }

  /** Where the last piece of `s.split(sep)` starts, scanning from `k`: just
      after the last occurrence of `sep` found by cutting left to right, or `k`
      when there is none. */
  function LastPieceStart(s: string, sep: string, k: nat): (a: nat)
    requires |sep| > 0 && k <= |s|
    ensures k <= a <= |s|
    ensures forall j :: a <= j ==> !OccursAt(s, sep, j)
    ensures a == k || (k + |sep| <= a && OccursAt(s, sep, a - |sep|))
    decreases |s| - k
  {
    var i := FindSubFrom(s, sep, k);
    if i == -1 then k else LastPieceStart(s, sep, i + |sep|)
  }

  /** `s.split(sep)[-1]`: Python splits left to right at non-overlapping
      occurrences of `sep`; the last piece is what follows the last cut, and
      the whole of `s` when `sep` does not occur. */
  function SplitLast(s: string, sep: string): (r: string)
    requires |sep| > 0
    ensures |r| <= |s| && r == s[|s| - |r|..]
    ensures !Contains(r, sep)
    ensures !Contains(s, sep) ==> r == s
    ensures Contains(s, sep) ==> OccursAt(s, sep, |s| - |r| - |sep|)
  {
    var a := LastPieceStart(s, sep, 0);
    LastPieceFacts(s, sep, a);
    s[a..]
  }

  /** What `LastPieceStart` promises, read on the piece itself. */
  lemma LastPieceFacts(s: string, sep: string, a: nat)
    requires |sep| > 0 && a <= |s|
    requires forall j :: a <= j ==> !OccursAt(s, sep, j)
    requires a == 0 || (|sep| <= a && OccursAt(s, sep, a - |sep|))
    ensures !Contains(s[a..], sep)
    ensures Contains(s, sep) <==> a > 0
  {
    var r := s[a..];
    forall j | 0 <= j <= |r| - |sep| ensures !OccursAt(r, sep, j) {
      assert r[j..j + |sep|] == s[a + j..a + j + |sep|];
      assert !OccursAt(s, sep, a + j);
    }
    if a > 0 {
      assert OccursAt(s, sep, a - |sep|);
    }
    if Contains(s, sep) {
      var j :| 0 <= j <= |s| - |sep| && OccursAt(s, sep, j);
      assert j < a;
    }
  }

  /** Text placed right after one separator, with no separator of its own, is
      the last piece. */
  lemma SplitLastAfterSeparator(sep: string, t: string)
    requires |sep| > 0 && !Contains(t, sep)
    ensures SplitLast(sep + t, sep) == t
  {
    var s := sep + t;
    assert s[0..|sep|] == sep;
    assert FindSubFrom(s, sep, 0) == 0;
    forall j | |sep| <= j ensures !OccursAt(s, sep, j) {
      if j <= |s| - |sep| {
        assert s[j..j + |sep|] == t[j - |sep|..j - |sep| + |sep|];
        assert !OccursAt(t, sep, j - |sep|);
      }
    }
    assert LastPieceStart(s, sep, |sep|) == |sep|;
    assert s[|sep|..] == t;
  }

  /** Python's `str.isspace()` for one character: the characters `str.strip()`
      removes when called without arguments. */
  predicate IsSpace(c: char)
  {
    c == ' ' || c == '\t' || c == '\n' || c == '\r' || c == '\U{000B}' || c == '\U{000C}'
    || ('\U{001C}' <= c <= '\U{001F}') || c == '\U{0085}' || c == '\U{00A0}' || c == '\U{1680}'
    || ('\U{2000}' <= c <= '\U{200A}') || c == '\U{2028}' || c == '\U{2029}' || c == '\U{202F}'
    || c == '\U{205F}' || c == '\U{3000}'
  }

  predicate AllSpace(s: string)
  {
    forall i :: 0 <= i < |s| ==> IsSpace(s[i])
  }

  /** The end of the run of whitespace that starts at `k`. */
  function SpaceEnd(s: string, k: nat): (e: nat)
    requires k <= |s|
    ensures k <= e <= |s|
    ensures forall i :: k <= i < e ==> IsSpace(s[i])
    ensures e < |s| ==> !IsSpace(s[e])
    decreases |s| - k
  {
    if k < |s| && IsSpace(s[k]) then SpaceEnd(s, k + 1) else k
  }

  /** The start of the run of whitespace that ends at `n`, going no lower than
      `lo`. */
  function SpaceStart(s: string, lo: nat, n: nat): (b: nat)
    requires lo <= n <= |s|
    ensures lo <= b <= n
    ensures forall i :: b <= i < n ==> IsSpace(s[i])
    ensures lo < b ==> !IsSpace(s[b - 1])
  {
    if lo < n && IsSpace(s[n - 1]) then SpaceStart(s, lo, n - 1) else n
  }

  /** `s.strip()`: the slice of `s` left once the whitespace at both ends is
      removed; what was removed is all whitespace, what is kept starts and ends
      with a non-space character. */
  function Strip(s: string): (r: string)
    ensures var a := SpaceEnd(s, 0);
            && a + |r| <= |s| && r == s[a..a + |r|]
            && AllSpace(s[..a]) && AllSpace(s[a + |r|..])
    ensures |r| > 0 ==> !IsSpace(r[0]) && !IsSpace(r[|r| - 1])
  {
    var a := SpaceEnd(s, 0);
    var b := SpaceStart(s, a, |s|);
    s[a..b]
  }

  /** A text that starts and ends with a non-space character is its own
      strip. */
  lemma StripUnchanged(s: string)
    requires |s| > 0 && !IsSpace(s[0]) && !IsSpace(s[|s| - 1])
    ensures Strip(s) == s
  {
  }

  /** `c.lower()` for the ASCII letters; every other character is kept. */
  function LowerChar(c: char): char
  {
    if 'A' <= c <= 'Z' then (c as int + 32) as char else c
  }

  /** `s.lower()`, character by character. */
  function ToLower(s: string): (r: string)
    ensures |r| == |s|
    ensures forall i :: 0 <= i < |s| ==> r[i] == LowerChar(s[i])
  {
    seq(|s|, i requires 0 <= i < |s| => LowerChar(s[i]))
  }

  /** A keyword without ASCII letters (such as a Chinese word) occurs in the
      lower-cased text exactly when it occurs in the text itself. */
  lemma ContainsLowerNoLetters(s: string, k: string)
    requires forall j :: 0 <= j < |k| ==> !('A' <= k[j] <= 'Z') && !('a' <= k[j] <= 'z')
    ensures Contains(ToLower(s), k) <==> Contains(s, k)
  {
    var l := ToLower(s);
    if Contains(l, k) {
      var i :| OccursAt(l, k, i);
      assert OccursAt(l, k, i);
      assert 0 <= i <= |s| - |k| && l[i..i + |k|] == k;
      forall j | 0 <= j < |k| ensures s[i + j] == k[j] {
        assert l[i + j] == l[i..i + |k|][j];
      }
      assert s[i..i + |k|] == k;
      assert OccursAt(s, k, i);
    }
    if Contains(s, k) {
      var i :| OccursAt(s, k, i);
      assert OccursAt(s, k, i);
      assert 0 <= i <= |s| - |k| && s[i..i + |k|] == k;
      forall j | 0 <= j < |k| ensures l[i + j] == k[j] {
        assert s[i + j] == s[i..i + |k|][j];
      }
      assert l[i..i + |k|] == k;
      assert OccursAt(l, k, i);
    }
  }

  /** Any spelling `t` of a keyword `k` that lower-cases to `k` (such as "GAME"
      or "Game" for "game") makes `k` occur in the lower-cased text. */
  lemma ContainsLowered(s: string, t: string, k: string)
    requires |t| == |k| && forall j :: 0 <= j < |t| ==> LowerChar(t[j]) == k[j]
    requires Contains(s, t)
    ensures Contains(ToLower(s), k)
  {
    var l := ToLower(s);
    var i :| OccursAt(s, t, i);
    assert OccursAt(s, t, i);
    assert 0 <= i <= |s| - |t| && s[i..i + |t|] == t;
    forall j | 0 <= j < |k| ensures l[i + j] == k[j] {
      assert s[i + j] == s[i..i + |t|][j];
    }
    assert l[i..i + |k|] == k;
    assert OccursAt(l, k, i);
  }

  /** The decimal digit for `d`. */
  function DigitChar(d: nat): char
    requires d < 10
  {
    ('0' as int + d) as char
  }

  /** `str(n)` for a natural number: its decimal digits, no leading zero. */
  function NatToString(n: nat): (r: string)
    ensures |r| > 0
    ensures forall j :: 0 <= j < |r| ==> '0' <= r[j] <= '9'
    ensures |r| > 1 ==> r[0] != '0'
  {
    if n < 10 then [DigitChar(n)] else NatToString(n / 10) + [DigitChar(n % 10)]
  }

  /** The value of a string of decimal digits. */
  function ParseNat(s: string): nat
    requires forall j :: 0 <= j < |s| ==> '0' <= s[j] <= '9'
  {
    if |s| == 0 then 0
    else ParseNat(s[..|s| - 1]) * 10 + (s[|s| - 1] as int - '0' as int)
  }

  /** Reading the digits back gives the number that was written. */
  lemma {:induction false} ParseNatToString(n: nat)
    ensures ParseNat(NatToString(n)) == n
  {
    if n >= 10 {
      var s := NatToString(n);
      assert s[..|s| - 1] == NatToString(n / 10);
      ParseNatToString(n / 10);
    }
  }

  /** Distinct numbers have distinct decimal strings. */
  lemma NatToStringInjective(m: nat, n: nat)
    requires NatToString(m) == NatToString(n)
    ensures m == n
  {
    ParseNatToString(m);
    ParseNatToString(n);
  }
}
