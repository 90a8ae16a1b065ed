/**
 * The Python `str` operations the price services rely on: `lower`, `upper`,
 * `strip`, `startswith`, `endswith`, `in` and `replace`.
 *
 * Case mapping is modelled for ASCII letters; `strip` removes the characters
 * Python's `str.isspace` accepts up to U+00FF.
 */
module PyStrings {

  function LowerChar(c: char): char {
    if 'A' <= c <= 'Z' then (c as int + 32) as char else c
  }

  function UpperChar(c: char): char {
    if 'a' <= c <= 'z' then (c as int - 32) as char else c
  }

  /**
   * `s.lower()`: no upper-case letter is left, every other character is
   * kept, and each upper-case letter becomes the letter it is the capital of.
   */
  function Lower(s: string): (r: string)
    ensures |r| == |s|
    ensures forall i :: 0 <= i < |r| ==> !('A' <= r[i] <= 'Z')
    ensures forall i :: 0 <= i < |s| && !('A' <= s[i] <= 'Z') ==> r[i] == s[i]
    ensures forall i :: 0 <= i < |s| && 'A' <= s[i] <= 'Z' ==> 'a' <= r[i] <= 'z' && UpperChar(r[i]) == s[i]
  {
    seq(|s|, i requires 0 <= i < |s| => LowerChar(s[i]))
  }

  /**
   * `s.upper()`: no lower-case letter is left, every other character is
   * kept, and each lower-case letter becomes its capital.
   */
  function Upper(s: string): (r: string)
    ensures |r| == |s|
    ensures forall i :: 0 <= i < |r| ==> !('a' <= r[i] <= 'z')
    ensures forall i :: 0 <= i < |s| && !('a' <= s[i] <= 'z') ==> r[i] == s[i]
    ensures forall i :: 0 <= i < |s| && 'a' <= s[i] <= 'z' ==> 'A' <= r[i] <= 'Z' && LowerChar(r[i]) == s[i]
  {
    seq(|s|, i requires 0 <= i < |s| => UpperChar(s[i]))
  }

  /** Python's `str.isspace` on one character, for code points up to U+00FF. */
  predicate IsSpace(c: char) {
    var n := c as int;
    n == 0x20 || 0x09 <= n <= 0x0D || 0x1C <= n <= 0x1F || n == 0x85 || n == 0xA0
  }

  function StripLeft(s: string): (r: string)
    ensures |r| <= |s|
  {
    if |s| > 0 && IsSpace(s[0]) then StripLeft(s[1..]) else s
  }

  function StripRight(s: string): (r: string)
    ensures |r| <= |s|
  {
    if |s| > 0 && IsSpace(s[|s| - 1]) then StripRight(s[..|s| - 1]) else s
  }

  /** `s.strip()` */
  function Strip(s: string): (r: string) {
    StripRight(StripLeft(s))
  }

  /** `s.startswith(p)` */
  predicate StartsWith(s: string, p: string) {
    |p| <= |s| && s[..|p|] == p
  }

  /** `s.endswith(p)` */
  predicate EndsWith(s: string, p: string) {
    |p| <= |s| && s[|s| - |p|..] == p
  }

  /** `p in s` for strings: `p` occurs in `s` as a contiguous substring. */
  predicate IsSubstring(p: string, s: string)
    decreases |s|
  {
    |p| <= |s| && (s[..|p|] == p || IsSubstring(p, s[1..]))
  }

  /**
   * `s.replace(pat, rep)`: every occurrence of `pat`, found left to right
   * without overlapping, is replaced by `rep`.
   */
  function ReplaceAll(s: string, pat: string, rep: string): string
    requires |pat| > 0
    decreases |s|
  {
    if |s| < |pat| then s
    else if s[..|pat|] == pat then rep + ReplaceAll(s[|pat|..], pat, rep)
    else [s[0]] + ReplaceAll(s[1..], pat, rep)
  }

  /** `pat` has no border: no proper prefix of it is also a suffix of it. */
  predicate Unbordered(pat: string) {
    forall k | 0 < k < |pat| :: pat[..k] != pat[|pat| - k..]
  }

  // ---------------------------------------------------------------------
  // Case mapping and strip
  // ---------------------------------------------------------------------

  lemma LowerUpper(s: string)
    ensures Lower(Upper(s)) == Lower(s)
  {
    forall i | 0 <= i < |s| ensures Lower(Upper(s))[i] == Lower(s)[i] {
      var c := s[i];
      if 'a' <= c <= 'z' {
        assert UpperChar(c) as int == c as int - 32;
      }
    }
  }

  lemma LowerLower(s: string)
    ensures Lower(Lower(s)) == Lower(s)
  {
  }

  lemma UpperUpper(s: string)
    ensures Upper(Upper(s)) == Upper(s)
  {
  }

  lemma LowerOfEmpty(s: string)
    ensures Lower(s) == "" <==> s == ""
  {
  }

  lemma UpperKeepsSpace(c: char)
    ensures IsSpace(UpperChar(c)) == IsSpace(c)
  {
  }

  lemma {:induction false} StripLeftUpper(s: string)
    ensures StripLeft(Upper(s)) == Upper(StripLeft(s))
    decreases |s|
  {
    if |s| > 0 {
      UpperKeepsSpace(s[0]);
      if IsSpace(s[0]) {
        assert Upper(s)[1..] == Upper(s[1..]);
        StripLeftUpper(s[1..]);
      }
    }
  }

  lemma {:induction false} StripRightUpper(s: string)
    ensures StripRight(Upper(s)) == Upper(StripRight(s))
    decreases |s|
  {
    if |s| > 0 {
      UpperKeepsSpace(s[|s| - 1]);
      if IsSpace(s[|s| - 1]) {
        assert Upper(s)[..|s| - 1] == Upper(s[..|s| - 1]);
        StripRightUpper(s[..|s| - 1]);
      }
    }
  }

  /** Upper-casing commutes with `strip`, as neither changes the other's characters. */
  lemma StripUpper(s: string)
    ensures Strip(Upper(s)) == Upper(Strip(s))
  {
    StripLeftUpper(s);
    StripRightUpper(StripLeft(s));
  }

  // ---------------------------------------------------------------------
  // replace
  // ---------------------------------------------------------------------

  /**
   * When `s` ends with an unbordered pattern, the last occurrence is found by
   * the left-to-right scan, so the replaced string ends with the replacement.
   */
  lemma {:induction false} ReplaceAllKeepsSuffix(s: string, pat: string, rep: string)
    requires |pat| > 0 && Unbordered(pat)
    requires EndsWith(s, pat)
    ensures EndsWith(ReplaceAll(s, pat, rep), rep)
    decreases |s|
  {
    var n := |pat|;
    if |s| == n {
      assert s[..n] == pat;
      assert s[n..] == [];
      assert ReplaceAll(s, pat, rep) == rep + ReplaceAll([], pat, rep);
      assert rep + [] == rep;
    } else if s[..n] == pat {
      if |s| < 2 * n {
        // the two occurrences of `pat` would overlap, giving it a border
        OverlapIsBorder(s, pat, |s| - n);
        assert false;
      } else {
        var rest := s[n..];
        assert rest[|rest| - n..] == s[|s| - n..];
        ReplaceAllKeepsSuffix(rest, pat, rep);
        assert ReplaceAll(s, pat, rep) == rep + ReplaceAll(rest, pat, rep);
        EndsWithAppended(rep, ReplaceAll(rest, pat, rep), rep);
      }
    } else {
      var rest := s[1..];
      assert rest[|rest| - n..] == s[|s| - n..];
      ReplaceAllKeepsSuffix(rest, pat, rep);
      assert ReplaceAll(s, pat, rep) == [s[0]] + ReplaceAll(rest, pat, rep);
      EndsWithAppended([s[0]], ReplaceAll(rest, pat, rep), rep);
    }
  }

  lemma EndsWithAppended(a: string, b: string, p: string)
    requires EndsWith(b, p)
    ensures EndsWith(a + b, p)
  {
    assert (a + b)[|a + b| - |p|..] == b[|b| - |p|..];
  }

  lemma OverlapIsBorder(s: string, pat: string, d: nat)
    requires 0 < d < |pat| && |s| == |pat| + d
    requires s[..|pat|] == pat && s[|s| - |pat|..] == pat
    ensures pat[..|pat| - d] == pat[d..]
  {
    var n := |pat|;
    forall j | 0 <= j < n - d ensures pat[..n - d][j] == pat[d..][j] {
      assert pat[j] == s[|s| - n..][j] == s[j];
      assert pat[d + j] == s[..n][d + j] == s[d + j];
    }
  }

  lemma UsdtUnbordered()
    ensures Unbordered("USDT")
  {
    var p := "USDT";
    forall k | 0 < k < |p| ensures p[..k] != p[|p| - k..] {
      assert p[..k][0] == 'U';
      assert p[|p| - k..][0] != 'U';
    }
  }
}
