/**
 * URL normalisation done before a request is sent: String.prototype.trim,
 * then the case-insensitive scheme test /^https?:\/\//i, then `https://`
 * prepended when that test fails.
 */
module Url {

  /** The characters String.prototype.trim removes: the ECMAScript WhiteSpace
      characters (tab, vertical tab, form feed, no-break space, byte order
      mark and the Zs space separators) and the LineTerminator characters. */
  predicate IsJsWhitespace(c: char) {
    var n := c as int;
    n == 0x09 || n == 0x0A || n == 0x0B || n == 0x0C || n == 0x0D || n == 0x20
    || n == 0xA0 || n == 0x1680 || (0x2000 <= n <= 0x200A)
    || n == 0x2028 || n == 0x2029 || n == 0x202F || n == 0x205F
    || n == 0x3000 || n == 0xFEFF
  }

  /** Every character of `s` from index `lo` up to (not including) `hi` is
      whitespace. */
  predicate WhitespaceBetween(s: string, lo: int, hi: int) {
    forall k :: lo <= k < hi && 0 <= k < |s| ==> IsJsWhitespace(s[k])
  }

  /** Neither the first nor the last character is whitespace. */
  predicate NoOuterWhitespace(s: string) {
    s == [] || (!IsJsWhitespace(s[0]) && !IsJsWhitespace(s[|s| - 1]))
  }

  /** Where the text of `s` starts when scanning forward from `i`: the first
      index at or after `i` that holds no whitespace, or |s|. */
  function SkipLeading(s: string, i: nat): (r: nat)
    requires i <= |s|
    ensures i <= r <= |s|
    ensures WhitespaceBetween(s, i, r)
    ensures r < |s| ==> !IsJsWhitespace(s[r])
    decreases |s| - i
  {
    if i < |s| && IsJsWhitespace(s[i]) then SkipLeading(s, i + 1) else i
  }

  /** Where the text of `s` ends when scanning backward from `j` down to `lo`:
      the smallest index at or below `j` after which only whitespace precedes
      `j`, stopping at `lo`. */
  function SkipTrailing(s: string, lo: nat, j: nat): (r: nat)
    requires lo <= j <= |s|
    ensures lo <= r <= j
    ensures WhitespaceBetween(s, r, j)
    ensures r > lo ==> !IsJsWhitespace(s[r - 1])
    decreases j
  {
    if j > lo && IsJsWhitespace(s[j - 1]) then SkipTrailing(s, lo, j - 1) else j
  }

  /** String.prototype.trim: no whitespace is left at either end. */
  function Trim(s: string): (r: string)
    ensures NoOuterWhitespace(r)
  {
    var i := SkipLeading(s, 0);
    s[i..SkipTrailing(s, i, |s|)]
  }

  /** Trim only cuts whitespace: its result is the slice of `s` from `i` to `j`,
      and only whitespace lies before `i` and from `j` on. */
  lemma TrimCutsOnlyWhitespace(s: string) returns (i: nat, j: nat)
    ensures i <= j <= |s| && Trim(s) == s[i..j]
    ensures WhitespaceBetween(s, 0, i) && WhitespaceBetween(s, j, |s|)
  {
    i := SkipLeading(s, 0);
    j := SkipTrailing(s, i, |s|);
  }

  /** A string without whitespace at its ends is its own trim. */
  lemma TrimOfTrimmed(s: string)
    requires NoOuterWhitespace(s)
    ensures Trim(s) == s
  {
    if s != [] {
      assert SkipLeading(s, 0) == 0;
      assert SkipTrailing(s, 0, |s|) == |s|;
    }
    assert s[0..|s|] == s;
  }

  /** `c` matches `lower` under the regular expression `i` flag: ASCII letters
      match either case, any other character only itself. */
  predicate MatchesIgnoringCase(c: char, lower: char) {
    c == lower || ('a' <= lower <= 'z' && c as int == lower as int - 32)
  }

  predicate StartsWithIgnoringCase(s: string, prefix: string) {
    |prefix| <= |s| && forall k :: 0 <= k < |prefix| ==> MatchesIgnoringCase(s[k], prefix[k])
  }

  /** The test /^https?:\/\//i. */
  predicate HasHttpScheme(s: string) {
    StartsWithIgnoringCase(s, "http://") || StartsWithIgnoringCase(s, "https://")
  }

  const DefaultScheme: string := "https://"

  /** The URL that is actually requested for the text typed into the URL field. */
  function NormalizeUrl(raw: string): (r: string)
    ensures HasHttpScheme(r)
    ensures HasHttpScheme(Trim(raw)) ==> r == Trim(raw)
    ensures !HasHttpScheme(Trim(raw)) ==> r == DefaultScheme + Trim(raw)
  {
    var t := Trim(raw);
    if HasHttpScheme(t) then t else DefaultScheme + t
  }

  /** Normalising an already normalised URL changes nothing. */
  lemma NormalizeUrlIdempotent(raw: string)
    ensures NormalizeUrl(NormalizeUrl(raw)) == NormalizeUrl(raw)
  {
    var t := Trim(raw);
    var r := NormalizeUrl(raw);
    if !HasHttpScheme(t) {
      assert r == DefaultScheme + t;
      assert r[0] == 'h';
      assert r[|r| - 1] == if t == [] then '/' else t[|t| - 1];
    }
    assert NoOuterWhitespace(r);
    TrimOfTrimmed(r);
  }

  /** A bare host gets the default scheme. */
  lemma NormalizeBareHost()
    ensures NormalizeUrl("example.com") == DefaultScheme + "example.com"
  {
    var u := "example.com";
    assert NoOuterWhitespace(u);
    TrimOfTrimmed(u);
    assert !HasHttpScheme(u) by {
      assert !MatchesIgnoringCase(u[0], 'h');
    }
  }

  /** The scheme test ignores case, and a URL that passes it is kept as typed. */
  lemma NormalizeUpperCaseScheme()
    ensures NormalizeUrl("HTTPS://X") == "HTTPS://X"
  {
    var u := "HTTPS://X";
    assert NoOuterWhitespace(u);
    TrimOfTrimmed(u);
    assert StartsWithIgnoringCase(u, "https://") by {
      assert MatchesIgnoringCase(u[0], 'h') && MatchesIgnoringCase(u[1], 't');
      assert MatchesIgnoringCase(u[2], 't') && MatchesIgnoringCase(u[3], 'p');
      assert MatchesIgnoringCase(u[4], 's') && MatchesIgnoringCase(u[5], ':');
      assert MatchesIgnoringCase(u[6], '/') && MatchesIgnoringCase(u[7], '/');
    }
  }
}
