/** Characters and the `str.strip()` operation the program applies to every line. */
module Text {

  type String = seq<char>

  /** The characters Python's `str.isspace()` accepts, which is the set `str.strip()`
      removes when called without arguments. */
  predicate IsSpace(c: char)
  {
    || ('\U{9}' <= c <= '\U{D}')
    || ('\U{1C}' <= c <= '\U{20}')
    || c == '\U{85}' || c == '\U{A0}' || c == '\U{1680}'
    || ('\U{2000}' <= c <= '\U{200A}')
    || c == '\U{2028}' || c == '\U{2029}' || c == '\U{202F}' || c == '\U{205F}'
    || c == '\U{3000}'
  }

  predicate IsAsciiDigit(c: char)
  {
    '0' <= c <= '9'
  }

  predicate IsAsciiLetter(c: char)
  {
    ('a' <= c <= 'z') || ('A' <= c <= 'Z')
  }

  /** Every character of `s` is whitespace (this includes the empty string). */
  predicate IsBlank(s: String)
  {
    forall k | 0 <= k < |s| :: IsSpace(s[k])
  }

  /** `s` neither starts nor ends with whitespace: it is its own `strip()`. */
  predicate IsStripped(s: String)
  {
    s == [] || (!IsSpace(s[0]) && !IsSpace(s[|s| - 1]))
  }

  /** Python's `s.startswith(p)`, one character at a time. */
  function StartsWith(s: String, p: String): (r: bool)
    ensures r <==> p <= s
    decreases |p|
  {
    if p == [] then true
    else if s == [] || s[0] != p[0] then false
    else
      assert (p[1..] <= s[1..]) <==> (p <= s) by {
        if p[1..] <= s[1..] {
          assert p == [p[0]] + p[1..];
          assert s[..|p|] == [s[0]] + s[1..][..|p| - 1];
        }
      }
      StartsWith(s[1..], p[1..])
  }

  /** A string starts with any of its prefixes. */
  lemma StartsWithConcat(p: String, q: String)
    ensures StartsWith(p + q, p)
  {
    assert (p + q)[..|p|] == p;
  }

  /** `s` is `m` surrounded, at offset `lo`, by whitespace on both sides. */
  predicate Framed(s: String, lo: nat, m: String)
  {
    && lo + |m| <= |s|
    && s[lo..lo + |m|] == m
    && (forall k | 0 <= k < lo :: IsSpace(s[k]))
    && (forall k | lo + |m| <= k < |s| :: IsSpace(s[k]))
  }

  /** The index of the first non-space at or after `i`, or `|s|`: where `lstrip()` starts. */
  function SkipSpaces(s: String, i: nat): (e: nat)
    requires i <= |s|
    ensures i <= e <= |s|
    ensures forall k | i <= k < e :: IsSpace(s[k])
    ensures e == |s| || !IsSpace(s[e])
    decreases |s| - i
  {
    if i < |s| && IsSpace(s[i]) then SkipSpaces(s, i + 1) else i
  }

  /** The index just after the last non-space in `s[lo..j]`, or `lo`: where `rstrip()`
      ends. */
  function SkipSpacesBack(s: String, lo: nat, j: nat): (e: nat)
    requires lo <= j <= |s|
    ensures lo <= e <= j
    ensures forall k | e <= k < j :: IsSpace(s[k])
    ensures e == lo || !IsSpace(s[e - 1])
    decreases j - lo
  {
    if lo < j && IsSpace(s[j - 1]) then SkipSpacesBack(s, lo, j - 1) else j
  }

  /** Python's `s.strip()`: the result is `s` with its whitespace border removed; it is
      empty exactly when `s` is blank, and otherwise starts and ends with a non-space. */
  function Strip(s: String): (r: String)
    ensures Framed(s, SkipSpaces(s, 0), r)
    ensures IsStripped(r)
    ensures r == [] <==> IsBlank(s)
  {
    var a := SkipSpaces(s, 0);
    var b := SkipSpacesBack(s, a, |s|);
    BlankFrame(s, a, s[a..b]);
    s[a..b]
  }

  /** A string framed around an empty core is blank, and conversely. */
  lemma BlankFrame(s: String, lo: nat, m: String)
    requires Framed(s, lo, m)
    ensures m == [] ==> IsBlank(s)
    ensures IsBlank(s) ==> IsBlank(m)
  {
    if IsBlank(s) {
      forall k | 0 <= k < |m| ensures IsSpace(m[k]) {
        assert m[k] == s[lo + k];
      }
    }
  }

  /** The stripped text is determined by the frame: whatever whitespace surrounds a
      stripped core, `strip()` returns exactly that core. */
  lemma StripUnique(s: String, lo: nat, m: String)
    requires Framed(s, lo, m) && IsStripped(m)
    ensures Strip(s) == m
  {
    if m != [] {
      assert s[lo] == m[0];
      var a := SkipSpaces(s, 0);
      assert a == lo;
      assert s[lo + |m| - 1] == m[|m| - 1];
      var b := SkipSpacesBack(s, a, |s|);
      assert b == lo + |m|;
    } else {
      BlankFrame(s, lo, m);
    }
  }

  /** Stripping is idempotent, and a stripped string is left unchanged. */
  lemma StripStripped(s: String)
    requires IsStripped(s)
    ensures Strip(s) == s
  {
    assert s[0..|s|] == s;
    StripUnique(s, 0, s);
  }
}
