/** The two regular expressions `normalize_url_candidate` consults (open_brave_tabs.py:148-149
    and 168-171). Each is given twice: as a grammar that reads like the regular expression
    (which split points exist), and as a left-to-right matcher that the normaliser runs. The
    two are proved to accept exactly the same strings. Both expressions are used with
    `re.match`, so they are anchored at the start and accept any remainder after the match. */
module UrlPatterns {
  import opened Text

  /** `candidate.startswith(("mailto:", "magnet:"))`: the colon-only schemes, which need
      no `//`. */
  predicate HasColonOnlyScheme(s: String)
  {
    StartsWith(s, "mailto:") || StartsWith(s, "magnet:")
  }

  // ---------------------------------------------------------------------------------
  // ^[a-zA-Z][a-zA-Z0-9+\.\-]*://
  // ---------------------------------------------------------------------------------

  /** A character of the class `[a-zA-Z0-9+\.\-]`. */
  predicate IsSchemeChar(c: char)
  {
    IsAsciiLetter(c) || IsAsciiDigit(c) || c == '+' || c == '.' || c == '-'
  }

  /** The scheme regular expression matches with its `://` starting at index `k`. */
  predicate SchemeSplit(s: String, k: nat)
  {
    && 1 <= k && k + 3 <= |s|
    && IsAsciiLetter(s[0])
    && (forall j | 1 <= j < k :: IsSchemeChar(s[j]))
    && s[k..k + 3] == "://"
  }

  /** The language of the scheme regular expression, as a grammar. */
  ghost predicate SchemePattern(s: String)
  {
    exists k: nat :: SchemeSplit(s, k)
  }

  /** The end of the run of scheme characters that starts at `i`. */
  function SchemeRunEnd(s: String, i: nat): (e: nat)
    requires i <= |s|
    ensures i <= e <= |s|
    ensures forall j | i <= j < e :: IsSchemeChar(s[j])
    ensures e == |s| || !IsSchemeChar(s[e])
    decreases |s| - i
  {
    if i < |s| && IsSchemeChar(s[i]) then SchemeRunEnd(s, i + 1) else i
  }

  /** The matcher for the scheme regular expression: a letter, the longest run of scheme
      characters, then `://`. Backtracking cannot help because `:` is not a scheme
      character. */
  predicate MatchesScheme(s: String)
  {
    && |s| > 0
    && IsAsciiLetter(s[0])
    && var k := SchemeRunEnd(s, 1);
       k + 3 <= |s| && StartsWith(s[k..], "://")
  }

  lemma MatchesSchemeCorrect(s: String)
    ensures MatchesScheme(s) <==> SchemePattern(s)
  {
    if MatchesScheme(s) {
      var k := SchemeRunEnd(s, 1);
      assert s[k..][..3] == s[k..k + 3];
      assert SchemeSplit(s, k);
    }
    if SchemePattern(s) {
      var k: nat :| SchemeSplit(s, k);
      var e := SchemeRunEnd(s, 1);
      assert s[k] == s[k..k + 3][0] == ':';
      assert !IsSchemeChar(s[k]);
      assert e == k;
    }
  }

  /** When the scheme characters after the first run up to index `c`, the matcher decides
      on the three characters at `c` alone. */
  lemma MatchesSchemeAt(s: String, c: nat)
    requires 1 <= c <= |s|
    requires forall j | 1 <= j < c :: IsSchemeChar(s[j])
    requires c == |s| || !IsSchemeChar(s[c])
    ensures MatchesScheme(s) <==>
              IsAsciiLetter(s[0]) && c + 3 <= |s| && s[c] == ':' && s[c + 1] == '/'
              && s[c + 2] == '/'
  {
    assert SchemeRunEnd(s, 1) == c;
    if c + 3 <= |s| {
      assert s[c..][..3] == [s[c], s[c + 1], s[c + 2]];
    }
  }

  /** A string without `:` never carries a scheme of either kind. */
  lemma NoColonNoScheme(s: String)
    requires forall k | 0 <= k < |s| :: s[k] != ':'
    ensures !MatchesScheme(s) && !HasColonOnlyScheme(s)
  {
    if |s| > 0 {
      var k := SchemeRunEnd(s, 1);
      if k + 3 <= |s| {
        assert s[k..][0] == s[k];
      }
    }
    if |s| >= 7 {
      assert "mailto:"[6] == "magnet:"[6] == ':' != s[6];
    }
  }

  // ---------------------------------------------------------------------------------
  // ^(localhost|127\.0\.0\.1|10\.(?:\d{1,3}\.){2}\d{1,3}|192\.168\.(?:\d{1,3})\.(?:\d{1,3})|
  //   172\.(?:1[6-9]|2\d|3[0-1])\.(?:\d{1,3})\.(?:\d{1,3}))(?::\d+)?(\/|$)
  // ---------------------------------------------------------------------------------

  predicate AllDigits(s: String)
  {
    forall k | 0 <= k < |s| :: IsAsciiDigit(s[k])
  }

  /** `\d{1,3}`: one to three ASCII digits, with no range check. */
  predicate Octet(s: String)
  {
    1 <= |s| <= 3 && AllDigits(s)
  }

  /** `n` octets separated by dots (`n >= 2`), the first octet being `t[..k]`. */
  predicate OctetThen(t: String, k: nat, n: nat)
    decreases n, 0
  {
    && k < |t|
    && Octet(t[..k])
    && t[k] == '.'
    && n >= 2
    && DottedOctets(t[k + 1..], n - 1)
  }

  /** `\d{1,3}(\.\d{1,3}){n-1}` for `n >= 1`. */
  predicate DottedOctets(t: String, n: nat)
    decreases n, 1
  {
    if n <= 1 then n == 1 && Octet(t)
    else exists k | 1 <= k <= 3 :: OctetThen(t, k, n)
  }

  /** `1[6-9]|2\d|3[0-1]`: the second octet of the 172.16.0.0/12 block, always two digits. */
  predicate Is172SecondOctet(t: String)
  {
    && |t| == 2
    && ((t[0] == '1' && '6' <= t[1] <= '9')
        || (t[0] == '2' && IsAsciiDigit(t[1]))
        || (t[0] == '3' && '0' <= t[1] <= '1'))
  }

  lemma SecondOctetDigits(t: String)
    requires Is172SecondOctet(t)
    ensures Octet(t)
  {
  }

  /** The host alternation of the loopback/private-range expression. */
  predicate IsPrivateHost(h: String)
  {
    || h == "localhost"
    || h == "127.0.0.1"
    || (StartsWith(h, "10.") && DottedOctets(h[3..], 3))
    || (StartsWith(h, "192.168.") && DottedOctets(h[8..], 2))
    || (StartsWith(h, "172.") && |h| >= 7 && Is172SecondOctet(h[4..6]) && h[6] == '.'
        && DottedOctets(h[7..], 2))
  }

  /** `(?::\d+)?`: nothing, or a colon followed by at least one digit. */
  predicate IsPortSuffix(p: String)
  {
    p == [] || (|p| >= 2 && p[0] == ':' && AllDigits(p[1..]))
  }

  /** `(\/|$)` at index `j`. The `$` here is end of string; the only other place Python's
      `$` matches, before a final newline, cannot arise because candidates are stripped. */
  predicate PathOrEnd(s: String, j: nat)
  {
    j == |s| || (j < |s| && s[j] == '/')
  }

  /** The expression matches with host `s[..i]` and port suffix `s[i..j]`. */
  predicate LocalSplit(s: String, i: nat, j: nat)
  {
    && i <= j <= |s|
    && IsPrivateHost(s[..i])
    && IsPortSuffix(s[i..j])
    && PathOrEnd(s, j)
  }

  /** The language of the loopback/private-range expression, as a grammar. */
  ghost predicate LocalPattern(s: String)
  {
    exists i: nat, j: nat :: LocalSplit(s, i, j)
  }

  predicate IsHostEnd(c: char)
  {
    c == ':' || c == '/'
  }

  /** The first index at or after `i` holding `:` or `/`, or the length of `s`. */
  function HostEnd(s: String, i: nat): (e: nat)
    requires i <= |s|
    ensures i <= e <= |s|
    ensures forall k | i <= k < e :: !IsHostEnd(s[k])
    ensures e == |s| || IsHostEnd(s[e])
    decreases |s| - i
  {
    if i == |s| || IsHostEnd(s[i]) then i else HostEnd(s, i + 1)
  }

  /** The end of the run of ASCII digits that starts at `i`. */
  function DigitRunEnd(s: String, i: nat): (e: nat)
    requires i <= |s|
    ensures i <= e <= |s|
    ensures AllDigits(s[i..e])
    ensures e == |s| || !IsAsciiDigit(s[e])
    decreases |s| - i
  {
    if i < |s| && IsAsciiDigit(s[i]) then DigitRunEnd(s, i + 1) else i
  }

  /** Where the optional `:\d+` that follows the host at `h` ends. */
  function PortEnd(s: String, h: nat): nat
    requires h <= |s|
  {
    if h < |s| && s[h] == ':' && DigitRunEnd(s, h + 1) > h + 1 then DigitRunEnd(s, h + 1)
    else h
  }

  /** The matcher for the loopback/private-range expression: the host runs up to the first
      `:` or `/`, then comes the longest port, then `/` or the end. */
  predicate MatchesLocal(s: String)
  {
    var h := HostEnd(s, 0);
    IsPrivateHost(s[..h]) && var j := PortEnd(s, h); j <= |s| && PathOrEnd(s, j)
  }

  /** Every character of a dotted-octet string is a digit or a dot. */
  lemma {:induction false} DottedOctetsChars(t: String, n: nat)
    requires DottedOctets(t, n)
    ensures forall k | 0 <= k < |t| :: IsAsciiDigit(t[k]) || t[k] == '.'
    decreases n
  {
    if n > 1 {
      var k :| 1 <= k <= 3 && OctetThen(t, k, n);
      DottedOctetsChars(t[k + 1..], n - 1);
      forall i | 0 <= i < |t| ensures IsAsciiDigit(t[i]) || t[i] == '.' {
        if i < k {
          assert t[i] == t[..k][i];
        } else if i > k {
          assert t[i] == t[k + 1..][i - k - 1];
        }
      }
    }
  }

  /** A host whose first `p` characters are free of `:`/`/` and whose remainder is a
      dotted-octet string contains no `:`/`/`. */
  lemma PrefixedOctetsNoHostEnd(h: String, p: nat, n: nat)
    requires p <= |h| && DottedOctets(h[p..], n)
    requires forall k | 0 <= k < p :: !IsHostEnd(h[k])
    ensures forall k | 0 <= k < |h| :: !IsHostEnd(h[k])
  {
    DottedOctetsChars(h[p..], n);
    forall k | p <= k < |h| ensures !IsHostEnd(h[k]) {
      assert h[k] == h[p..][k - p];
    }
  }

  /** The two literal hosts contain no `:`/`/`. */
  lemma NamedHostNoHostEnd(h: String)
    requires h == "localhost" || h == "127.0.0.1"
    ensures forall k | 0 <= k < |h| :: !IsHostEnd(h[k])
  {
  }

  /** The first `|p|` characters of `h` are those of `p` when `h` starts with `p`. */
  lemma StartsWithChars(h: String, p: String)
    requires StartsWith(h, p)
    ensures forall k | 0 <= k < |p| :: h[k] == p[k]
  {
    assert h[..|p|] == p;
  }

  /** A host behind a literal prefix free of `:`/`/` and followed by dotted octets
      contains no `:`/`/`. */
  lemma OctetHostNoHostEnd(h: String, prefix: String, n: nat)
    requires prefix == "10." || prefix == "192.168." || prefix == "172."
    requires StartsWith(h, prefix) && DottedOctets(h[|prefix|..], n)
    ensures forall k | 0 <= k < |h| :: !IsHostEnd(h[k])
  {
    StartsWithChars(h, prefix);
    PrefixedOctetsNoHostEnd(h, |prefix|, n);
  }

  /** A host in 172.16.0.0/12 is `172.` followed by three dotted octets. */
  lemma Host172Octets(h: String)
    requires StartsWith(h, "172.") && |h| >= 7 && Is172SecondOctet(h[4..6]) && h[6] == '.'
    requires DottedOctets(h[7..], 2)
    ensures DottedOctets(h[4..], 3)
  {
    SecondOctetDigits(h[4..6]);
    assert h[4..][..2] == h[4..6];
    assert h[4..][3..] == h[7..];
    assert OctetThen(h[4..], 2, 3);
  }

  /** No private host contains `:` or `/`, which is what makes the split unique. */
  lemma PrivateHostNoHostEnd(h: String)
    requires IsPrivateHost(h)
    ensures forall k | 0 <= k < |h| :: !IsHostEnd(h[k])
  {
    if h == "localhost" || h == "127.0.0.1" {
      NamedHostNoHostEnd(h);
    } else if StartsWith(h, "10.") && DottedOctets(h[3..], 3) {
      OctetHostNoHostEnd(h, "10.", 3);
    } else if StartsWith(h, "192.168.") && DottedOctets(h[8..], 2) {
      OctetHostNoHostEnd(h, "192.168.", 2);
    } else {
      Host172Octets(h);
      OctetHostNoHostEnd(h, "172.", 3);
    }
  }

  /** In any split the grammar admits, the host ends at the first `:` or `/`. */
  lemma SplitHostEnd(s: String, i: nat, j: nat)
    requires LocalSplit(s, i, j)
    ensures HostEnd(s, 0) == i
  {
    PrivateHostNoHostEnd(s[..i]);
    assert forall k | 0 <= k < i :: s[k] == s[..i][k];
    if i < j {
      assert s[i] == s[i..j][0];
    }
  }

  /** A run of digits from `i` that stops at `j` ends there. */
  lemma {:induction false} DigitRunStops(s: String, i: nat, j: nat)
    requires i <= j <= |s|
    requires forall k | i <= k < j :: IsAsciiDigit(s[k])
    requires j == |s| || !IsAsciiDigit(s[j])
    ensures DigitRunEnd(s, i) == j
    decreases j - i
  {
    if i < j {
      DigitRunStops(s, i + 1, j);
    }
  }

  /** A non-empty port suffix `s[i..j]` is a colon followed by digits. */
  lemma PortDigits(s: String, i: nat, j: nat)
    requires i < j <= |s| && IsPortSuffix(s[i..j])
    ensures s[i] == ':' && i + 2 <= j
    ensures forall k | i + 1 <= k < j :: IsAsciiDigit(s[k])
  {
    assert s[i] == s[i..j][0];
    forall k | i + 1 <= k < j ensures IsAsciiDigit(s[k]) {
      assert s[k] == s[i..j][1..][k - i - 1];
    }
  }

  /** In any split the grammar admits, the port is the longest one. */
  lemma SplitPortEnd(s: String, i: nat, j: nat)
    requires LocalSplit(s, i, j)
    ensures PortEnd(s, i) == j
  {
    if i < j {
      PortDigits(s, i, j);
      DigitRunStops(s, i + 1, j);
    }
  }

  lemma MatchesLocalCorrect(s: String)
    ensures MatchesLocal(s) <==> LocalPattern(s)
  {
    var h := HostEnd(s, 0);
    if MatchesLocal(s) {
      var j := PortEnd(s, h);
      if j > h {
        assert s[h..j][1..] == s[h + 1..j];
      }
      assert LocalSplit(s, h, j);
    }
    if LocalPattern(s) {
      var i: nat, j: nat :| LocalSplit(s, i, j);
      SplitHostEnd(s, i, j);
      SplitPortEnd(s, i, j);
    }
  }

  /** Every private host starts with `l` (localhost) or `1` (the numeric ranges). */
  lemma PrivateHostFirstChar(h: String)
    requires IsPrivateHost(h)
    ensures |h| > 0 && (h[0] == 'l' || h[0] == '1')
  {
  }

  /** Text whose first character is neither `l` nor `1` never matches the
      loopback/private-range expression. */
  lemma NotLocalFirstChar(s: String)
    requires |s| > 0 && s[0] != 'l' && s[0] != '1'
    ensures !MatchesLocal(s)
  {
    var h := HostEnd(s, 0);
    if IsPrivateHost(s[..h]) {
      PrivateHostFirstChar(s[..h]);
    }
  }

  /** A private host followed by a port (or by nothing) matches, and so does anything that
      continues after a `/`. */
  lemma HostPortMatches(host: String, port: String, rest: String)
    requires IsPrivateHost(host) && IsPortSuffix(port)
    requires rest == [] || rest[0] == '/'
    ensures MatchesLocal(host + port + rest)
  {
    var s := host + port + rest;
    assert s[..|host|] == host;
    assert s[|host|..|host| + |port|] == port;
    assert LocalSplit(s, |host|, |host| + |port|);
    MatchesLocalCorrect(s);
  }
}

