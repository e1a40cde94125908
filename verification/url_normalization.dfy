/** `normalize_url_candidate` (open_brave_tabs.py:152-176): strip the text, give up on blank
    text, keep text that already names a scheme, and otherwise put `http://` in front of
    loopback/private-range hosts and `https://` in front of everything else. */
module UrlNormalization {
  import opened Wrappers
  import opened Text
  import opened UrlPatterns

  /** The runtime check of line 164: a colon-only scheme or the scheme regular expression. */
  predicate HasScheme(s: String)
  {
    HasColonOnlyScheme(s) || MatchesScheme(s)
  }

  /** The same check stated with the grammar of the scheme regular expression. */
  ghost predicate NamesScheme(s: String)
  {
    HasColonOnlyScheme(s) || SchemePattern(s)
  }

  /** `"http://" + rest` and `"https://" + rest` carry a scheme and start with a letter,
      whatever `rest` is, and are stripped when `rest` is. */
  lemma WebPrefixHasScheme(prefix: String, rest: String)
    requires prefix == "http://" || prefix == "https://"
    ensures MatchesScheme(prefix + rest) && IsAsciiLetter((prefix + rest)[0])
    ensures IsStripped(rest) ==> IsStripped(prefix + rest)
  {
    var k := |prefix| - 3;
    WebPrefixShape(prefix);
    SchemeSplitExtends(prefix, rest, k);
    MatchesSchemeCorrect(prefix + rest);
    StrippedConcat(prefix, rest);
  }

  /** Each web prefix on its own is a letter-led, stripped scheme match. */
  lemma WebPrefixShape(prefix: String)
    requires prefix == "http://" || prefix == "https://"
    ensures SchemeSplit(prefix, |prefix| - 3) && IsStripped(prefix)
  {
    if prefix == "http://" {
      assert prefix[4..7] == "://";
    } else {
      assert prefix[5..8] == "://";
    }
  }

  /** A scheme match does not depend on what follows it. */
  lemma SchemeSplitExtends(p: String, rest: String, k: nat)
    requires SchemeSplit(p, k)
    ensures SchemeSplit(p + rest, k)
  {
    assert (p + rest)[k..k + 3] == p[k..k + 3];
  }

  /** A non-empty stripped string followed by a stripped string is stripped. */
  lemma StrippedConcat(p: String, rest: String)
    requires p != [] && IsStripped(p)
    ensures IsStripped(rest) ==> IsStripped(p + rest)
  {
    if rest != [] {
      assert (p + rest)[|p + rest| - 1] == rest[|rest| - 1];
    }
  }

  /** A colon-only scheme starts with the letter `m`. */
  lemma ColonOnlySchemeLetter(s: String)
    requires HasColonOnlyScheme(s)
    ensures |s| > 0 && s[0] == 'm'
  {
  }

  /** A stripped, non-empty candidate after the blank test: lines 164-176. Every result
      carries a scheme and starts with an ASCII letter (so it can never be mistaken for a
      command-line flag), and stripped input gives stripped output. */
  function WithDefaultScheme(candidate: String): (r: String)
    ensures HasScheme(r) && |r| > 0 && IsAsciiLetter(r[0])
    ensures r == candidate || r == "http://" + candidate || r == "https://" + candidate
    ensures IsStripped(candidate) ==> IsStripped(r)
  {
    if HasColonOnlyScheme(candidate) || MatchesScheme(candidate) then
      if HasColonOnlyScheme(candidate) then ColonOnlySchemeLetter(candidate); candidate
      else candidate
    else if MatchesLocal(candidate) then
      WebPrefixHasScheme("http://", candidate);
      "http://" + candidate
    else
      WebPrefixHasScheme("https://", candidate);
      "https://" + candidate
  }

  /** `normalize_url_candidate(text)`: `None` exactly for blank text; otherwise a stripped
      URL that carries a scheme and is the stripped text, possibly behind `http://` or
      `https://`. */
  function NormalizeUrlCandidate(text: String): (r: Option<String>)
    ensures r.None? <==> IsBlank(text)
    ensures r.Some? ==> HasScheme(r.value) && IsStripped(r.value) && IsAsciiLetter(r.value[0])
    ensures r.Some? ==> (|| r.value == Strip(text)
                         || r.value == "http://" + Strip(text)
                         || r.value == "https://" + Strip(text))
  {
    var candidate := Strip(text);
    if candidate == [] then None else Some(WithDefaultScheme(candidate))
  }

  /** Text that already names a scheme comes back stripped and otherwise unchanged. */
  lemma NormalizeKeepsScheme(text: String)
    requires NamesScheme(Strip(text))
    ensures NormalizeUrlCandidate(text) == Some(Strip(text))
  {
    MatchesSchemeCorrect(Strip(text));
  }

  /** Non-blank text without a scheme gets `http://` exactly when it matches the
      loopback/private-range expression, and `https://` otherwise. */
  lemma NormalizeDefaultScheme(text: String)
    requires !IsBlank(text) && !NamesScheme(Strip(text))
    ensures LocalPattern(Strip(text)) ==>
              NormalizeUrlCandidate(text) == Some("http://" + Strip(text))
    ensures !LocalPattern(Strip(text)) ==>
              NormalizeUrlCandidate(text) == Some("https://" + Strip(text))
  {
    MatchesSchemeCorrect(Strip(text));
    MatchesLocalCorrect(Strip(text));
  }

  /** Normalising a normalised URL returns it unchanged. */
  lemma NormalizeIdempotent(text: String)
    ensures NormalizeUrlCandidate(text).Some? ==>
              NormalizeUrlCandidate(NormalizeUrlCandidate(text).value)
              == NormalizeUrlCandidate(text)
  {
    var r := NormalizeUrlCandidate(text);
    if r.Some? {
      StripStripped(r.value);
    }
  }

  /** A stripped, non-blank candidate is normalised by the scheme defaults alone. */
  lemma NormalizeStripped(s: String)
    requires IsStripped(s) && s != []
    ensures NormalizeUrlCandidate(s) == Some(WithDefaultScheme(s))
  {
    StripStripped(s);
  }
}
