/** The cases of tests/test_open_brave_tabs.py, stated as lemmas about the model. Each
    normalisation case is proved in steps (what each matcher says about the literal, then
    what the normaliser returns) so that no proof unfolds a matcher on a whole literal.
    For the same reason a literal is often written as a concatenation: an expected URL as
    its scheme prefix followed by the candidate (`"https://" + "example.com"`), the shape in
    which the normaliser builds it, and a line as its text followed by its line break, the
    shape `StripUnique` frames. The concatenation is the same string; written this way the
    proofs reuse the general lemmas instead of comparing long literals character by
    character. */
module TestCases {
  import opened Wrappers
  import opened Text
  import opened UrlPatterns
  import opened UrlNormalization
  import opened LinksFile
  import opened Seqs
  import opened Launch

  /** The normaliser on stripped text that carries a scheme. */
  lemma NormalizeKeepCase(s: String)
    requires IsStripped(s) && s != [] && HasScheme(s)
    ensures NormalizeUrlCandidate(s) == Some(s)
  {
    NormalizeStripped(s);
  }

  /** The normaliser on stripped text without a scheme that does not match the
      loopback/private-range expression. */
  lemma NormalizeWebCase(s: String)
    requires IsStripped(s) && s != [] && !HasScheme(s) && !MatchesLocal(s)
    ensures NormalizeUrlCandidate(s) == Some("https://" + s)
  {
    NormalizeStripped(s);
  }

  /** The normaliser on stripped text without a scheme that matches the
      loopback/private-range expression. */
  lemma NormalizeLocalCase(s: String)
    requires IsStripped(s) && s != [] && !HasScheme(s) && MatchesLocal(s)
    ensures NormalizeUrlCandidate(s) == Some("http://" + s)
  {
    NormalizeStripped(s);
  }

  /** Text whose scheme characters run up to a `://` at index `c` carries a scheme. */
  lemma SchemeAt(s: String, c: nat)
    requires 1 <= c && c + 3 <= |s| && IsAsciiLetter(s[0])
    requires forall j | 1 <= j < c :: IsSchemeChar(s[j])
    requires s[c] == ':' && s[c + 1] == '/' && s[c + 2] == '/'
    ensures MatchesScheme(s)
  {
    MatchesSchemeAt(s, c);
  }

  // test_normalize_url_candidate_scheme_passthrough

  lemma SchemeUrlHasScheme()
    ensures MatchesScheme("https://example.com/path?a=1")
  {
    SchemeAt("https://example.com/path?a=1", 5);
  }

  /** A URL with a scheme passes through. */
  lemma ExampleSchemePassthrough()
    ensures NormalizeUrlCandidate("https://example.com/path?a=1")
            == Some("https://example.com/path?a=1")
  {
    SchemeUrlHasScheme();
    NormalizeKeepCase("https://example.com/path?a=1");
  }

  // test_normalize_url_candidate_default_schemes

  lemma DomainHasNoScheme()
    ensures !HasScheme("example.com")
  {
    MatchesSchemeAt("example.com", 11);
  }

  lemma DomainIsNotLocal()
    ensures !MatchesLocal("example.com")
  {
    NotLocalFirstChar("example.com");
  }

  lemma DomainDefault()
    ensures WithDefaultScheme("example.com") == "https://" + "example.com"
  {
    DomainHasNoScheme();
    DomainIsNotLocal();
  }

  /** A bare domain gets `https://`. */
  lemma ExampleDomain()
    ensures NormalizeUrlCandidate("example.com") == Some("https://" + "example.com")
  {
    DomainHasNoScheme();
    DomainIsNotLocal();
    NormalizeWebCase("example.com");
  }

  lemma DomainPathHasNoScheme()
    ensures !HasScheme("example.com/path")
  {
    MatchesSchemeAt("example.com/path", 11);
  }

  lemma DomainPathIsNotLocal()
    ensures !MatchesLocal("example.com/path")
  {
    NotLocalFirstChar("example.com/path");
  }

  /** A domain with a path gets `https://`. */
  lemma ExampleDomainPath()
    ensures NormalizeUrlCandidate("example.com/path") == Some("https://" + "example.com/path")
  {
    DomainPathHasNoScheme();
    DomainPathIsNotLocal();
    NormalizeWebCase("example.com/path");
  }

  lemma LocalhostPortHasNoScheme()
    ensures !HasScheme("localhost:8080")
  {
    MatchesSchemeAt("localhost:8080", 9);
  }

  lemma LocalhostPortIsLocal()
    ensures MatchesLocal("localhost:8080")
  {
    assert IsPortSuffix(":8080");
    HostPortMatches("localhost", ":8080", []);
    assert "localhost" + ":8080" + [] == "localhost:8080";
  }

  /** Localhost with a port gets `http://`. */
  lemma ExampleLocalhostPort()
    ensures NormalizeUrlCandidate("localhost:8080") == Some("http://" + "localhost:8080")
  {
    LocalhostPortHasNoScheme();
    LocalhostPortIsLocal();
    NormalizeLocalCase("localhost:8080");
  }

  lemma PrivateAddressHasNoScheme()
    ensures !HasScheme("192.168.1.10")
  {
    MatchesSchemeAt("192.168.1.10", 12);
  }

  lemma PrivateAddressIsPrivateHost()
    ensures IsPrivateHost("192.168.1.10")
  {
    assert "192.168.1.10"[8..] == "1.10";
    assert OctetThen("1.10", 1, 2);
  }

  lemma PrivateAddressIsLocal()
    ensures MatchesLocal("192.168.1.10")
  {
    PrivateAddressIsPrivateHost();
    assert IsPortSuffix([]);
    HostPortMatches("192.168.1.10", [], []);
    assert "192.168.1.10" + [] + [] == "192.168.1.10";
  }

  /** An address in 192.168.0.0/16 gets `http://`. */
  lemma ExamplePrivateAddress()
    ensures NormalizeUrlCandidate("192.168.1.10") == Some("http://" + "192.168.1.10")
  {
    PrivateAddressHasNoScheme();
    PrivateAddressIsLocal();
    NormalizeLocalCase("192.168.1.10");
  }

  /** The empty string gives `None`. */
  lemma ExampleEmpty()
    ensures NormalizeUrlCandidate("") == None
  {
  }

  // test_read_urls_basic: the lines `for raw_line in f` yields for the joined text.

  lemma BazHasScheme()
    ensures MatchesScheme("https://baz.com/x")
  {
    SchemeAt("https://baz.com/x", 5);
  }

  lemma LocalhostOtherPortHasNoScheme()
    ensures !HasScheme("localhost:1234")
  {
    MatchesSchemeAt("localhost:1234", 9);
  }

  lemma LocalhostOtherPortIsLocal()
    ensures MatchesLocal("localhost:1234")
  {
    assert IsPortSuffix(":1234");
    HostPortMatches("localhost", ":1234", []);
    assert "localhost" + ":1234" + [] == "localhost:1234";
  }

  lemma TenNetHasNoScheme()
    ensures !HasScheme("10.0.0.10")
  {
    MatchesSchemeAt("10.0.0.10", 9);
  }

  lemma TenNetIsPrivateHost()
    ensures IsPrivateHost("10.0.0.10")
  {
    assert "10.0.0.10"[3..] == "0.0.10";
    assert "0.0.10"[2..] == "0.10";
    assert OctetThen("0.10", 1, 2);
    assert OctetThen("0.0.10", 1, 3);
  }

  lemma TenNetIsLocal()
    ensures MatchesLocal("10.0.0.10")
  {
    TenNetIsPrivateHost();
    assert IsPortSuffix([]);
    HostPortMatches("10.0.0.10", [], []);
    assert "10.0.0.10" + [] + [] == "10.0.0.10";
  }

  lemma BazDefault()
    ensures WithDefaultScheme("https://baz.com/x") == "https://baz.com/x"
  {
    BazHasScheme();
  }

  lemma LocalhostOtherPortDefault()
    ensures WithDefaultScheme("localhost:1234") == "http://" + "localhost:1234"
  {
    LocalhostOtherPortHasNoScheme();
    LocalhostOtherPortIsLocal();
  }

  lemma TenNetDefault()
    ensures WithDefaultScheme("10.0.0.10") == "http://" + "10.0.0.10"
  {
    TenNetHasNoScheme();
    TenNetIsLocal();
  }

  /** A stripped line read with its line break strips back to itself. */
  lemma StripLineBreak(line: String)
    requires IsStripped(line)
    ensures Strip(line + "\n") == line
  {
    assert Framed(line + "\n", 0, line);
    StripUnique(line + "\n", 0, line);
  }

  /** A line whose stripped text is a candidate yields that text's default-scheme URL. */
  lemma CandidateYields(raw: String, line: String, url: String)
    requires Strip(raw) == line && line != [] && line[0] != '#'
    requires WithDefaultScheme(line) == url
    ensures LineUrls(raw) == [url]
  {
    LineUrlsShape(raw);
  }

  /** A line whose stripped text is blank or a comment yields nothing. */
  lemma SkippedYieldsNothing(raw: String)
    requires Strip(raw) == [] || Strip(raw)[0] == '#'
    ensures LineUrls(raw) == []
  {
    LineUrlsShape(raw);
  }

  lemma BlankLineSkipped()
    ensures LineUrls("\n") == [] && LineUrls("   ") == []
  {
    SkippedYieldsNothing("\n");
    SkippedYieldsNothing("   ");
  }

  lemma CommentLineSkipped()
    ensures LineUrls("# a comment" + "\n") == []
  {
    StripLineBreak("# a comment");
    SkippedYieldsNothing("# a comment" + "\n");
  }

  lemma DomainLineYields()
    ensures LineUrls("example.com" + "\n") == ["https://" + "example.com"]
  {
    StripLineBreak("example.com");
    DomainDefault();
    CandidateYields("example.com" + "\n", "example.com", "https://" + "example.com");
  }

  lemma BazLineYields()
    ensures LineUrls("https://baz.com/x" + "\n") == ["https://baz.com/x"]
  {
    StripLineBreak("https://baz.com/x");
    BazDefault();
    CandidateYields("https://baz.com/x" + "\n", "https://baz.com/x", "https://baz.com/x");
  }

  lemma LocalhostLineYields()
    ensures LineUrls("localhost:1234" + "\n") == ["http://" + "localhost:1234"]
  {
    StripLineBreak("localhost:1234");
    LocalhostOtherPortDefault();
    CandidateYields("localhost:1234" + "\n", "localhost:1234", "http://" + "localhost:1234");
  }

  lemma TenNetLineYields()
    ensures LineUrls("10.0.0.10" + "\n") == ["http://" + "10.0.0.10"]
  {
    StripLineBreak("10.0.0.10");
    TenNetDefault();
    CandidateYields("10.0.0.10" + "\n", "10.0.0.10", "http://" + "10.0.0.10");
  }

  /** The contents `"\n".join([...])` of the test file, line by line. */
  const BasicFile: seq<String> :=
    ["\n", "# a comment" + "\n", "example.com" + "\n", "https://baz.com/x" + "\n",
     "localhost:1234" + "\n", "10.0.0.10" + "\n", "   "]

  const BasicFileUrls: seq<String> :=
    ["https://" + "example.com", "https://baz.com/x", "http://" + "localhost:1234",
     "http://" + "10.0.0.10"]

  /** The loop over a file shaped like the test file: three lines that yield nothing
      around four lines that yield one value each. */
  lemma FlatMapSeven<A, B>(f: A -> seq<B>, l0: A, l1: A, l2: A, l3: A, l4: A, l5: A, l6: A,
                           u2: B, u3: B, u4: B, u5: B)
    requires f(l0) == [] && f(l1) == [] && f(l6) == []
    requires f(l2) == [u2] && f(l3) == [u3] && f(l4) == [u4] && f(l5) == [u5]
    ensures FlatMap(f, [l0, l1, l2, l3, l4, l5, l6]) == [u2, u3, u4, u5]
  {
    var s6 := [l6] + [];
    var s5 := [l5] + s6;
    var s4 := [l4] + s5;
    var s3 := [l3] + s4;
    var s2 := [l2] + s3;
    var s1 := [l1] + s2;
    FlatMapCons(f, l6, []);
    FlatMapCons(f, l5, s6);
    FlatMapCons(f, l4, s5);
    FlatMapCons(f, l3, s4);
    FlatMapCons(f, l2, s3);
    FlatMapCons(f, l1, s2);
    FlatMapCons(f, l0, s1);
    assert [l0] + s1 == [l0, l1, l2, l3, l4, l5, l6];
  }

  lemma BasicFileCollects()
    ensures CollectUrls(BasicFile) == BasicFileUrls
  {
    BlankLineSkipped();
    CommentLineSkipped();
    DomainLineYields();
    BazLineYields();
    LocalhostLineYields();
    TenNetLineYields();
    FlatMapSeven(LineUrls, BasicFile[0], BasicFile[1], BasicFile[2], BasicFile[3], BasicFile[4],
                 BasicFile[5], BasicFile[6], BasicFileUrls[0], BasicFileUrls[1],
                 BasicFileUrls[2], BasicFileUrls[3]);
  }

  /** The whole test file: blank, comment and whitespace lines are dropped and the other
      four lines are normalised in file order. */
  lemma ExampleReadUrlsBasic(path: String)
    ensures ReadUrls(path, Present(BasicFile)) == Success(BasicFileUrls)
  {
    BasicFileCollects();
  }

  /** A path that does not exist gives the "Links file not found" error. */
  lemma ExampleReadUrlsMissingFile()
    ensures ReadUrls("/nonexistent/file/xyz.txt", Missing)
            == Failure(LinksFileNotFound("/nonexistent/file/xyz.txt"))
    ensures StartsWith(ErrorMessage(LinksFileNotFound("/nonexistent/file/xyz.txt")),
                       "Links file not found")
  {
    StartsWithConcat("Links file not found", ": " + "/nonexistent/file/xyz.txt");
    assert "Links file not found" + ": " + "/nonexistent/file/xyz.txt"
           == "Links file not found" + (": " + "/nonexistent/file/xyz.txt");
  }

  /** An empty file gives the "No URLs found" error. */
  lemma ExampleReadUrlsEmptyFile(path: String)
    ensures ReadUrls(path, Present([])) == Failure(NoUrlsFound)
    ensures StartsWith(ErrorMessage(NoUrlsFound), "No URLs found")
  {
    StartsWithConcat("No URLs found", " in the file after filtering empty/comment/invalid lines.");
  }

  // test_open_in_single_window_invocation

  /** One invocation: the command, the incognito and new-window flags, then the URLs. */
  lemma ExampleSingleWindow()
    ensures OpenInSingleWindow(["brave"], ["https://a", "https://b"], true)
            == [["brave", "--incognito", "--new-window", "https://a", "https://b"]]
  {
    assert ["brave"] + [IncognitoFlag] + [NewWindowFlag] + ["https://a", "https://b"]
           == ["brave", "--incognito", "--new-window", "https://a", "https://b"];
  }

  // test_open_in_existing_window_invocation

  /** One invocation per URL; only the first carries the incognito flag. */
  method ExampleExistingWindow() returns (calls: seq<Argv>)
    ensures calls == [["brave", "--incognito", "--new-tab", "https://a"],
                      ["brave", "--new-tab", "https://b"]]
  {
    calls := OpenInExistingWindow(["brave"], ["https://a", "https://b"], true);
    assert calls[0] == ["brave", "--incognito", "--new-tab", "https://a"];
    assert calls[1] == ["brave", "--new-tab", "https://b"];
    assert |calls| == 2;
  }
}
