/** `read_urls` (open_brave_tabs.py:128-145). Opening and decoding the file are outside the
    model: the file arrives as `Missing` (what `os.path.exists` reports as absent) or as the
    sequence of lines `for raw_line in f` would produce. */
module LinksFile {
  import opened Wrappers
  import opened Text
  import opened UrlPatterns
  import opened UrlNormalization
  import opened Seqs

  datatype LinksInput = Missing | Present(lines: seq<String>)

  /** The two `SystemExit`s `read_urls` raises. */
  datatype LoadError = LinksFileNotFound(path: String) | NoUrlsFound

  /** The text each `SystemExit` carries (lines 130 and 144). Each message is written as
      its fixed prefix followed by the rest, so that a statement about the prefix (as the
      tests make) follows from the general `StartsWithConcat` lemma. */
  function ErrorMessage(e: LoadError): String
  {
    match e
    case LinksFileNotFound(path) => "Links file not found" + ": " + path
    case NoUrlsFound =>
      "No URLs found" + " in the file after filtering empty/comment/invalid lines."
  }

  /** A line that reaches the normaliser: non-blank after stripping and not a comment. */
  predicate IsCandidateLine(raw: String)
  {
    var line := Strip(raw);
    line != [] && line[0] != '#'
  }

  /** The URLs one raw line adds to the list (the loop body, lines 135-142): at most one,
      exactly one for a candidate line, and it is what normalising the raw line gives. */
  function LineUrls(raw: String): (r: seq<String>)
    ensures |r| <= 1
    ensures |r| == 1 <==> IsCandidateLine(raw)
    ensures r != [] ==> NormalizeUrlCandidate(raw) == Some(r[0])
  {
    var line := Strip(raw);
    if line == [] || StartsWith(line, "#") then []
    else
      StripStripped(line);
      match NormalizeUrlCandidate(line)
      // Lines that do not look like URLs would be skipped here; the normaliser never
      // returns None for a non-blank line, so this branch is never taken.
      case None => []
      case Some(url) => [url]
  }

  /** The URL list the loop of lines 134-142 builds, in file order. */
  function CollectUrls(lines: seq<String>): seq<String>
  {
    FlatMap(LineUrls, lines)
  }

  /** The candidate lines, stripped, in file order: the reference the loop is measured
      against. */
  function CandidateLines(lines: seq<String>): seq<String>
  {
    Map(Strip, Filter(IsCandidateLine, lines))
  }

  /** What a candidate line becomes: its stripped text with the default scheme. */
  function DefaultLine(raw: String): String
  {
    WithDefaultScheme(Strip(raw))
  }

  /** A line yields its stripped text with the default scheme applied when it is a
      candidate, and nothing otherwise. */
  lemma LineUrlsShape(raw: String)
    ensures LineUrls(raw) == (if IsCandidateLine(raw) then [WithDefaultScheme(Strip(raw))] else [])
  {
    if IsCandidateLine(raw) {
      NormalizeStripped(Strip(raw));
    }
  }

  /** The loop, as a filter of the candidate lines followed by stripping and the default
      scheme. */
  lemma CollectUrlsAsFilter(lines: seq<String>)
    ensures CollectUrls(lines) == Map(DefaultLine, Filter(IsCandidateLine, lines))
  {
    forall raw ensures LineUrls(raw) == (if IsCandidateLine(raw) then [DefaultLine(raw)] else []) {
      LineUrlsShape(raw);
    }
    FlatMapOfSingletons(LineUrls, IsCandidateLine, DefaultLine, lines);
  }

  /** Every candidate line contributes exactly one URL, in order: the URL list is the
      normaliser applied to the candidate lines, and the normaliser's `None` never occurs. */
  lemma CollectUrlsNormalizesCandidates(lines: seq<String>)
    ensures |CollectUrls(lines)| == |CandidateLines(lines)|
    ensures forall k | 0 <= k < |CandidateLines(lines)| ::
              NormalizeUrlCandidate(CandidateLines(lines)[k]) == Some(CollectUrls(lines)[k])
  {
    CollectUrlsAsFilter(lines);
    var kept := Filter(IsCandidateLine, lines);
    forall k | 0 <= k < |kept|
      ensures NormalizeUrlCandidate(Strip(kept[k])) == Some(DefaultLine(kept[k]))
    {
      NormalizeStripped(Strip(kept[k]));
    }
  }

  /** Every collected URL is stripped and carries a scheme. */
  lemma CollectUrlsWellFormed(lines: seq<String>)
    ensures forall k | 0 <= k < |CollectUrls(lines)| ::
              HasScheme(CollectUrls(lines)[k]) && IsStripped(CollectUrls(lines)[k])
  {
    CollectUrlsAsFilter(lines);
  }

  /** Reading a file in two parts gives the URLs of the first part followed by those of
      the second. */
  lemma CollectUrlsAppend(a: seq<String>, b: seq<String>)
    ensures CollectUrls(a + b) == CollectUrls(a) + CollectUrls(b)
  {
    FlatMapAppend(LineUrls, a, b);
  }

  /** The list is empty exactly when no line is a candidate line. */
  lemma CollectUrlsEmpty(lines: seq<String>)
    ensures CollectUrls(lines) == [] <==>
              forall i | 0 <= i < |lines| :: !IsCandidateLine(lines[i])
  {
    FlatMapEmpty(LineUrls, lines);
  }

  /** `read_urls(path)`: the missing-file error, the empty-list error exactly when no line
      is a candidate, and otherwise one URL per candidate line, in file order, each what the
      normaliser makes of that line: stripped and carrying a scheme. */
  function ReadUrls(path: String, input: LinksInput): (r: Result<seq<String>, LoadError>)
    ensures input.Missing? ==> r == Failure(LinksFileNotFound(path))
    ensures input.Present? ==>
              (r.Failure? <==> forall i | 0 <= i < |input.lines| :: !IsCandidateLine(input.lines[i]))
    ensures input.Present? && r.Failure? ==> r.error == NoUrlsFound
    ensures r.Success? ==> |r.value| > 0
    ensures r.Success? ==> |r.value| == |CandidateLines(input.lines)|
    ensures r.Success? ==> forall k | 0 <= k < |r.value| ::
              NormalizeUrlCandidate(CandidateLines(input.lines)[k]) == Some(r.value[k])
    ensures r.Success? ==> forall k | 0 <= k < |r.value| :: HasScheme(r.value[k]) && IsStripped(r.value[k])
  {
    if input.Missing? then Failure(LinksFileNotFound(path))
    else
      var urls := CollectUrls(input.lines);
      CollectUrlsEmpty(input.lines);
      CollectUrlsWellFormed(input.lines);
      CollectUrlsNormalizesCandidates(input.lines);
      if urls == [] then Failure(NoUrlsFound) else Success(urls)
  }
}
