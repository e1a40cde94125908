# open-brave-tabs in Dafny

`open_brave_tabs.py` reads a text file of links and opens them in the Brave browser. This
project models the parts of it that decide *what* is opened. Nothing is spawned: each launch
strategy returns the argument vectors it would spawn, and the links file arrives as its
lines. The parts are:

- **URL normalisation** (`normalize_url_candidate`). Strip the text. Blank text gives
  `None`. Text that already names a scheme is kept. Otherwise loopback and private-range
  hosts get `http://` and everything else gets `https://`.
- **The two regular expressions it consults.** Each is written twice: as a grammar with
  existential split points, and as the left-to-right matcher the normaliser runs. Lemmas
  show the two accept the same strings.
- **Reading the links file** (`read_urls`). Blank and `#` lines are skipped, every other
  line is normalised, and the two `SystemExit` errors are modelled as a `Result`.
- **The two launch strategies.** `open_in_single_window` builds one argument vector with
  every URL. `open_in_existing_window` builds one vector per URL, and only the first may
  ask for incognito. Their partner is `Launch.ParseInvocation`, the decoder of the
  positional layout both strategies build (the command prefix, optional `--incognito`,
  then `--new-window` with any number of URLs or `--new-tab` with one URL).

Modules:

- `Text`: Python's `str.isspace` set, `strip()`, `startswith`.
- `UrlPatterns`: the two expressions.
- `UrlNormalization`: the normaliser.
- `Seqs`: generic loop combinators.
- `LinksFile`: `read_urls`.
- `Launch`: the launch strategies.
- `TestCases`: the cases of `tests/test_open_brave_tabs.py`, stated as lemmas.

## Model

| member | source | states |
|---|---|---|
| Text.Strip | open_brave_tabs.py:135 | `strip()` returns the input minus a whitespace border on each side (the Python `isspace` set); the result is empty exactly when the input is blank, and otherwise starts and ends with a non-space |
| Text.StripUnique | open_brave_tabs.py:135 | any stripped core surrounded by whitespace is exactly what `strip()` returns, so stripping is determined by the frame |
| Text.StripStripped | open_brave_tabs.py:159 | stripping already-stripped text changes nothing (the normaliser's second `strip()` of a line that `read_urls` already stripped is a no-op) |
| Text.StartsWith | open_brave_tabs.py:136 | the character-by-character `startswith` agrees with the sequence-prefix relation |
| UrlPatterns.MatchesScheme | open_brave_tabs.py:148 | the `re.match` of the scheme expression; characterised by `MatchesSchemeCorrect` and `MatchesSchemeAt` |
| UrlPatterns.HasColonOnlyScheme | open_brave_tabs.py:149 | the `re.match` of the colon-only schemes, text starting with `mailto:` or `magnet:`; together with `MatchesScheme` it decides the pass-through case of `NormalizeKeepsScheme` |
| UrlPatterns.MatchesSchemeCorrect | open_brave_tabs.py:148 | the scheme matcher (letter, longest run of scheme characters, `://`) accepts exactly the strings the grammar of `^[a-zA-Z][a-zA-Z0-9+\.\-]*://` accepts |
| UrlPatterns.MatchesSchemeAt | open_brave_tabs.py:148 | once the scheme-character run is known to stop at index `c`, the scheme expression matches iff the first character is a letter and `://` sits at `c` |
| UrlPatterns.NoColonNoScheme | open_brave_tabs.py:148-149 | text with no `:` has neither a colon-only scheme nor a `://` scheme |
| UrlPatterns.MatchesLocalCorrect | open_brave_tabs.py:168-172 | the loopback/private-range matcher (host up to the first `:` or `/`, longest `:digits` port, then `/` or end) accepts exactly the strings the grammar of the regular expression accepts |
| UrlPatterns.MatchesLocal | open_brave_tabs.py:168-172 | the `re.match` of the loopback/private-range expression; characterised by `MatchesLocalCorrect` |
| UrlPatterns.IsPrivateHost | open_brave_tabs.py:169-170 | the host alternation (`localhost`, `127.` / `10.` / `192.168.` / `172.16-31.` dotted octets); characterised by `PrivateHostNoHostEnd` and `PrivateHostFirstChar` |
| UrlPatterns.PrivateHostNoHostEnd | open_brave_tabs.py:169-170 | no host of the alternation contains `:` or `/`, so the host/port split is unique |
| UrlPatterns.SplitPortEnd | open_brave_tabs.py:170 | in any accepted split the `(?::\d+)?` part is the longest run of digits after the colon |
| UrlPatterns.DottedOctetsChars | open_brave_tabs.py:169-170 | a dotted-octet string consists only of ASCII digits and dots |
| UrlPatterns.PrivateHostFirstChar | open_brave_tabs.py:169-170 | every host of the alternation starts with `l` or `1` |
| UrlPatterns.NotLocalFirstChar | open_brave_tabs.py:168-172 | text starting with neither `l` nor `1` never matches the loopback/private-range expression |
| UrlPatterns.HostPortMatches | open_brave_tabs.py:168-172 | a private host, an optional `:digits` port and then nothing or a `/`-led rest always match |
| UrlNormalization.HasScheme | open_brave_tabs.py:164 | the `or` of the two scheme tests; `NormalizeKeepsScheme` and `NormalizeDefaultScheme` state what the normaliser does on each side of it |
| UrlNormalization.WebPrefixHasScheme | open_brave_tabs.py:173-176 | `http://` or `https://` in front of any text gives a string the scheme expression accepts, starting with a letter, and stripped when the text is |
| UrlNormalization.WithDefaultScheme | open_brave_tabs.py:164-176 | the result always carries a scheme and starts with an ASCII letter; it is the candidate, `http://` + candidate or `https://` + candidate; stripped input gives stripped output |
| UrlNormalization.NormalizeUrlCandidate | open_brave_tabs.py:152-176 | `None` exactly for blank text; otherwise a stripped URL that carries a scheme and starts with a letter, being the stripped text possibly behind `http://` or `https://` |
| UrlNormalization.NormalizeKeepsScheme | open_brave_tabs.py:163-165 | text whose stripped form names a scheme (per the grammar, or `mailto:`/`magnet:`) comes back as its stripped form |
| UrlNormalization.NormalizeDefaultScheme | open_brave_tabs.py:167-176 | non-blank text without a scheme gets `http://` exactly when the grammar of the loopback/private-range expression accepts it, and `https://` otherwise |
| UrlNormalization.NormalizeIdempotent | open_brave_tabs.py:152-176 | normalising a normalised URL returns it unchanged |
| UrlNormalization.NormalizeStripped | open_brave_tabs.py:159-161 | on stripped, non-empty text the normaliser returns the scheme default of that text and never `None` |
| Seqs.FlatMapAppend | open_brave_tabs.py:134-142 | running the append loop over `a + b` is running it over `a` and then over `b` |
| Seqs.FlatMapEmpty | open_brave_tabs.py:134-143 | the loop yields nothing exactly when no element yields anything |
| Seqs.FlatMapOfSingletons | open_brave_tabs.py:134-142 | a loop whose body appends one value for the elements passing a test and nothing otherwise is a filter followed by a map |
| LinksFile.IsCandidateLine | open_brave_tabs.py:135-137 | a line is a candidate when its stripped form is non-empty and does not start with `#`; `LineUrls` and `CollectUrlsEmpty` state its role |
| LinksFile.CollectUrls | open_brave_tabs.py:132-142 | the append loop over the lines; characterised by `CollectUrlsAsFilter` and `CollectUrlsNormalizesCandidates` |
| LinksFile.LineUrls | open_brave_tabs.py:135-142 | one raw line adds at most one URL, exactly one iff the stripped line is non-empty and not a `#` comment, and that URL is what the normaliser returns for the line |
| LinksFile.LineUrlsShape | open_brave_tabs.py:135-142 | a candidate line yields its stripped text with the default scheme, and any other line yields nothing |
| LinksFile.CollectUrlsAsFilter | open_brave_tabs.py:132-142 | the URL list is the candidate lines, in file order, each stripped and given the default scheme |
| LinksFile.CollectUrlsNormalizesCandidates | open_brave_tabs.py:138-142 | the list has one entry per candidate line, and entry `k` is the normaliser's result for candidate line `k`, so the `None` skip at line 139 never fires |
| LinksFile.CollectUrlsWellFormed | open_brave_tabs.py:132-142 | every collected URL is stripped and carries a scheme |
| LinksFile.CollectUrlsAppend | open_brave_tabs.py:134-142 | the URLs of a file split in two are the URLs of the first part followed by those of the second |
| LinksFile.CollectUrlsEmpty | open_brave_tabs.py:143 | the list is empty exactly when no line is a candidate line |
| LinksFile.ReadUrls | open_brave_tabs.py:128-145 | a missing file gives the not-found error; an existing file gives `NoUrlsFound` exactly when no line is a candidate; otherwise it gives a non-empty list with one URL per candidate line, in order, each the normaliser's result for that line |
| Launch.ParseRender | open_brave_tabs.py:181-184 | any well-formed invocation, rendered after any command, is read back unchanged |
| Launch.RenderParse | open_brave_tabs.py:181-184 | every argument vector in the strategies' layout is the command followed by the rendering of what it decodes to, which is well formed |
| Launch.UrlNeverFlag | open_brave_tabs.py:199-203 | with URLs that start with a letter, as the normaliser guarantees, `--incognito` appears after the command exactly when it was requested |
| Launch.OpenInSingleWindow | open_brave_tabs.py:179-190 | exactly one argument vector, the command followed by the rendering of a new-window request with the requested incognito setting and all the URLs; it starts with the command unchanged, ends with every URL in order, and decodes to that request |
| Launch.OpenInExistingWindow | open_brave_tabs.py:193-209 | one argument vector per URL, in URL order; vector `i` is the command followed by, and decodes to, a new tab with URL `i` alone, incognito only for the first vector and only when requested |
| TestCases.ExampleSchemePassthrough | tests/test_open_brave_tabs.py:9-11 | `https://example.com/path?a=1` is returned unchanged |
| TestCases.ExampleDomain | tests/test_open_brave_tabs.py:15 | `example.com` becomes `https://example.com` |
| TestCases.ExampleDomainPath | tests/test_open_brave_tabs.py:16 | `example.com/path` becomes `https://example.com/path` |
| TestCases.ExampleLocalhostPort | tests/test_open_brave_tabs.py:17 | `localhost:8080` becomes `http://localhost:8080` |
| TestCases.ExamplePrivateAddress | tests/test_open_brave_tabs.py:18 | `192.168.1.10` becomes `http://192.168.1.10` |
| TestCases.ExampleEmpty | tests/test_open_brave_tabs.py:19 | the empty string gives `None` |
| TestCases.ExampleReadUrlsBasic | tests/test_open_brave_tabs.py:22-43 | the seven-line file yields its four URLs in order, with the scheme defaults applied |
| TestCases.ExampleReadUrlsMissingFile | tests/test_open_brave_tabs.py:46-49 | a missing path gives the not-found error, whose message starts with "Links file not found" |
| TestCases.ExampleReadUrlsEmptyFile | tests/test_open_brave_tabs.py:52-57 | an empty file gives the no-URLs error, whose message starts with "No URLs found" |
| TestCases.ExampleSingleWindow | tests/test_open_brave_tabs.py:111-125 | `["brave"]` with two URLs and incognito gives one vector `brave --incognito --new-window` followed by the two URLs |
| TestCases.ExampleExistingWindow | tests/test_open_brave_tabs.py:128-141 | `["brave"]` with two URLs and incognito gives `brave --incognito --new-tab https://a`, then `brave --new-tab https://b` |

## Left out

- `detect_brave_command` (searching the PATH, Flatpak and Snap probes) and `parse_args`
  (argparse). They depend on the environment and on the command line.
- File I/O in `read_urls`. `os.path.exists` becomes the `Missing` case. Opening the file
  and decoding UTF-8 are not modelled: the file arrives as the lines `for raw_line in f`
  would yield, line breaks included.
- `subprocess.Popen` and its `FileNotFoundError` → `SystemExit`. The launch strategies
  return the argument vectors instead of spawning them, so the failure to launch is not
  modelled.
- Brave's own command-line parsing. The browser reads switches in any position;
  `Launch.ParseInvocation` only decodes the positional layout the two strategies build.
- `main` and the `KeyboardInterrupt` exit code 130. `main` only dispatches on
  `--no-new-window` between the two strategies.
- LinksFile.ErrorMessage: has no contract of its own. Only the message prefixes the tests
  check are proved.
- UrlPatterns.Octet: `\d` is modelled as the ASCII digits `0`-`9`. Python's `\d` on `str`
  patterns also accepts other Unicode decimal digits, which are not modelled.
- UrlPatterns.Is172SecondOctet: the `2\d` branch of `172.(1[6-9]|2\d|3[0-1])` uses ASCII
  digits only, like `Octet`.
- UrlPatterns.IsPortSuffix: the `\d+` of the `(?::\d+)?` port uses ASCII digits only, like
  `Octet`.
- UrlPatterns.DigitRunEnd: the port digit run stops at the first character outside `0`-`9`,
  so other Unicode decimal digits end the port, like `Octet`.
- UrlPatterns.PathOrEnd: `$` is modelled as end of string. Python's `$` also matches
  before a final newline, but candidates are stripped first, so that case cannot arise.
- Text.IsSpace: the set is Python's `str.isspace()`. Python defines it via the Unicode
  database; the model lists its code points explicitly.
