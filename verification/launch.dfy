/** The two launch strategies (open_brave_tabs.py:179-209). Instead of spawning processes,
    each returns the argument vectors it would hand to `subprocess.Popen`, in spawn order.
    `ParseInvocation` decodes the positional argument layout both strategies build (the
    command, an optional `--incognito`, then one mode flag and its URLs); it is the partner
    every construction here is checked against. It is not the browser's own command-line
    parser, which accepts switches in any position. */
module Launch {
  import opened Wrappers
  import opened Text

  type Argv = seq<String>

  const IncognitoFlag: String := "--incognito"
  const NewWindowFlag: String := "--new-window"
  const NewTabFlag: String := "--new-tab"

  datatype Mode = NewWindow | NewTab

  /** What one argument vector of the launch strategies asks for. */
  datatype Invocation = Invocation(incognito: bool, mode: Mode, urls: seq<String>)

  /** A `NewTab` invocation opens exactly one URL. */
  predicate WellFormed(inv: Invocation)
  {
    inv.mode == NewTab ==> |inv.urls| == 1
  }

  /** The arguments after the command that request `inv`. */
  function Render(inv: Invocation): Argv
  {
    (if inv.incognito then [IncognitoFlag] else [])
    + [if inv.mode == NewWindow then NewWindowFlag else NewTabFlag]
    + inv.urls
  }

  /** Decodes the layout the launch strategies build, once the `prefixLen` tokens of the
      command are skipped: an optional `--incognito`, then `--new-window` followed by any
      number of URLs, or `--new-tab` followed by exactly one URL. Anything else is `None`. */
  function ParseInvocation(argv: Argv, prefixLen: nat): Option<Invocation>
  {
    if prefixLen > |argv| then None
    else
      var rest := argv[prefixLen..];
      var incognito := |rest| > 0 && rest[0] == IncognitoFlag;
      var body := if incognito then rest[1..] else rest;
      if |body| > 0 && body[0] == NewWindowFlag then
        Some(Invocation(incognito, NewWindow, body[1..]))
      else if |body| == 2 && body[0] == NewTabFlag then
        Some(Invocation(incognito, NewTab, body[1..]))
      else None
  }

  /** Reading back what was rendered behind any command gives the same invocation. */
  lemma ParseRender(cmd: Argv, inv: Invocation)
    requires WellFormed(inv)
    ensures ParseInvocation(cmd + Render(inv), |cmd|) == Some(inv)
  {
    var argv := cmd + Render(inv);
    assert argv[|cmd|..] == Render(inv);
    if inv.incognito {
      assert Render(inv)[1..] == [if inv.mode == NewWindow then NewWindowFlag else NewTabFlag]
                                 + inv.urls;
    }
  }

  /** Conversely, an argument vector in that layout is the command followed by the
      rendering of what it decodes to, and what it decodes to is well formed. */
  lemma RenderParse(argv: Argv, prefixLen: nat)
    requires ParseInvocation(argv, prefixLen).Some?
    ensures WellFormed(ParseInvocation(argv, prefixLen).value)
    ensures argv == argv[..prefixLen] + Render(ParseInvocation(argv, prefixLen).value)
  {
    var inv := ParseInvocation(argv, prefixLen).value;
    var rest := argv[prefixLen..];
    assert argv == argv[..prefixLen] + rest;
    var body := if inv.incognito then rest[1..] else rest;
    assert rest == (if inv.incognito then [IncognitoFlag] else []) + body by {
      if inv.incognito { assert rest == [rest[0]] + rest[1..]; }
    }
    assert body == [body[0]] + body[1..];
    assert Render(inv) == (if inv.incognito then [IncognitoFlag] else []) + ([body[0]] + body[1..]);
  }

  /** A URL produced by normalization begins with a letter, so it is never taken for one of
      the flags: the incognito flag appears after the command exactly when it was asked for. */
  lemma UrlNeverFlag(cmd: Argv, inv: Invocation)
    requires forall k | 0 <= k < |inv.urls| :: |inv.urls[k]| > 0 && IsAsciiLetter(inv.urls[k][0])
    ensures IncognitoFlag in (cmd + Render(inv))[|cmd|..] <==> inv.incognito
  {
    var argv := cmd + Render(inv);
    assert argv[|cmd|..] == Render(inv);
    var f := if inv.incognito then 1 else 0;
    forall k | f < k < |Render(inv)|
      ensures Render(inv)[k] != IncognitoFlag
    {
      assert Render(inv)[k] == inv.urls[k - f - 1];
    }
  }

  /** `open_in_single_window` (lines 181-185): one argument vector, the command unchanged,
      then the flags, then every URL in order. */
  function OpenInSingleWindow(braveCmd: Argv, urls: seq<String>, incognito: bool)
    : (calls: seq<Argv>)
    ensures calls == [braveCmd + Render(Invocation(incognito, NewWindow, urls))]
    ensures |calls[0]| >= |braveCmd| + |urls| && calls[0][..|braveCmd|] == braveCmd
    ensures calls[0][|calls[0]| - |urls|..] == urls
    ensures ParseInvocation(calls[0], |braveCmd|) == Some(Invocation(incognito, NewWindow, urls))
  {
    var command := braveCmd + (if incognito then [IncognitoFlag] else []) + [NewWindowFlag] + urls;
    assert command == braveCmd + Render(Invocation(incognito, NewWindow, urls));
    ParseRender(braveCmd, Invocation(incognito, NewWindow, urls));
    [command]
  }

  /** `open_in_existing_window` (lines 199-205): one argument vector per URL, in URL order,
      each the command unchanged followed by `--new-tab` and that URL; only the first asks
      for incognito, and only when requested. */
  method OpenInExistingWindow(braveCmd: Argv, urls: seq<String>, incognito: bool)
    returns (calls: seq<Argv>)
    ensures |calls| == |urls|
    ensures forall i | 0 <= i < |urls| ::
              calls[i] == braveCmd + Render(Invocation(i == 0 && incognito, NewTab, [urls[i]]))
    ensures forall i | 0 <= i < |urls| ::
              ParseInvocation(calls[i], |braveCmd|)
              == Some(Invocation(i == 0 && incognito, NewTab, [urls[i]]))
  {
    calls := [];
    var first := true;
    for j := 0 to |urls|
      invariant |calls| == j
      invariant first <==> j == 0
      invariant forall i | 0 <= i < j ::
                  calls[i] == braveCmd + Render(Invocation(i == 0 && incognito, NewTab, [urls[i]]))
    {
      var command := braveCmd;
      if first && incognito {
        command := command + [IncognitoFlag];
      }
      command := command + [NewTabFlag, urls[j]];
      first := false;
      assert command == braveCmd + Render(Invocation(j == 0 && incognito, NewTab, [urls[j]]));
      calls := calls + [command];
    }
    forall i | 0 <= i < |urls|
      ensures ParseInvocation(calls[i], |braveCmd|)
              == Some(Invocation(i == 0 && incognito, NewTab, [urls[i]]))
    {
      ParseRender(braveCmd, Invocation(i == 0 && incognito, NewTab, [urls[i]]));
    }
  }
}
