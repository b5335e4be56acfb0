/**
 * Detecting a source served by a local RSSHub instance, and the environment
 * the start-up script would be given.  URLs are split the way Python's
 * `urllib.parse.urlsplit` does; the validation of bracketed (IPv6) hosts is
 * a parameter, and running the script is not modelled.
 */
module Rsshub {
  import opened Wrappers
  import opened Text
  import Models
  import EnvUtils

  // ---------------------------------------------------------------------------
  // `urlsplit`

  /** The `ValueError`s, by their messages. */
  const InvalidIPv6: string := "ValueError: Invalid IPv6 URL"
  const PortNotNumber: string := "ValueError: Port could not be cast to integer value"
  const PortRange: string := "ValueError: Port out of range 0-65535"

  /** `urlsplit(url)`: scheme, network location, path, query and fragment. */
  datatype SplitUrl = SplitUrl(scheme: string, netloc: string, path: string, query: string, fragment: string)

  /** A C0 control character or a space, stripped from the front of a URL. */
  predicate IsC0OrSpace(c: char) { c <= ' ' }

  /** Tab, carriage return and line feed, removed from anywhere in a URL. */
  predicate IsUnsafe(c: char) { c == '\t' || c == '\r' || c == '\n' }

  /** The text without its unsafe characters. */
  function RemoveUnsafe(s: string): (r: string)
    ensures forall k :: 0 <= k < |r| ==> !IsUnsafe(r[k])
    ensures (forall k :: 0 <= k < |s| ==> !IsUnsafe(s[k])) ==> r == s
  {
    if s == [] then []
    else (if IsUnsafe(s[0]) then [] else [s[0]]) + RemoveUnsafe(s[1..])
  }

  predicate IsAsciiAlpha(c: char) { 'a' <= c <= 'z' || 'A' <= c <= 'Z' }

  /** A character allowed in a scheme: ASCII letters and digits, `+`, `-` and `.`. */
  predicate IsSchemeChar(c: char) { IsAsciiAlpha(c) || '0' <= c <= '9' || c == '+' || c == '-' || c == '.' }

  /** Index of the first of `/`, `?` and `#` at or after `i`, or the length. */
  function NetlocEnd(s: string, i: nat): (r: nat)
    requires i <= |s|
    ensures i <= r <= |s|
    ensures forall k :: i <= k < r ==> s[k] != '/' && s[k] != '?' && s[k] != '#'
    ensures r < |s| ==> s[r] == '/' || s[r] == '?' || s[r] == '#'
    decreases |s| - i
  {
    if i == |s| || s[i] == '/' || s[i] == '?' || s[i] == '#' then i else NetlocEnd(s, i + 1)
  }

  /** The scheme and what follows it, or "" and the whole text when there is no scheme. */
  function SplitScheme(url: string): (string, string) {
    var i := EnvUtils.IndexOf(url, ':');
    if i > 0 && IsAsciiAlpha(url[0]) && forall k :: 0 <= k < i ==> IsSchemeChar(url[k])
    then (Lower(url[..i]), url[i + 1..])
    else ("", url)
  }

  /** The URL with leading C0 characters and spaces stripped and unsafe characters removed. */
  function Cleaned(raw: string): string {
    RemoveUnsafe(raw[LeadCount(raw, IsC0OrSpace)..])
  }

  /** After the scheme: the network location behind `//` (up to `/`, `?` or `#`) and the rest. */
  function SplitNetloc(rest: string): (string, string) {
    if |rest| >= 2 && rest[0] == '/' && rest[1] == '/' then
      var e := NetlocEnd(rest, 2);
      (rest[2..e], rest[e..])
    else ("", rest)
  }

  /** After the network location: path, query (behind `?`) and fragment (behind `#`). */
  function SplitTail(after: string): (string, string, string) {
    var h := EnvUtils.IndexOf(after, '#');
    var (beforeHash, fragment) := if h >= 0 then (after[..h], after[h + 1..]) else (after, "");
    var q := EnvUtils.IndexOf(beforeHash, '?');
    var (path, query) := if q >= 0 then (beforeHash[..q], beforeHash[q + 1..]) else (beforeHash, "");
    (path, query, fragment)
  }

  /**
   * `urlsplit`.  `bracketsValid` stands for the check of a network location
   * holding both `[` and `]` (an IPv6 or future address), which raises when
   * the address is invalid.
   */
  function UrlSplit(raw: string, bracketsValid: string -> bool): Result<SplitUrl> {
    var (scheme, rest) := SplitScheme(Cleaned(raw));
    var (netloc, after) := SplitNetloc(rest);
    if ('[' in netloc) != (']' in netloc) then Err(InvalidIPv6)
    else if '[' in netloc && !bracketsValid(netloc) then Err(InvalidIPv6)
    else
      var (path, query, fragment) := SplitTail(after);
      Ok(SplitUrl(scheme, netloc, path, query, fragment))
  }

  /** Index of the last `c` in `s`, or -1. */
  function LastIndexOf(s: string, c: char): (r: int)
    ensures -1 <= r < |s|
    ensures r >= 0 ==> s[r] == c
    ensures forall k :: r < k < |s| ==> s[k] != c
  {
    if s == [] then -1
    else if s[|s| - 1] == c then |s| - 1
    else LastIndexOf(s[..|s| - 1], c)
  }

  /** `s.partition(c)`: the text before the first `c` and the text after it (all and "" without one). */
  function Partition(s: string, c: char): (string, string) {
    var i := EnvUtils.IndexOf(s, c);
    if i >= 0 then (s[..i], s[i + 1..]) else (s, "")
  }

  /** `_hostinfo`: the host text and the port text (`None` when empty) of a network location. */
  function HostInfo(netloc: string): (string, Option<string>) {
    var at := LastIndexOf(netloc, '@');
    var hostinfo := netloc[at + 1..];
    var (before, bracketed) := Partition(hostinfo, '[');
    var (host, port) :=
      if '[' in hostinfo then
        var (inside, tail) := Partition(bracketed, ']');
        (inside, Partition(tail, ':').1)
      else Partition(hostinfo, ':');
    (host, if port == "" then None else Some(port))
  }

  /** `SplitResult.hostname`: lower-cased up to a `%` zone, `None` when empty. */
  function Hostname(netloc: string): Option<string> {
    var host := HostInfo(netloc).0;
    if host == "" then None
    else
      var p := EnvUtils.IndexOf(host, '%');
      if p >= 0 then Some(Lower(host[..p]) + host[p..]) else Some(Lower(host))
  }

  /** `SplitResult.port`: the number, `None` without one, or the `ValueError` Python raises. */
  function Port(netloc: string): (r: Result<Option<nat>>)
    ensures r.Ok? && r.value.Some? ==> r.value.value <= 65535
  {
    var port := HostInfo(netloc).1;
    if port.None? then Ok(None)
    else if !AllDigits(port.value) then Err(PortNotNumber)
    else
      var n := ParseNat(port.value);
      if n > 65535 then Err(PortRange) else Ok(Some(n))
  }

  // ---------------------------------------------------------------------------
  // Detection

  /** The hosts that mean "this machine". */
  predicate IsLocalHost(host: string) {
    host == "127.0.0.1" || host == "localhost" || host == "0.0.0.0"
  }

  /** The RSSHub routes served locally. */
  predicate IsLocalRoute(path: string) {
    StartsWith(path, "/huxiu/") || StartsWith(path, "/freewechat/")
  }

  /** `parsed.port or 80`. */
  function PortOr80(port: Option<nat>): (r: nat)
    ensures r != 0
    ensures port.Some? && port.value != 0 ==> r == port.value
  {
    if port.None? || port.value == 0 then 80 else port.value
  }

  /** The host a source names, as compared with the local hosts: stripped and lower-cased, "" without one. */
  function HostText(netloc: string): string {
    Lower(Strip(Hostname(netloc).GetOr("")))
  }

  /** What a split URL gives: skip (`None`) unless local host and route, else the host and port. */
  function Classify(parsed: SplitUrl): Result<Option<(string, nat)>> {
    var host := HostText(parsed.netloc);
    if !IsLocalHost(host) || !IsLocalRoute(parsed.path) then Ok(None)
    else
      var port := Port(parsed.netloc);
      if port.Err? then Err(port.error) else Ok(Some((host, PortOr80(port.value))))
  }

  /** One iteration of `_detect_local_rsshub`: skip (`None`), the host and port, or an exception. */
  function Candidate(url: string, bracketsValid: string -> bool): Result<Option<(string, nat)>> {
    var parsed := UrlSplit(url, bracketsValid);
    if parsed.Err? then Err(parsed.error) else Classify(parsed.value)
  }

  /** The outcome for a list of URLs, given what each one gives: the first hit, nothing, or the first exception. */
  function Detect(urls: seq<string>, probe: string -> Result<Option<(string, nat)>>): Result<Option<(string, nat)>> {
    if urls == [] then Ok(None)
    else
      var c := probe(urls[0]);
      if c.Err? || c.value.Some? then c else Detect(urls[1..], probe)
  }

  /** `Candidate` as a function of the URL alone. */
  function Probe(bracketsValid: string -> bool): string -> Result<Option<(string, nat)>> {
    url => Candidate(url, bracketsValid)
  }

  function Urls(sources: seq<Models.SourceConfig>): (r: seq<string>)
    ensures |r| == |sources| && forall k :: 0 <= k < |sources| ==> r[k] == sources[k].url
  {
    seq(|sources|, k requires 0 <= k < |sources| => sources[k].url)
  }

  /** `_detect_local_rsshub`: the sources in order, returning at the first local RSSHub one. */
  method DetectLocalRsshub(sources: seq<Models.SourceConfig>, bracketsValid: string -> bool)
    returns (r: Result<Option<(string, nat)>>)
    ensures r == Detect(Urls(sources), Probe(bracketsValid))
  {
    ghost var urls := Urls(sources);
    ghost var probe := Probe(bracketsValid);
    var i := 0;
    while i < |sources|
      invariant 0 <= i <= |sources|
      invariant Detect(urls, probe) == Detect(urls[i..], probe)
    {
      var c := Candidate(sources[i].url, bracketsValid);
      assert c == probe(urls[i..][0]);
      assert urls[i..][1..] == urls[i + 1..];
      if c.Err? || c.value.Some? {
        return c;
      }
      i := i + 1;
    }
    r := Ok(None);
  }

  /** A result other than "nothing" is what the first URL that is not skipped gives, and every earlier one is skipped. */
  lemma {:induction false} DetectFirst(urls: seq<string>, probe: string -> Result<Option<(string, nat)>>)
    requires Detect(urls, probe) != Ok(None)
    ensures exists i :: (0 <= i < |urls| && probe(urls[i]) == Detect(urls, probe)
      && forall j :: 0 <= j < i ==> probe(urls[j]) == Ok(None))
  {
    if probe(urls[0]) == Ok(None) {
      var rest := urls[1..];
      DetectFirst(rest, probe);
      var i :| 0 <= i < |rest| && probe(rest[i]) == Detect(rest, probe)
        && (forall j :: 0 <= j < i ==> probe(rest[j]) == Ok(None));
      assert urls[i + 1] == rest[i];
      assert forall j :: 1 <= j < i + 1 ==> urls[j] == rest[j - 1];
    } else {
      assert probe(urls[0]) == Detect(urls, probe);
    }
  }

  /** Nothing is found exactly when every URL is skipped. */
  lemma {:induction false} DetectNone(urls: seq<string>, probe: string -> Result<Option<(string, nat)>>)
    ensures Detect(urls, probe) == Ok(None)
      <==> forall j :: 0 <= j < |urls| ==> probe(urls[j]) == Ok(None)
  {
    if urls != [] {
      DetectNone(urls[1..], probe);
      assert forall j :: 1 <= j < |urls| ==> urls[j] == urls[1..][j - 1];
    }
  }

  /** The first URL that gives a hit decides the result. */
  lemma {:induction false} DetectAt(urls: seq<string>, probe: string -> Result<Option<(string, nat)>>, i: nat)
    requires i < |urls| && probe(urls[i]) != Ok(None)
    requires forall j :: 0 <= j < i ==> probe(urls[j]) == Ok(None)
    ensures Detect(urls, probe) == probe(urls[i])
    decreases i
  {
    if i > 0 {
      var rest := urls[1..];
      assert rest[i - 1] == urls[i];
      assert forall j :: 0 <= j < i - 1 ==> rest[j] == urls[j + 1];
      DetectAt(rest, probe, i - 1);
    }
  }

  // ---------------------------------------------------------------------------
  // What a URL of the usual shape gives

  /** `scheme://netloc` followed by a path. */
  function Url(scheme: string, netloc: string, path: string): string {
    scheme + "://" + netloc + path
  }

  /** `host` or `host:port`. */
  function Netloc(host: string, port: string): string {
    if port == [] then host else host + ":" + port
  }

  /** A character of a host name: no delimiter, space or upper-case letter. */
  predicate IsHostChar(c: char) {
    c != '/' && c != '?' && c != '#' && c != '@' && c != ':' && c != '[' && c != ']' && c != '%'
    && !IsSpace(c) && !('A' <= c <= 'Z')
  }

  predicate PlainHost(host: string) {
    host != [] && forall k :: 0 <= k < |host| ==> IsHostChar(host[k])
  }

  /** A path that starts with `/` (or is empty) and has no query, fragment or unsafe character. */
  predicate PlainPath(path: string) {
    (path == [] || path[0] == '/')
    && forall k :: 0 <= k < |path| ==> path[k] != '?' && path[k] != '#' && !IsUnsafe(path[k])
  }

  /** A scheme of lower-case letters. */
  predicate PlainScheme(scheme: string) {
    scheme != [] && forall k :: 0 <= k < |scheme| ==> 'a' <= scheme[k] <= 'z'
  }

  predicate SafeText(s: string) {
    forall k :: 0 <= k < |s| ==> !IsUnsafe(s[k])
  }

  lemma SafeConcat(a: string, b: string)
    requires SafeText(a) && SafeText(b)
    ensures SafeText(a + b)
  {
    assert forall k :: |a| <= k < |a + b| ==> (a + b)[k] == b[k - |a|];
  }

  /** A URL that starts with a visible character and has no unsafe one is split as it is. */
  lemma CleanUrl(url: string)
    requires url != [] && !IsC0OrSpace(url[0]) && SafeText(url)
    ensures Cleaned(url) == url
  {
    assert LeadCount(url, IsC0OrSpace) == 0;
    assert url[0..] == url;
  }

  lemma SchemeOf(scheme: string, rest: string)
    requires PlainScheme(scheme)
    ensures SplitScheme(scheme + ":" + rest) == (scheme, rest)
  {
    var url := scheme + ":" + rest;
    assert forall k :: 0 <= k < |scheme| ==> url[k] == scheme[k];
    assert url[|scheme|] == ':';
    assert EnvUtils.IndexOf(url, ':') == |scheme|;
    assert url[..|scheme|] == scheme;
    assert url[|scheme| + 1..] == rest;
    assert Lower(scheme) == scheme;
  }

  lemma NetlocOf(netloc: string, path: string)
    requires forall k :: 0 <= k < |netloc| ==> netloc[k] != '/' && netloc[k] != '?' && netloc[k] != '#'
    requires path == [] || path[0] == '/'
    ensures SplitNetloc("//" + netloc + path) == (netloc, path)
  {
    var rest := "//" + netloc + path;
    assert forall k :: 2 <= k < 2 + |netloc| ==> rest[k] == netloc[k - 2];
    if path != [] {
      assert rest[2 + |netloc|] == '/';
    }
    assert rest[2..2 + |netloc|] == netloc;
    assert rest[2 + |netloc|..] == path;
  }

  lemma TailOf(path: string)
    requires PlainPath(path)
    ensures SplitTail(path) == (path, "", "")
  {
    assert EnvUtils.IndexOf(path, '#') == -1;
    assert EnvUtils.IndexOf(path, '?') == -1;
  }

  /** The characters of `host[:port]`. */
  lemma NetlocChars(host: string, port: string)
    requires PlainHost(host) && AllDigits(port)
    ensures var netloc := Netloc(host, port);
      SafeText(netloc) && '[' !in netloc && ']' !in netloc && '@' !in netloc
      && forall k :: 0 <= k < |netloc| ==> netloc[k] != '/' && netloc[k] != '?' && netloc[k] != '#'
  {
    var netloc := Netloc(host, port);
    forall k | 0 <= k < |netloc|
      ensures !IsUnsafe(netloc[k]) && netloc[k] != '[' && netloc[k] != ']' && netloc[k] != '@'
        && netloc[k] != '/' && netloc[k] != '?' && netloc[k] != '#'
    {
      if k < |host| {
        assert netloc[k] == host[k];
      } else if k > |host| {
        assert netloc[k] == port[k - |host| - 1];
      }
    }
  }

  /** The pieces of `scheme://host[:port]path` as `urlsplit` finds them. */
  lemma SplitPlain(scheme: string, host: string, port: string, path: string, bracketsValid: string -> bool)
    requires PlainScheme(scheme) && PlainHost(host) && AllDigits(port) && PlainPath(path)
    ensures UrlSplit(Url(scheme, Netloc(host, port), path), bracketsValid)
      == Ok(SplitUrl(scheme, Netloc(host, port), path, "", ""))
  {
    var netloc := Netloc(host, port);
    var rest := "//" + netloc + path;
    var url := Url(scheme, netloc, path);
    assert url == scheme + ":" + rest;
    NetlocChars(host, port);
    assert SafeText(url) by {
      assert SafeText(scheme) && SafeText(":") && SafeText("//");
      SafeConcat(scheme, ":");
      SafeConcat("//", netloc);
      SafeConcat("//" + netloc, path);
      SafeConcat(scheme + ":", rest);
    }
    assert url[0] == scheme[0];
    CleanUrl(url);
    SchemeOf(scheme, rest);
    NetlocOf(netloc, path);
    TailOf(path);
  }

  /** `host[:port]` names that host. */
  lemma HostOf(host: string, port: string)
    requires PlainHost(host) && AllDigits(port)
    ensures HostInfo(Netloc(host, port)) == (host, if port == [] then None else Some(port))
    ensures Hostname(Netloc(host, port)) == Some(host)
  {
    var netloc := Netloc(host, port);
    NetlocChars(host, port);
    assert LastIndexOf(netloc, '@') == -1;
    assert netloc[0..] == netloc;
    assert forall k :: 0 <= k < |host| ==> netloc[k] == host[k];
    if port != [] {
      assert netloc[|host|] == ':';
      assert EnvUtils.IndexOf(netloc, ':') == |host|;
      assert netloc[..|host|] == host;
      assert netloc[|host| + 1..] == port;
    }
    assert EnvUtils.IndexOf(host, '%') == -1;
    assert Lower(host) == host;
  }

  /** ... and that port: none, the number, or the error for a number above 65535. */
  lemma PortOf(host: string, port: string)
    requires PlainHost(host) && AllDigits(port)
    ensures Port(Netloc(host, port)) == (if port == [] then Ok(None)
      else if ParseNat(port) > 65535 then Err(PortRange)
      else Ok(Some(ParseNat(port))))
  {
    HostOf(host, port);
  }

  lemma HostTextOf(host: string, port: string)
    requires PlainHost(host) && AllDigits(port)
    ensures HostText(Netloc(host, port)) == host
  {
    HostOf(host, port);
    StripUnchanged(host);
    assert Lower(host) == host;
  }

  /** A local host on a local route: the host and the port, 80 when there is none or it is 0. */
  lemma LocalHit(scheme: string, host: string, port: string, path: string, bracketsValid: string -> bool)
    requires PlainScheme(scheme) && PlainHost(host) && AllDigits(port) && PlainPath(path)
    requires IsLocalHost(host) && IsLocalRoute(path)
    requires port != [] ==> ParseNat(port) <= 65535
    ensures Candidate(Url(scheme, Netloc(host, port), path), bracketsValid)
      == Ok(Some((host, if port == [] || ParseNat(port) == 0 then 80 else ParseNat(port))))
  {
    SplitPlain(scheme, host, port, path, bracketsValid);
    HostTextOf(host, port);
    PortOf(host, port);
  }

  /** Any other host is skipped. */
  lemma ForeignSkipped(scheme: string, host: string, port: string, path: string, bracketsValid: string -> bool)
    requires PlainScheme(scheme) && PlainHost(host) && AllDigits(port) && PlainPath(path)
    requires !IsLocalHost(host)
    ensures Candidate(Url(scheme, Netloc(host, port), path), bracketsValid) == Ok(None)
  {
    SplitPlain(scheme, host, port, path, bracketsValid);
    HostTextOf(host, port);
  }

  // ---------------------------------------------------------------------------
  // `ensure_rsshub_for_sources`

  /** The start-up script, relative to the working directory. */
  const ScriptPath: string := "scripts/rsshub/ensure_rsshub.sh"

  /** A run of the start-up script: its command line and its environment. */
  datatype Launch = Launch(command: seq<string>, env: map<string, string>)

  /** The process environment with `RSSHUB_HOST` and `RSSHUB_PORT` defaulted to the target. */
  function ScriptEnv(environ: map<string, string>, host: string, port: nat): map<string, string> {
    EnvUtils.WithDefault(EnvUtils.WithDefault(environ, "RSSHUB_HOST", host), "RSSHUB_PORT", ShowNat(port))
  }

  /**
   * `ensure_rsshub_for_sources`: the script run it makes (`None` when no
   * source is local or the script is missing), or the exception detection
   * raised.  Whether the script exists and the process environment are
   * parameters; the run itself, and the warning logged when it fails, are
   * not modelled.
   */
  function EnsureRsshub(sources: seq<Models.SourceConfig>, bracketsValid: string -> bool,
                        scriptExists: bool, environ: map<string, string>): (r: Result<Option<Launch>>)
    ensures r.Err? <==> Detect(Urls(sources), Probe(bracketsValid)).Err?
    ensures r.Ok? && r.value.Some?
      <==> (scriptExists && Detect(Urls(sources), Probe(bracketsValid)).Ok?
            && Detect(Urls(sources), Probe(bracketsValid)).value.Some?)
    ensures r.Ok? && r.value.Some? ==> r.value.value.command == [ScriptPath]
  {
    var target := Detect(Urls(sources), Probe(bracketsValid));
    if target.Err? then Err(target.error)
    else if target.value.None? || !scriptExists then Ok(None)
    else
      var (host, port) := target.value.value;
      Ok(Some(Launch([ScriptPath], ScriptEnv(environ, host, port))))
  }

  /** The script's environment is the process's, plus the target's host and port where they were unset. */
  lemma ScriptEnvDefaults(environ: map<string, string>, host: string, port: nat)
    ensures var env := ScriptEnv(environ, host, port);
      env.Keys == environ.Keys + {"RSSHUB_HOST", "RSSHUB_PORT"}
      && (forall k :: k in environ ==> env[k] == environ[k])
      && ("RSSHUB_HOST" !in environ ==> env["RSSHUB_HOST"] == host)
      && ("RSSHUB_PORT" !in environ ==> ParseNat(env["RSSHUB_PORT"]) == port)
  {
    var once := EnvUtils.WithDefault(environ, "RSSHUB_HOST", host);
    assert "RSSHUB_HOST" != "RSSHUB_PORT";
    assert "RSSHUB_PORT" !in environ ==> "RSSHUB_PORT" !in once;
  }

  /** The literal pieces of the two example URLs. */
  lemma ExampleSchemes()
    ensures PlainScheme("http") && PlainScheme("https")
  {
  }

  lemma LocalExampleHost()
    ensures PlainHost("0.0.0.0") && IsLocalHost("0.0.0.0")
  {
    var h := "0.0.0.0";
    assert forall k :: 0 <= k < |h| ==> h[k] == '0' || h[k] == '.';
  }

  lemma ForeignExampleHost()
    ensures PlainHost("example.com") && !IsLocalHost("example.com")
  {
    var h := "example.com";
    assert forall k :: 0 <= k < |h| ==> 'a' <= h[k] <= 'z' || h[k] == '.';
    assert h[0] != "127.0.0.1"[0] && h[0] != "localhost"[0] && h[0] != "0.0.0.0"[0];
  }

  lemma ExamplePort()
    ensures AllDigits("1200") && ParseNat("1200") == 1200 && ShowNat(1200) == "1200"
  {
    assert ShowNat(1) == ['1'];
    assert ShowNat(12) == ShowNat(1) + ['2'] == ['1', '2'];
    assert ShowNat(120) == ShowNat(12) + ['0'] == ['1', '2', '0'];
    assert ShowNat(1200) == ShowNat(120) + ['0'] == ['1', '2', '0', '0'];
  }

  lemma ExamplePaths()
    ensures PlainPath("/huxiu/search/AI") && IsLocalRoute("/huxiu/search/AI") && PlainPath("/rss.xml")
  {
    assert StartsWith("/huxiu/search/AI", "/huxiu/");
  }

  /** With a single source, the outcome is what its URL gives. */
  lemma SingleSource(source: Models.SourceConfig, bracketsValid: string -> bool)
    ensures Detect(Urls([source]), Probe(bracketsValid)) == Candidate(source.url, bracketsValid)
  {
    var urls := Urls([source]);
    assert urls[0] == source.url && urls[1..] == [];
    assert Probe(bracketsValid)(urls[0]) == Candidate(source.url, bracketsValid);
  }

  /** A local source `http://0.0.0.0:1200/huxiu/...` runs the script with host `0.0.0.0` and port `1200`. */
  lemma LocalSourceLaunches(source: Models.SourceConfig, bracketsValid: string -> bool)
    requires source.url == Url("http", Netloc("0.0.0.0", "1200"), "/huxiu/search/AI")
    ensures EnsureRsshub([source], bracketsValid, true, map[])
      == Ok(Some(Launch([ScriptPath], map["RSSHUB_HOST" := "0.0.0.0", "RSSHUB_PORT" := "1200"])))
  {
    ExampleSchemes();
    LocalExampleHost();
    ExamplePort();
    ExamplePaths();
    LocalHit("http", "0.0.0.0", "1200", "/huxiu/search/AI", bracketsValid);
    SingleSource(source, bracketsValid);
  }

  /** A source on another host runs nothing. */
  lemma ForeignSourceIdle(source: Models.SourceConfig, bracketsValid: string -> bool, scriptExists: bool,
                          environ: map<string, string>)
    requires source.url == Url("https", Netloc("example.com", ""), "/rss.xml")
    ensures EnsureRsshub([source], bracketsValid, scriptExists, environ) == Ok(None)
  {
    ExampleSchemes();
    ForeignExampleHost();
    ExamplePaths();
    ForeignSkipped("https", "example.com", "", "/rss.xml", bracketsValid);
    SingleSource(source, bracketsValid);
  }
}
