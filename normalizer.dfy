/**
 * Raw items become normalized items: markup-free collapsed text, a language
 * tag, a canonical URL, a content-derived id, and only the AI-related items
 * published inside the collection window survive.
 *
 * URL parsing (`urlsplit` + `parse_qsl`) is a parameter that yields the
 * structured components of section 3 of RFC 3986; SHA-256 is a parameter.
 */
module Normalizer {
  import opened Wrappers
  import opened Text
  import opened Order
  import opened Models

  // ---------------------------------------------------------------------------
  // clean_text

  /** `re.sub(r"<[^>]+>", ...)` would match at index `i` of `s`. */
  predicate TagAt(s: string, i: int) {
    0 <= i < |s| - 1 && s[i] == '<' && s[i + 1] != '>' && '>' in s[i + 1..]
  }

  /** Index of the first `>` of `s`, or `|s|`. */
  function GtIndex(s: string): (k: nat)
    ensures k <= |s| && '>' !in s[..k]
    ensures k < |s| ==> s[k] == '>'
  {
    if s == [] then 0
    else if s[0] == '>' then 0
    else
      var k := 1 + GtIndex(s[1..]);
      assert s[..k] == [s[0]] + s[1..][..k - 1];
      k
  }

  /** `re.sub(r"<[^>]+>", " ", s)`: each tag-shaped run, scanned left to right, becomes one space. */
  function StripTags(s: string): (r: string)
    ensures '>' in r ==> '>' in s
    decreases |s|
  {
    if s == [] then []
    else if TagAt(s, 0) then
      var k := GtIndex(s);
      assert s[..k] == s[..1] + s[1..][..k - 1];
      " " + StripTags(s[k + 1..])
    else [s[0]] + StripTags(s[1..])
  }

  lemma StripTagsHead(s: string)
    requires s != [] && s[0] == '>'
    ensures StripTags(s) != [] && StripTags(s)[0] == '>'
  {
  }

  /** No tag-shaped run is left once tags are stripped. */
  lemma {:induction false} StripTagsLeavesNoTag(s: string)
    ensures forall i :: !TagAt(StripTags(s), i)
    decreases |s|
  {
    var r := StripTags(s);
    if s == [] {
    } else if TagAt(s, 0) {
      var k := GtIndex(s);
      var rest := StripTags(s[k + 1..]);
      StripTagsLeavesNoTag(s[k + 1..]);
      assert r == " " + rest;
      forall i ensures !TagAt(r, i) {
        if 1 <= i < |r| - 1 {
          assert r[i..] == rest[i - 1..];
          assert !TagAt(rest, i - 1);
        }
      }
    } else {
      var rest := StripTags(s[1..]);
      StripTagsLeavesNoTag(s[1..]);
      assert r == [s[0]] + rest;
      forall i ensures !TagAt(r, i) {
        if 1 <= i < |r| - 1 {
          assert r[i..] == rest[i - 1..];
          assert !TagAt(rest, i - 1);
        } else if i == 0 && |r| > 1 && s[0] == '<' {
          if s[1] == '>' {
            StripTagsHead(s[1..]);
          } else {
            assert '>' !in s[1..];
            assert r[1..] == rest;
          }
        }
      }
    }
  }

  /** Text without tag-shaped runs is left alone. */
  lemma {:induction false} StripTagsIdentity(s: string)
    requires forall i :: !TagAt(s, i)
    ensures StripTags(s) == s
    decreases |s|
  {
    if s != [] {
      assert !TagAt(s, 0);
      forall i ensures !TagAt(s[1..], i) {
        if 0 <= i < |s| - 2 {
          assert !TagAt(s, i + 1);
          assert s[1..][i + 1..] == s[i + 2..];
        }
      }
      StripTagsIdentity(s[1..]);
    }
  }

  /** `clean_text`: tags become spaces, whitespace runs collapse, ends are trimmed. */
  function CleanText(s: string): string {
    CollapseSpaces(StripTags(s))
  }

  /** Words joined by single spaces, with no `<` anywhere, are already clean. */
  lemma CleanTextOfWords(ws: seq<string>)
    requires forall k :: 0 <= k < |ws| ==> ws[k] != [] && NoSpace(ws[k])
    requires '<' !in Join(ws, " ")
    ensures CleanText(Join(ws, " ")) == Join(ws, " ")
  {
    var j := Join(ws, " ");
    StripTagsIdentity(j);
    WordsOfJoin(ws);
  }

  // ---------------------------------------------------------------------------
  // detect_language

  predicate IsCjk(c: char) { '\U{4e00}' <= c <= '\U{9fff}' }

  function CountCjk(s: string): (n: nat)
    ensures n <= |s|
  {
    if s == [] then 0 else (if IsCjk(s[0]) then 1 else 0) + CountCjk(s[1..])
  }

  function CountLatin(s: string): (n: nat)
    ensures n <= |s|
  {
    if s == [] then 0 else (if IsAsciiLetter(s[0]) then 1 else 0) + CountLatin(s[1..])
  }

  lemma {:induction false} CountCjkPositive(s: string)
    ensures CountCjk(s) > 0 <==> exists i :: 0 <= i < |s| && IsCjk(s[i])
  {
    if s != [] {
      CountCjkPositive(s[1..]);
      if exists i :: 0 <= i < |s[1..]| && IsCjk(s[1..][i]) {
        var i :| 0 <= i < |s[1..]| && IsCjk(s[1..][i]);
        assert IsCjk(s[i + 1]);
      }
      if exists i :: 0 <= i < |s| && IsCjk(s[i]) {
        var i :| 0 <= i < |s| && IsCjk(s[i]);
        if i > 0 { assert IsCjk(s[1..][i - 1]); }
      }
    }
  }

  lemma {:induction false} CountLatinPositive(s: string)
    ensures CountLatin(s) > 0 <==> exists i :: 0 <= i < |s| && IsAsciiLetter(s[i])
  {
    if s != [] {
      CountLatinPositive(s[1..]);
      if exists i :: 0 <= i < |s[1..]| && IsAsciiLetter(s[1..][i]) {
        var i :| 0 <= i < |s[1..]| && IsAsciiLetter(s[1..][i]);
        assert IsAsciiLetter(s[i + 1]);
      }
      if exists i :: 0 <= i < |s| && IsAsciiLetter(s[i]) {
        var i :| 0 <= i < |s| && IsAsciiLetter(s[i]);
        if i > 0 { assert IsAsciiLetter(s[1..][i - 1]); }
      }
    }
  }

  predicate HasCjk(s: string) { exists i :: 0 <= i < |s| && IsCjk(s[i]) }
  predicate HasLatin(s: string) { exists i :: 0 <= i < |s| && IsAsciiLetter(s[i]) }

  /** `detect_language`: which of CJK ideographs and ASCII letters the text contains. */
  function DetectLanguage(text: string): (r: Language)
    ensures r == Zh <==> HasCjk(text) && !HasLatin(text)
    ensures r == En <==> HasLatin(text) && !HasCjk(text)
    ensures r == Mixed <==> HasCjk(text) && HasLatin(text)
    ensures r == Unknown <==> !HasCjk(text) && !HasLatin(text)
  {
    CountCjkPositive(text);
    CountLatinPositive(text);
    if text == [] then Unknown
    else
      var zh := CountCjk(text);
      var en := CountLatin(text);
      if zh > 0 && en == 0 then Zh
      else if en > 0 && zh == 0 then En
      else if zh > 0 && en > 0 then Mixed
      else Unknown
  }

  // ---------------------------------------------------------------------------
  // canonicalize_url

  /** The five components `urlsplit` yields, with the query already split into pairs. */
  datatype UrlParts = UrlParts(scheme: string, netloc: string, path: string,
                               query: seq<(string, string)>, fragment: string)

  const TrackingQueryKeys: set<string> :=
    {"utm_source", "utm_medium", "utm_campaign", "utm_term", "utm_content", "spm", "from", "source"}

  /** The query pairs whose key is not a tracking key, in their original order. */
  function DropTracking(q: seq<(string, string)>): (r: seq<(string, string)>)
    ensures forall x :: multiset(r)[x] == if x.0 in TrackingQueryKeys then 0 else multiset(q)[x]
  {
    if q == [] then []
    else
      assert q == [q[0]] + q[1..];
      (if q[0].0 in TrackingQueryKeys then [] else [q[0]]) + DropTracking(q[1..])
  }

  /**
   * `canonicalize_url` on the structured URL: lower-case scheme and host,
   * no trailing `/` on the path, tracking pairs gone, the rest sorted, no fragment.
   */
  function Canonicalize(u: UrlParts): (c: UrlParts)
    ensures c.scheme == Lower(u.scheme) && c.netloc == Lower(u.netloc) && c.fragment == ""
    ensures c.path == RStripChar(u.path, '/')
    ensures forall x :: multiset(c.query)[x] == if x.0 in TrackingQueryKeys then 0 else multiset(u.query)[x]
    ensures Sorted(c.query, PairLe)
  {
    PairLeTotalOrder();
    SortBySorted(DropTracking(u.query), PairLe);
    UrlParts(Lower(u.scheme), Lower(u.netloc), RStripChar(u.path, '/'),
             SortBy(DropTracking(u.query), PairLe), "")
  }

  /**
   * Two URLs that agree on scheme, host, path and the multiset of their
   * non-tracking query pairs canonicalise identically: neither the order of
   * the parameters, nor tracking parameters, nor the fragment matter.
   */
  lemma CanonicalizeIgnoresOrderAndTracking(u: UrlParts, v: UrlParts)
    requires u.scheme == v.scheme && u.netloc == v.netloc && u.path == v.path
    requires forall x: (string, string) :: x.0 !in TrackingQueryKeys ==> multiset(u.query)[x] == multiset(v.query)[x]
    ensures Canonicalize(u) == Canonicalize(v)
  {
    var a, b := Canonicalize(u).query, Canonicalize(v).query;
    assert a == b by {
      forall x: (string, string) ensures multiset(a)[x] == multiset(b)[x] {
        if x.0 !in TrackingQueryKeys {
          assert multiset(u.query)[x] == multiset(v.query)[x];
        }
      }
      assert multiset(a) == multiset(b);
      PairLeTotalOrder();
      SortedPermutationUnique(a, b, PairLe);
    }
  }

  /** Canonicalising twice is canonicalising once. */
  lemma CanonicalizeIdempotent(u: UrlParts)
    ensures Canonicalize(Canonicalize(u)) == Canonicalize(u)
  {
    var c := Canonicalize(u);
    var cc := Canonicalize(c);
    LowerIdempotent(u.scheme);
    LowerIdempotent(u.netloc);
    assert RStripChar(c.path, '/') == c.path;
    assert multiset(cc.query) == multiset(c.query);
    PairLeTotalOrder();
    SortedPermutationUnique(cc.query, c.query, PairLe);
  }

  /** `urlencode(pairs)`, without percent-escaping. */
  function UrlEncode(q: seq<(string, string)>): string {
    if q == [] then []
    else if |q| == 1 then q[0].0 + "=" + q[0].1
    else q[0].0 + "=" + q[0].1 + "&" + UrlEncode(q[1..])
  }

  /** `urllib.parse.uses_netloc`: the schemes whose URLs carry a network location. */
  const UsesNetloc: set<string> := {
    "", "ftp", "http", "gopher", "nntp", "telnet", "imap", "wais", "file", "mms", "https", "shttp",
    "snews", "prospero", "rtsp", "rtsps", "rtspu", "rsync", "svn", "svn+ssh", "sftp", "nfs", "git",
    "git+ssh", "ws", "wss", "itms-services"}

  /**
   * `urlunsplit`: the `//` authority marker precedes a non-empty network
   * location, a path that itself starts with `//`, and the empty or absolute
   * path of a scheme in `UsesNetloc`.
   */
  function UrlUnsplit(u: UrlParts): string {
    (if u.scheme != [] then u.scheme + ":" else []) + Authority(u) + QueryAndFragment(u)
  }

  /** What `urlunsplit` writes between the scheme and the query. */
  function Authority(u: UrlParts): string {
    if u.netloc != [] then
      "//" + u.netloc + (if u.path != [] && u.path[0] != '/' then "/" + u.path else u.path)
    else if |u.path| >= 2 && u.path[..2] == "//" then "//" + u.path
    else if u.scheme != [] && u.scheme in UsesNetloc && (u.path == [] || u.path[0] == '/') then "//" + u.path
    else u.path
  }

  /** The `?query` and `#fragment` parts, each when non-empty. */
  function QueryAndFragment(u: UrlParts): (r: string)
    ensures r == [] || r[0] == '?' || r[0] == '#'
  {
    var q := UrlEncode(u.query);
    (if q != [] then "?" + q else []) + (if u.fragment != [] then "#" + u.fragment else [])
  }

  /**
   * After a scheme, the output carries the authority marker exactly when
   * there is a network location, the path starts with `//`, or the scheme
   * uses a network location and the path is empty or absolute; so a
   * re-split reads the same (possibly empty) network location back.
   */
  lemma UnsplitAuthority(u: UrlParts)
    requires u.scheme != []
    ensures u.scheme + "://" <= UrlUnsplit(u) <==>
      u.netloc != [] || (|u.path| >= 2 && u.path[..2] == "//")
      || (u.scheme in UsesNetloc && (u.path == [] || u.path[0] == '/'))
  {
    var rest := Authority(u) + QueryAndFragment(u);
    assert UrlUnsplit(u) == u.scheme + ":" + rest;
    MarkerAfterScheme(u.scheme, rest);
    if Authority(u) == u.path {
      NoMarker(u.path, QueryAndFragment(u));
    } else {
      assert rest[..2] == Authority(u)[..2] == "//";
    }
  }

  lemma MarkerAfterScheme(scheme: string, rest: string)
    ensures scheme + "://" <= scheme + ":" + rest <==> "//" <= rest
  {
    var k := |scheme| + 1;
    var whole := scheme + ":" + rest;
    if scheme + "://" <= whole {
      assert whole[k..k + 2] == (scheme + "://")[k..k + 2] == "//";
      assert whole[k..k + 2] == rest[..2];
    }
    if "//" <= rest {
      assert rest == "//" + rest[2..];
      assert whole == (scheme + "://") + rest[2..];
    }
  }

  /** A path without a leading `//`, followed by nothing, a query or a fragment, does not start with `//`. */
  lemma NoMarker(path: string, tail: string)
    requires !(|path| >= 2 && path[..2] == "//")
    requires tail == [] || tail[0] == '?' || tail[0] == '#'
    ensures !("//" <= path + tail)
  {
    if |path| >= 2 {
      assert (path + tail)[..2] == path[..2];
    } else if |path| == 1 && tail != [] {
      assert (path + tail)[1] == tail[0];
    } else if tail != [] {
      assert (path + tail)[0] == tail[0];
    }
  }

  /** `urlunsplit(("http", "", "/a", "", ""))` keeps the empty network location: `http:///a`. */
  lemma UnsplitEmptyNetloc()
    ensures UrlUnsplit(UrlParts("http", "", "/a", [], "")) == "http:///a"
    ensures UrlUnsplit(UrlParts("http", "", "", [], "")) == "http://"
    ensures UrlUnsplit(UrlParts("mailto", "", "x@y", [], "")) == "mailto:x@y"
  {
    assert "http" in UsesNetloc && "mailto" !in UsesNetloc;
    assert "x@y"[0] != '/';
  }

  /**
   * `canonicalize_url(url)`, with `split` standing for `urlsplit` +
   * `parse_qsl`: an `Err` of `split` is the `ValueError` `urlsplit` raises
   * (an unbalanced or invalid bracketed host), and it propagates.
   */
  function CanonicalizeUrl(split: string -> Result<UrlParts>, url: string): (r: Result<string>)
    ensures r.Ok? <==> split(url).Ok?
    ensures r.Err? ==> r.error == split(url).error
  {
    match split(url)
    case Err(e) => Err(e)
    case Ok(parts) => Ok(UrlUnsplit(Canonicalize(parts)))
  }

  // ---------------------------------------------------------------------------
  // is_ai_related, is_within_window, make_item_id

  const AiKeywords: seq<string> := [
    "ai", "aigc", "llm", "agent", "模型", "大模型", "多模态", "生成式", "人工智能",
    "机器学习", "深度学习", "推理", "token", "openai", "anthropic", "deepmind",
    "gpt", "claude", "gemini"]

  predicate IsAiRelated(title: string, content: string, tags: seq<string>) {
    var tagSet := LoweredTags(tags);
    ContainsAny(Lower(title + " " + content), AiKeywords)
    || "ai" in tagSet
    || (("technology" in tagSet || "research" in tagSet || "official" in tagSet) && |title| >= 10)
  }

  predicate IsWithinWindow(target: int, since: int, until: int) { since <= target <= until }

  /** `make_item_id`: the digest of the canonical URL and the stripped, lower-cased title. */
  function MakeItemId(sha256: string -> string, canonicalUrl: string, title: string): string {
    sha256(canonicalUrl + "|" + Lower(Strip(title)))
  }

  /** Items whose URLs differ only in tracking parameters, fragment or parameter order share their id. */
  lemma ItemIdIgnoresTracking(sha256: string -> string, split: string -> Result<UrlParts>,
                              url1: string, url2: string, title: string)
    requires split(url1).Ok? && split(url2).Ok?
    requires split(url1).value.scheme == split(url2).value.scheme && split(url1).value.netloc == split(url2).value.netloc
    requires split(url1).value.path == split(url2).value.path
    requires forall x: (string, string) :: x.0 !in TrackingQueryKeys ==>
      multiset(split(url1).value.query)[x] == multiset(split(url2).value.query)[x]
    ensures CanonicalizeUrl(split, url1).Ok? && CanonicalizeUrl(split, url2).Ok?
    ensures MakeItemId(sha256, CanonicalizeUrl(split, url1).value, title)
         == MakeItemId(sha256, CanonicalizeUrl(split, url2).value, title)
  {
    CanonicalizeIgnoresOrderAndTracking(split(url1).value, split(url2).value);
  }

  // ---------------------------------------------------------------------------
  // normalize_items

  const MaxContent: nat := 5000

  /**
   * What the loop body of `normalize_items` makes of one raw item:
   * `Ok(None)` is `continue`, `Err` the `ValueError` of `canonicalize_url`,
   * which only an item that passed both filters can raise.
   */
  function NormalizeOne(item: RawItem, since: int, until: int,
                        split: string -> Result<UrlParts>, sha256: string -> string): Result<Option<NormalizedItem>>
  {
    var title := CleanText(item.title);
    var content := CleanText(item.content);
    if title == [] || !IsAiRelated(title, content, item.tags) then Ok(None)
    else if item.publishedAt.None? || !IsWithinWindow(item.publishedAt.value, since, until) then Ok(None)
    else
      match CanonicalizeUrl(split, item.url)
      case Err(e) => Err(e)
      case Ok(canonical) => Ok(Some(Build(item, title, content, canonical, sha256)))
  }

  /** The normalized item made from a kept raw item, its cleaned title and content, and its canonical URL. */
  function Build(item: RawItem, title: string, content: string, canonical: string,
                 sha256: string -> string): NormalizedItem
  {
    NormalizedItem(
      MakeItemId(sha256, canonical, title), item.sourceName, item.sourceWeight, item.url,
      canonical, title, if |content| > MaxContent then content[..MaxContent] else content,
      item.publishedAt, item.discoveredAt, DetectLanguage(title + " " + content), item.tags)
  }

  function OptionToSeq<T>(o: Option<T>): seq<T> { if o.Some? then [o.value] else [] }

  /** The loop body kept a value: it neither raised nor continued. */
  predicate Accepted<B>(r: Result<Option<B>>) { r.Ok? && r.value.Some? }

  /**
   * The filter-map of `f` over `s`, in order, built back to front as a loop
   * appending to a list; the first element `f` raises on ends it with that
   * error.
   */
  function KeptOrRaise<A, B>(f: A -> Result<Option<B>>, s: seq<A>): Result<seq<B>>
  {
    if s == [] then Ok([])
    else
      match KeptOrRaise(f, s[..|s| - 1])
      case Err(e) => Err(e)
      case Ok(front) =>
        match f(s[|s| - 1])
        case Err(e) => Err(e)
        case Ok(o) => Ok(front + OptionToSeq(o))
  }

  lemma KeptOrRaiseSnoc<A, B>(f: A -> Result<Option<B>>, s: seq<A>, x: A)
    ensures KeptOrRaise(f, s + [x]) ==
      match KeptOrRaise(f, s)
      case Err(e) => Err(e)
      case Ok(front) => (match f(x) case Err(e) => Err(e) case Ok(o) => Ok(front + OptionToSeq(o)))
  {
    assert (s + [x])[..|s|] == s;
  }

  /**
   * The filter-map succeeds exactly when `f` succeeds on every element, and
   * then holds every value `f` keeps and nothing else, no more than the
   * elements; otherwise its error is that of the first element `f` raises on.
   */
  lemma {:induction false} KeptOrRaiseSound<A, B>(f: A -> Result<Option<B>>, s: seq<A>)
    ensures var r := KeptOrRaise(f, s);
      && (r.Ok? <==> forall k :: 0 <= k < |s| ==> f(s[k]).Ok?)
      && (r.Ok? ==> |r.value| <= |s|)
      && (r.Ok? ==> forall o :: o in r.value ==> exists k :: 0 <= k < |s| && f(s[k]) == Ok(Some(o)))
      && (r.Ok? ==> forall k :: 0 <= k < |s| && Accepted(f(s[k])) ==> f(s[k]).value.value in r.value)
      && (r.Err? ==> exists k :: 0 <= k < |s| && f(s[k]) == Err(r.error) && (forall j :: 0 <= j < k ==> f(s[j]).Ok?))
  {
    if s != [] {
      var init := s[..|s| - 1];
      KeptOrRaiseSound(f, init);
      assert forall k :: 0 <= k < |init| ==> init[k] == s[k];
    }
  }

  /** The list `normalize_items` returns, or the error of the first item whose URL fails to split. */
  function NormalizeAll(items: seq<RawItem>, since: int, until: int,
                        split: string -> Result<UrlParts>, sha256: string -> string): Result<seq<NormalizedItem>>
  {
    KeptOrRaise((item: RawItem) => NormalizeOne(item, since, until, split, sha256), items)
  }

  /**
   * `normalize_items` succeeds exactly when no item raises; then every kept
   * item came from the input and every accepted input is kept; otherwise the
   * error is that of the first item that raises.
   */
  lemma NormalizeAllSound(items: seq<RawItem>, since: int, until: int,
                          split: string -> Result<UrlParts>, sha256: string -> string)
    ensures var r := NormalizeAll(items, since, until, split, sha256);
      && (r.Ok? <==> forall k :: 0 <= k < |items| ==> NormalizeOne(items[k], since, until, split, sha256).Ok?)
      && (r.Ok? ==> |r.value| <= |items|)
      && (r.Ok? ==> forall o :: o in r.value ==>
            exists k :: 0 <= k < |items| && NormalizeOne(items[k], since, until, split, sha256) == Ok(Some(o)))
      && (r.Ok? ==> forall k :: 0 <= k < |items| && Accepted(NormalizeOne(items[k], since, until, split, sha256)) ==>
            NormalizeOne(items[k], since, until, split, sha256).value.value in r.value)
      && (r.Err? ==> exists k ::
            && 0 <= k < |items| && NormalizeOne(items[k], since, until, split, sha256) == Err(r.error)
            && (forall j :: 0 <= j < k ==> NormalizeOne(items[j], since, until, split, sha256).Ok?))
  {
    KeptOrRaiseSound((item: RawItem) => NormalizeOne(item, since, until, split, sha256), items);
  }

  /** What each normalized item satisfies, whatever the raw item was. */
  lemma NormalizeOneShape(item: RawItem, since: int, until: int,
                          split: string -> Result<UrlParts>, sha256: string -> string)
    ensures var r := NormalizeOne(item, since, until, split, sha256);
      r.Ok? && r.value.Some? ==>
        var o := r.value.value;
        o.title != [] && o.title == CleanText(item.title)
        && o.publishedAt.Some? && since <= o.publishedAt.value <= until
        && |o.content| <= MaxContent
        && CanonicalizeUrl(split, item.url) == Ok(o.canonicalUrl)
        && o.itemId == MakeItemId(sha256, o.canonicalUrl, o.title)
        && o.url == item.url && o.sourceName == item.sourceName && o.tags == item.tags
  {
  }

  /**
   * Which raw items `normalize_items` keeps, and which make it raise: those
   * that pass both filters, kept when their URL splits and raising when it
   * does not.
   */
  lemma NormalizeOneKept(item: RawItem, since: int, until: int,
                         split: string -> Result<UrlParts>, sha256: string -> string)
    ensures var r := NormalizeOne(item, since, until, split, sha256);
      var accepted := CleanText(item.title) != [] && IsAiRelated(CleanText(item.title), CleanText(item.content), item.tags)
        && item.publishedAt.Some? && since <= item.publishedAt.value <= until;
      && (r.Ok? && r.value.Some? <==> accepted && split(item.url).Ok?)
      && (r.Err? <==> accepted && split(item.url).Err?)
      && (r.Err? ==> r.error == split(item.url).error)
  {
  }

  /** The loop body of `normalize_items` for one raw item (`Ok(None)`: `continue`). */
  method NormalizeStep(item: RawItem, since: int, until: int,
                       split: string -> Result<UrlParts>, sha256: string -> string)
    returns (r: Result<Option<NormalizedItem>>)
    ensures r == NormalizeOne(item, since, until, split, sha256)
  {
    var title := CleanText(item.title);
    var content := CleanText(item.content);
    if title == [] || !IsAiRelated(title, content, item.tags) {
      return Ok(None);
    }
    if item.publishedAt.None? || !IsWithinWindow(item.publishedAt.value, since, until) {
      return Ok(None);
    }
    var canonical := CanonicalizeUrl(split, item.url);
    if canonical.Err? {
      return Err(canonical.error);
    }
    var itemId := MakeItemId(sha256, canonical.value, title);
    var language := DetectLanguage(title + " " + content);
    r := Ok(Some(NormalizedItem(
      itemId, item.sourceName, item.sourceWeight, item.url, canonical.value, title,
      if |content| > MaxContent then content[..MaxContent] else content,
      item.publishedAt, item.discoveredAt, language, item.tags)));
  }

  /** Every item `normalize_items` returns has a title, a date inside the window and bounded content. */
  lemma NormalizeAllShape(items: seq<RawItem>, since: int, until: int,
                          split: string -> Result<UrlParts>, sha256: string -> string)
    ensures var r := NormalizeAll(items, since, until, split, sha256);
      r.Ok? ==> forall o :: o in r.value ==>
        (o.title != [] && o.publishedAt.Some? && since <= o.publishedAt.value <= until && |o.content| <= MaxContent)
  {
    var r := NormalizeAll(items, since, until, split, sha256);
    NormalizeAllSound(items, since, until, split, sha256);
    if r.Ok? {
      forall o | o in r.value
        ensures o.title != [] && o.publishedAt.Some? && since <= o.publishedAt.value <= until && |o.content| <= MaxContent
      {
        var k :| 0 <= k < |items| && NormalizeOne(items[k], since, until, split, sha256) == Ok(Some(o));
        NormalizeOneShape(items[k], since, until, split, sha256);
      }
    }
  }

  /**
   * `normalize_items`: one pass over the raw items, appending each item that
   * survives; the first URL that fails to split ends it with that error.
   */
  method NormalizeItems(rawItems: seq<RawItem>, since: int, until: int,
                        split: string -> Result<UrlParts>, sha256: string -> string)
    returns (normalized: Result<seq<NormalizedItem>>)
    ensures normalized == NormalizeAll(rawItems, since, until, split, sha256)
    ensures normalized.Ok? ==> forall o :: o in normalized.value ==>
      (o.title != [] && o.publishedAt.Some? && since <= o.publishedAt.value <= until && |o.content| <= MaxContent)
  {
    var kept: seq<NormalizedItem> := [];
    var i := 0;
    while i < |rawItems|
      invariant 0 <= i <= |rawItems|
      invariant NormalizeAll(rawItems[..i], since, until, split, sha256) == Ok(kept)
    {
      var one := NormalizeStep(rawItems[i], since, until, split, sha256);
      if one.Err? {
        NormalizeStepRaised(rawItems, i, kept, since, until, split, sha256);
        return Err(one.error);
      }
      NormalizeStepKept(rawItems, i, kept, since, until, split, sha256);
      kept := kept + OptionToSeq(one.value);
      i := i + 1;
    }
    assert rawItems[..i] == rawItems;
    NormalizeAllShape(rawItems, since, until, split, sha256);
    normalized := Ok(kept);
  }

  lemma CleanExampleTitle1() ensures CleanText("AI 大模型发布") == "AI 大模型发布" {
    assert Join(["AI", "大模型发布"], " ") == "AI 大模型发布";
    CleanTextOfWords(["AI", "大模型发布"]);
  }

  lemma CleanExampleContent1() ensures CleanText("这是一条 AI 新闻") == "这是一条 AI 新闻" {
    assert Join(["这是一条", "AI", "新闻"], " ") == "这是一条 AI 新闻";
    CleanTextOfWords(["这是一条", "AI", "新闻"]);
  }

  lemma CleanExampleTitle3() ensures CleanText("生态合作动态") == "生态合作动态" {
    CleanTextOfWords(["生态合作动态"]);
  }

  lemma CleanExampleContent3() ensures CleanText("不包含显式关键词") == "不包含显式关键词" {
    CleanTextOfWords(["不包含显式关键词"]);
  }

  lemma CanonicalExampleParts()
    ensures Canonicalize(UrlParts("https", "a.com", "/post1", [], "")) == UrlParts("https", "a.com", "/post1", [], "")
  {
    assert Lower("https") == "https";
    assert Lower("a.com") == "a.com";
  }

  lemma CanonicalExampleUrl(split: string -> Result<UrlParts>)
    requires split("https://a.com/post1") == Ok(UrlParts("https", "a.com", "/post1", [], ""))
    ensures CanonicalizeUrl(split, "https://a.com/post1") == Ok("https://a.com/post1")
  {
    CanonicalExampleParts();
    assert UrlUnsplit(UrlParts("https", "a.com", "/post1", [], "")) == "https://a.com/post1";
  }

  lemma ExampleOneRelated()
    ensures IsAiRelated("AI 大模型发布", "这是一条 AI 新闻", [])
  {
    var text := "AI 大模型发布" + " " + "这是一条 AI 新闻";
    var merged := Lower(text);
    assert text[0] == 'A' && text[1] == 'I';
    assert merged[..2] == "ai";
    assert OccursAt(merged, AiKeywords[0], 0);
  }

  lemma ExampleOneKept(now: int, split: string -> Result<UrlParts>, sha256: string -> string)
    requires split("https://a.com/post1") == Ok(UrlParts("https", "a.com", "/post1", [], ""))
    ensures var r := NormalizeOne(
        RawItem("s1", 1.0, "https://a.com/post1", "AI 大模型发布", "这是一条 AI 新闻", Some(now - 7200), now, []),
        now - 86400, now, split, sha256);
      r.Ok? && r.value.Some? && r.value.value.canonicalUrl == "https://a.com/post1"
  {
    CleanExampleTitle1();
    CleanExampleContent1();
    CanonicalExampleUrl(split);
    ExampleOneRelated();
    NormalizeOneKept(
        RawItem("s1", 1.0, "https://a.com/post1", "AI 大模型发布", "这是一条 AI 新闻", Some(now - 7200), now, []),
        now - 86400, now, split, sha256);
    NormalizeOneShape(
        RawItem("s1", 1.0, "https://a.com/post1", "AI 大模型发布", "这是一条 AI 新闻", Some(now - 7200), now, []),
        now - 86400, now, split, sha256);
  }

  lemma ExampleTwoDropped(now: int, split: string -> Result<UrlParts>, sha256: string -> string)
    ensures NormalizeOne(
        RawItem("s1", 1.0, "https://a.com/post2", "AI 行业动态", "旧新闻", Some(now - 108000), now, []),
        now - 86400, now, split, sha256) == Ok(None)
  {
  }

  lemma NormalizeAllSnoc(items: seq<RawItem>, x: RawItem, since: int, until: int,
                         split: string -> Result<UrlParts>, sha256: string -> string)
    ensures NormalizeAll(items + [x], since, until, split, sha256) ==
      match NormalizeAll(items, since, until, split, sha256)
      case Err(e) => Err(e)
      case Ok(front) =>
        (match NormalizeOne(x, since, until, split, sha256) case Err(e) => Err(e) case Ok(o) => Ok(front + OptionToSeq(o)))
  {
    KeptOrRaiseSnoc((item: RawItem) => NormalizeOne(item, since, until, split, sha256), items, x);
  }

  /** One more element of the input adds what `NormalizeOne` makes of it, or its error. */
  lemma NormalizeAllPrefix(items: seq<RawItem>, i: int, since: int, until: int,
                           split: string -> Result<UrlParts>, sha256: string -> string)
    requires 0 <= i < |items|
    ensures NormalizeAll(items[..i + 1], since, until, split, sha256) ==
      match NormalizeAll(items[..i], since, until, split, sha256)
      case Err(e) => Err(e)
      case Ok(front) =>
        (match NormalizeOne(items[i], since, until, split, sha256) case Err(e) => Err(e) case Ok(o) => Ok(front + OptionToSeq(o)))
  {
    assert items[..i + 1] == items[..i] + [items[i]];
    NormalizeAllSnoc(items[..i], items[i], since, until, split, sha256);
  }

  lemma NormalizeStepKept(items: seq<RawItem>, i: int, kept: seq<NormalizedItem>, since: int, until: int,
                          split: string -> Result<UrlParts>, sha256: string -> string)
    requires 0 <= i < |items| && NormalizeAll(items[..i], since, until, split, sha256) == Ok(kept)
    requires NormalizeOne(items[i], since, until, split, sha256).Ok?
    ensures NormalizeAll(items[..i + 1], since, until, split, sha256)
         == Ok(kept + OptionToSeq(NormalizeOne(items[i], since, until, split, sha256).value))
  {
    NormalizeAllPrefix(items, i, since, until, split, sha256);
  }

  lemma NormalizeStepRaised(items: seq<RawItem>, i: int, kept: seq<NormalizedItem>, since: int, until: int,
                            split: string -> Result<UrlParts>, sha256: string -> string)
    requires 0 <= i < |items| && NormalizeAll(items[..i], since, until, split, sha256) == Ok(kept)
    requires NormalizeOne(items[i], since, until, split, sha256).Err?
    ensures NormalizeAll(items, since, until, split, sha256) == Err(NormalizeOne(items[i], since, until, split, sha256).error)
  {
    NormalizeAllPrefix(items, i, since, until, split, sha256);
    NormalizeAllRaised(items, i + 1, since, until, split, sha256);
  }

  /** Once an item has raised, the items after it are not read: the error is the run's. */
  lemma {:induction false} NormalizeAllRaised(items: seq<RawItem>, n: int, since: int, until: int,
                                             split: string -> Result<UrlParts>, sha256: string -> string)
    requires 0 <= n <= |items| && NormalizeAll(items[..n], since, until, split, sha256).Err?
    ensures NormalizeAll(items, since, until, split, sha256) == NormalizeAll(items[..n], since, until, split, sha256)
    decreases |items| - n
  {
    if n < |items| {
      NormalizeAllPrefix(items, n, since, until, split, sha256);
      NormalizeAllRaised(items, n + 1, since, until, split, sha256);
    } else {
      assert items[..n] == items;
    }
  }

  /**
   * Of two AI items published 2 and 30 hours before `now`, a window of the
   * last 24 hours keeps only the first, under its canonical URL.
   */
  lemma NormalizeWindowExample(now: int, split: string -> Result<UrlParts>, sha256: string -> string)
    requires split("https://a.com/post1") == Ok(UrlParts("https", "a.com", "/post1", [], ""))
    ensures var out := NormalizeAll([
        RawItem("s1", 1.0, "https://a.com/post1", "AI 大模型发布", "这是一条 AI 新闻", Some(now - 7200), now, []),
        RawItem("s1", 1.0, "https://a.com/post2", "AI 行业动态", "旧新闻", Some(now - 108000), now, [])],
        now - 86400, now, split, sha256);
      out.Ok? && |out.value| == 1 && out.value[0].canonicalUrl == "https://a.com/post1"
  {
    var a := RawItem("s1", 1.0, "https://a.com/post1", "AI 大模型发布", "这是一条 AI 新闻", Some(now - 7200), now, []);
    var b := RawItem("s1", 1.0, "https://a.com/post2", "AI 行业动态", "旧新闻", Some(now - 108000), now, []);
    ExampleOneKept(now, split, sha256);
    ExampleTwoDropped(now, split, sha256);
    NormalizeAllSnoc([], a, now - 86400, now, split, sha256);
    assert [] + [a] == [a];
    NormalizeAllSnoc([a], b, now - 86400, now, split, sha256);
    assert [a] + [b] == [a, b];
  }

  /** An item dated outside the window is dropped before its URL is split, so an unsplittable URL there does not fail the run. */
  lemma NormalizeSkipsBeforeSplit(item: RawItem, since: int, until: int, split: string -> Result<UrlParts>, sha256: string -> string)
    requires split(item.url).Err?
    requires item.publishedAt.Some? && !IsWithinWindow(item.publishedAt.value, since, until)
    ensures NormalizeAll([item], since, until, split, sha256) == Ok([])
  {
    assert [] + [item] == [item];
    OutsideWindowDropped(item, since, until, split, sha256);
    NormalizeAllSnoc([], item, since, until, split, sha256);
    assert NormalizeAll([], since, until, split, sha256) == Ok([]);
    assert NormalizeAll([] + [item], since, until, split, sha256) == Ok([] + OptionToSeq<NormalizedItem>(None));
    assert [] + OptionToSeq<NormalizedItem>(None) == [];
    assert NormalizeAll([item], since, until, split, sha256) == NormalizeAll([] + [item], since, until, split, sha256);
  }

  /** An item dated outside the window is dropped whatever its URL. */
  lemma OutsideWindowDropped(item: RawItem, since: int, until: int, split: string -> Result<UrlParts>, sha256: string -> string)
    requires item.publishedAt.Some? && !IsWithinWindow(item.publishedAt.value, since, until)
    ensures NormalizeOne(item, since, until, split, sha256) == Ok(None)
  {
  }

  /** An accepted item whose URL does not split fails the whole of `normalize_items`. */
  lemma NormalizeRaisesOnAccepted(now: int, split: string -> Result<UrlParts>, sha256: string -> string)
    requires split("http://[::1/x").Err?
    ensures NormalizeAll([
        RawItem("s1", 1.0, "http://[::1/x", "AI 大模型发布", "这是一条 AI 新闻", Some(now - 7200), now, [])],
        now - 86400, now, split, sha256) == Err(split("http://[::1/x").error)
  {
    var a := RawItem("s1", 1.0, "http://[::1/x", "AI 大模型发布", "这是一条 AI 新闻", Some(now - 7200), now, []);
    assert [] + [a] == [a];
    CleanExampleTitle1();
    CleanExampleContent1();
    ExampleOneRelated();
    NormalizeOneKept(a, now - 86400, now, split, sha256);
    NormalizeAllSnoc([], a, now - 86400, now, split, sha256);
  }

  /** A title without keywords still qualifies through an `ai` tag. */
  lemma NormalizeTagFallbackExample(now: int, split: string -> Result<UrlParts>, sha256: string -> string)
    requires split("https://a.com/post3").Ok?
    ensures var out := NormalizeAll([
        RawItem("s1", 1.0, "https://a.com/post3", "生态合作动态", "不包含显式关键词", Some(now - 3600), now, ["ai", "industry"])],
        now - 86400, now, split, sha256);
      out.Ok? && |out.value| == 1
  {
    var a := RawItem("s1", 1.0, "https://a.com/post3", "生态合作动态", "不包含显式关键词", Some(now - 3600), now, ["ai", "industry"]);
    CleanExampleTitle3();
    CleanExampleContent3();
    ExampleThreeRelated();
    NormalizeOneKept(a, now - 86400, now, split, sha256);
    NormalizeAllSnoc([], a, now - 86400, now, split, sha256);
    assert [] + [a] == [a];
  }

  lemma ExampleThreeRelated()
    ensures IsAiRelated("生态合作动态", "不包含显式关键词", ["ai", "industry"])
  {
    var tags := ["ai", "industry"];
    assert Lower(tags[0]) == "ai";
    assert "ai" in LoweredTags(tags);
  }
}
