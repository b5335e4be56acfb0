/**
 * The collectors of `app/collector.py` around the date parser: the keyword
 * and author allow-lists, the publisher byline, the Sogou redirect page,
 * the choice of a link's date element and container, the anchor filter,
 * and the loops of the HTML, WeChat-profile and RSS collectors with their
 * de-duplication and 30-item cap.
 *
 * The network, BeautifulSoup, feedparser, `urljoin`, `html.unescape`,
 * `json.loads` and user-supplied regular expressions are the fields of a
 * `Web` value: functions the model calls but does not look inside.
 */
module Collector {
  import opened Wrappers
  import opened Text
  import opened Calendar
  import opened Models
  import Regex
  import TimeParse

  /** An optional configuration string that Python would find truthy. */
  predicate Given(o: Option<string>) {
    o.Some? && o.value != ""
  }

  // ---------------------------------------------------------------------------
  // Keyword and author allow-lists

  /** `[kw.strip() for kw in keywords if kw and kw.strip()]`. */
  function RequiredKeywords(keywords: seq<string>): (r: seq<string>)
    ensures forall v :: v in r <==> v != "" && exists k :: 0 <= k < |keywords| && Strip(keywords[k]) == v
  {
    var stripped := seq(|keywords|, k requires 0 <= k < |keywords| => Strip(keywords[k]));
    assert forall v :: v in stripped <==> exists k :: 0 <= k < |keywords| && Strip(keywords[k]) == v by {
      forall v | v in stripped ensures exists k :: 0 <= k < |keywords| && Strip(keywords[k]) == v {
        var k :| 0 <= k < |stripped| && stripped[k] == v;
      }
      forall v | exists k :: 0 <= k < |keywords| && Strip(keywords[k]) == v ensures v in stripped {
        var k :| 0 <= k < |keywords| && Strip(keywords[k]) == v;
        assert stripped[k] == v;
      }
    }
    NonEmpty(stripped)
  }

  /** `any(kw.lower() in lowered for kw in required)`. */
  function AnyKeyword(required: seq<string>, lowered: string): (r: bool)
    ensures r <==> exists v :: v in required && Contains(lowered, Lower(v))
  {
    if required == [] then false
    else
      assert forall v :: v in required <==> v == required[0] || v in required[1..];
      Contains(lowered, Lower(required[0])) || AnyKeyword(required[1..], lowered)
  }

  /**
   * The allow-list test of `_matches_required_keywords` and
   * `_matches_required_author_keywords`: a list that is empty once its
   * entries are trimmed accepts everything; otherwise some trimmed keyword,
   * lower-cased, must occur in the lower-cased text.
   */
  function Allows(keywords: seq<string>, lowered: string): (r: bool)
    ensures r <==> ((forall kw :: kw in keywords ==> Strip(kw) == "")
                    || exists kw :: kw in keywords && Strip(kw) != "" && Contains(lowered, Lower(Strip(kw))))
  {
    var required := RequiredKeywords(keywords);
    assert required == [] <==> forall kw :: kw in keywords ==> Strip(kw) == "" by {
      if required != [] {
        assert required[0] in required;
        var k :| 0 <= k < |keywords| && Strip(keywords[k]) == required[0];
        assert keywords[k] in keywords;
      }
      forall kw | kw in keywords && Strip(kw) != "" ensures Strip(kw) in required {
        var k :| 0 <= k < |keywords| && keywords[k] == kw;
      }
    }
    assert AnyKeyword(required, lowered) <==> exists kw :: kw in keywords && Strip(kw) != "" && Contains(lowered, Lower(Strip(kw))) by {
      if AnyKeyword(required, lowered) {
        var v :| v in required && Contains(lowered, Lower(v));
        var k :| 0 <= k < |keywords| && Strip(keywords[k]) == v;
        assert keywords[k] in keywords;
      }
      if exists kw :: kw in keywords && Strip(kw) != "" && Contains(lowered, Lower(Strip(kw))) {
        var kw :| kw in keywords && Strip(kw) != "" && Contains(lowered, Lower(Strip(kw)));
        var k :| 0 <= k < |keywords| && keywords[k] == kw;
        assert Strip(kw) in required;
      }
    }
    required == [] || AnyKeyword(required, lowered)
  }

  /** `_matches_required_keywords`: the parts joined with spaces, lower-cased, searched. */
  function MatchesKeywords(source: SourceConfig, parts: seq<string>): bool {
    Allows(source.requiredKeywordsAny, Lower(Join(parts, " ")))
  }

  /** `_matches_required_author_keywords`. */
  function MatchesAuthor(source: SourceConfig, author: string): bool {
    Allows(source.requiredAuthorKeywordsAny, Lower(author))
  }

  /** The author filter does not see case: an author and its lower-cased form pass or fail together. */
  lemma AuthorCaseBlind(source: SourceConfig, author: string)
    ensures MatchesAuthor(source, author) == MatchesAuthor(source, Lower(author))
  {
    LowerIdempotent(author);
  }

  // ---------------------------------------------------------------------------
  // Publisher bylines

  /** `[A-Za-z0-9_\-一-鿿·]`. */
  predicate NameChar(c: char) {
    IsAsciiLetter(c) || IsDigit(c) || c == '_' || c == '-' || ('一' <= c <= '鿿') || c == '·'
  }

  /** `[^\s，。；;、"“”'’<]`. */
  /** The punctuation trimmed from both ends of a captured name: `.,;:，。；："'“”’`. */
  predicate TrimChar(c: char) {
    c == '.' || c == ',' || c == ';' || c == ':' || c == '，' || c == '。' || c == '；' || c == '：'
    || c == '"' || c == '\'' || c == '“' || c == '”' || c == '’'
  }

  predicate AccountChar(c: char) {
    !IsSpace(c) && c !in "，。；;、\"“”'’<"
  }

  /** The byline patterns, in the order they are tried; group 1 is the name. */
  function PublisherPatterns(): seq<Regex.Re> {
    [ Regex.Seq([Regex.Lit("本文来自微信公众号"), Regex.Class(Regex.AnyOf(":：")), Regex.Star(IsSpace),
                 Regex.Group(1, Regex.Between(AccountChar, 2, 40))]),
      Regex.Seq([Regex.Lit("作者"), Regex.Star(IsSpace), Regex.Class(Regex.AnyOf("：:")), Regex.Star(IsSpace),
                 Regex.Opt(Regex.Class(Regex.AnyOf("\"“"))), Regex.Group(1, Regex.Between(NameChar, 2, 40))]),
      Regex.Seq([Regex.Lit("作者"), Regex.Star(IsSpace), Regex.Lit("\""), Regex.Group(1, Regex.Between(NameChar, 2, 40)),
                 Regex.Lit("\"")]),
      Regex.Seq([Regex.Lit("来源"), Regex.Star(IsSpace), Regex.Class(Regex.AnyOf("：:")), Regex.Star(IsSpace),
                 Regex.Group(1, Regex.Between(NameChar, 2, 40))]) ]
  }


  /** Neither end of `s` is a character `CleanPublisher` trims. */
  predicate Trimmed(s: string) {
    s != "" ==> !TrimChar(s[0]) && !TrimChar(s[|s| - 1])
  }

  /** `capture.strip().strip(chars)` with the `TrimChar` characters. */
  function CleanPublisher(capture: string): (r: string)
    ensures |r| <= |capture|
    ensures Trimmed(r)
  {
    StripBy(Strip(capture), TrimChar)
  }

  /** `re.search(pattern, payload).group(1)`, when the pattern matches. */
  function Captured(payload: string, re: Regex.Re): Option<string> {
    match Regex.Search(re, payload)
    case None => None
    case Some(f) => Regex.GroupText(payload, f, 1)
  }

  /** The cleaned capture, when it has 2 to 40 characters. */
  function Byline(capture: Option<string>): (r: Option<string>)
    ensures r.Some? ==> 2 <= |r.value| <= 40 && Trimmed(r.value)
  {
    if capture.None? then None
    else
      var name := CleanPublisher(capture.value);
      if 2 <= |name| <= 40 then Some(name) else None
  }

  /** The first name present, or "". */
  function FirstName(names: seq<Option<string>>): (r: string)
    requires forall k :: 0 <= k < |names| && names[k].Some? ==> names[k].value != ""
    ensures r == "" <==> forall k :: 0 <= k < |names| ==> names[k].None?
    ensures r != "" ==> exists k :: (0 <= k < |names| && names[k] == Some(r)
      && forall j :: 0 <= j < k ==> names[j].None?)
  {
    if names == [] then ""
    else if names[0].Some? then names[0].value
    else
      var rest := FirstName(names[1..]);
      assert forall k :: 1 <= k < |names| ==> names[k] == names[1..][k - 1];
      assert rest != "" ==> exists k :: (0 <= k < |names| && names[k] == Some(rest)
        && forall j :: 0 <= j < k ==> names[j].None?) by {
        if rest != "" {
          var k :| 0 <= k < |names[1..]| && names[1..][k] == Some(rest) && forall j :: 0 <= j < k ==> names[1..][j].None?;
          assert names[k + 1] == Some(rest);
        }
      }
      rest
  }

  /** The byline of each capture, in pattern order. */
  function Bylines(captures: seq<Option<string>>): (r: seq<Option<string>>)
    ensures |r| == |captures|
    ensures forall k :: 0 <= k < |r| ==> r[k] == Byline(captures[k])
  {
    seq(|captures|, k requires 0 <= k < |captures| => Byline(captures[k]))
  }

  /** The first name present is one of the names present. */
  lemma {:induction false} FirstNameBounded(names: seq<Option<string>>)
    requires forall k :: 0 <= k < |names| && names[k].Some? ==> 2 <= |names[k].value| <= 40
    ensures var r := FirstName(names); r == "" || 2 <= |r| <= 40
  {
    if names != [] && names[0].None? {
      assert forall k :: 1 <= k < |names| ==> names[k] == names[1..][k - 1];
      FirstNameBounded(names[1..]);
    }
  }

  /** A publisher name is a byline, so it is empty or 2 to 40 characters long. */
  lemma PublisherShape(captures: seq<Option<string>>)
    ensures var r := FirstName(Bylines(captures));
      r == "" || 2 <= |r| <= 40
  {
    FirstNameBounded(Bylines(captures));
  }

  /** `_extract_publisher_from_text`: each byline pattern searched in the HTML-unescaped text. */
  function ExtractPublisher(text: string, unescape: string -> string): string {
    var payload := unescape(text);
    var patterns := PublisherPatterns();
    FirstName(Bylines(seq(|patterns|, k requires 0 <= k < |patterns| => Captured(payload, patterns[k]))))
  }

  // ---------------------------------------------------------------------------
  // Sogou redirect pages

  /** `url \+= '([^']+)';`. */
  function RedirectChunk(): Regex.Re {
    Regex.Seq([Regex.Lit("url += '"), Regex.Group(1, Regex.Plus(Regex.NoneOf("'"))), Regex.Lit("';")])
  }

  /** The junk characters the redirect script scatters through the address. */
  function Unscramble(s: string): string {
    Replace(Replace(Replace(s, "\n", ""), " ", ""), "@", "")
  }

  /** Unscrambling removes exactly the newlines, spaces and at-signs, keeping the rest in order. */
  lemma UnscrambleDrops(s: string)
    ensures Unscramble(s) == Without(Without(Without(s, '\n'), ' '), '@')
    ensures forall c :: c in Unscramble(s) <==> c in s && c != '\n' && c != ' ' && c != '@'
  {
    ReplaceCharByNothing(s, '\n');
    assert "\n" == ['\n'] && " " == [' '] && "@" == ['@'];
    ReplaceCharByNothing(Without(s, '\n'), ' ');
    ReplaceCharByNothing(Without(Without(s, '\n'), ' '), '@');
  }

  /** `_extract_sogou_redirect_url`: the script's chunks joined and unscrambled, kept only when the result is an http address. */
  function SogouRedirectUrl(html: string): (r: Option<string>)
    ensures r.Some? ==> StartsWith(r.value, "http") && '\n' !in r.value && ' ' !in r.value && '@' !in r.value
    ensures r.None? <==> Regex.Search(RedirectChunk(), html).None?
                         || !StartsWith(Unscramble(Join(Regex.FindAll(RedirectChunk(), html, 1), "")), "http")
  {
    var chunks := Regex.FindAll(RedirectChunk(), html, 1);
    Regex.FindAllEmpty(RedirectChunk(), html, 1);
    if chunks == [] then None
    else
      var url := Unscramble(Join(chunks, ""));
      UnscrambleDrops(Join(chunks, ""));
      if StartsWith(url, "http") then Some(url) else None
  }

  // ---------------------------------------------------------------------------
  // The date element nearest a link

  /** `(abs(delta), 0 if delta >= 0 else 1)`: how far an element is from the anchor in document order. */
  datatype Distance = Distance(gap: nat, before: nat)

  /** The distance of an element at `index`; an element missing from the index counts as the anchor's own position. */
  function DistanceOf(index: Option<nat>, anchor: nat): Distance {
    var at := if index.Some? then index.value else anchor;
    if at >= anchor then Distance(at - anchor, 0) else Distance(anchor - at, 1)
  }

  /** Tuple order on distances. */
  predicate Closer(a: Distance, b: Distance) {
    a.gap < b.gap || (a.gap == b.gap && a.before < b.before)
  }

  /** `min` over the first `n` candidates: a closest one, the earliest of them. */
  function NearestIn(cands: seq<Option<nat>>, anchor: nat, n: nat): (r: nat)
    requires 1 <= n <= |cands|
    ensures r < n
    ensures forall k :: 0 <= k < n ==> !Closer(DistanceOf(cands[k], anchor), DistanceOf(cands[r], anchor))
    ensures forall k :: 0 <= k < r ==> Closer(DistanceOf(cands[r], anchor), DistanceOf(cands[k], anchor))
  {
    if n == 1 then 0
    else
      var best := NearestIn(cands, anchor, n - 1);
      if Closer(DistanceOf(cands[n - 1], anchor), DistanceOf(cands[best], anchor)) then n - 1 else best
  }

  /**
   * `_pick_nearest_date_elem` over the candidates' positions among the
   * container's tags: no candidate gives nothing, a single one or an
   * anchor missing from the index gives the first, otherwise the closest.
   */
  function NearestDate(cands: seq<Option<nat>>, anchor: Option<nat>): (r: Option<nat>)
    ensures r.None? <==> cands == []
    ensures r.Some? ==> r.value < |cands|
    ensures cands != [] && (|cands| == 1 || anchor.None?) ==> r == Some(0)
  {
    if cands == [] then None
    else if |cands| == 1 || anchor.None? then Some(0)
    else Some(NearestIn(cands, anchor.value, |cands|))
  }

  /** Between two elements equally far from the anchor, one after it and one before, the one before is never picked. */
  lemma NearestPrefersFollowing(cands: seq<Option<nat>>, anchor: nat, after: nat, before: nat, gap: nat)
    requires 2 <= |cands| && after < |cands| && before < |cands|
    requires 0 < gap <= anchor
    requires cands[after] == Some(anchor + gap) && cands[before] == Some(anchor - gap)
    ensures NearestDate(cands, Some(anchor)) != Some(before)
  {
    assert Closer(DistanceOf(cands[after], anchor), DistanceOf(cands[before], anchor));
  }

  /** The picked element is at least as close as every candidate, and strictly closer than those before it. */
  lemma NearestIsClosest(cands: seq<Option<nat>>, anchor: nat)
    requires 2 <= |cands|
    ensures var r := NearestDate(cands, Some(anchor)).value;
      && (forall k :: 0 <= k < |cands| ==> DistanceOf(cands[r], anchor).gap <= DistanceOf(cands[k], anchor).gap)
      && (forall k :: 0 <= k < r ==> Closer(DistanceOf(cands[r], anchor), DistanceOf(cands[k], anchor)))
  {
    var r := NearestIn(cands, anchor, |cands|);
    assert forall k :: 0 <= k < |cands| ==> !Closer(DistanceOf(cands[k], anchor), DistanceOf(cands[r], anchor));
  }

  /** The index-building loop of `_pick_nearest_date_elem`, keeping the running minimum. */
  method PickNearestDateElem(cands: seq<Option<nat>>, anchor: Option<nat>) returns (r: Option<nat>)
    ensures r == NearestDate(cands, anchor)
  {
    if |cands| == 0 {
      return None;
    }
    if |cands| == 1 || anchor.None? {
      return Some(0);
    }
    var best := 0;
    var i := 1;
    while i < |cands|
      invariant 1 <= i <= |cands|
      invariant best == NearestIn(cands, anchor.value, i)
    {
      if Closer(DistanceOf(cands[i], anchor.value), DistanceOf(cands[best], anchor.value)) {
        best := i;
      }
      i := i + 1;
    }
    return Some(best);
  }

  // ---------------------------------------------------------------------------
  // The page a link list is read from

  /** An element the date selector matched: its position among the container's tags, its attributes and its text. */
  datatype DateElem = DateElem(index: Option<nat>, attrs: map<string, string>, text: string)

  /**
   * An element seen as a container: its tag name (`""` for none), its
   * text, the text of the first element the author selector matches in
   * it, the elements the date selector matches in it, and the position of
   * each anchor (by id) among its tags.
   */
  datatype Node = Node(name: string, text: string, author: Option<string>, dateElems: seq<DateElem>,
                       anchorIndex: map<nat, nat>)

  /** A link the article selector matched: its id, `href`, stripped text and its ancestors, parent first. */
  datatype PageAnchor = PageAnchor(id: nat, href: Option<string>, text: string, ancestors: seq<Node>)

  /** An item container and the anchors the article selector matches inside it, in document order. */
  datatype Block = Block(container: Node, anchors: seq<PageAnchor>)

  /** A listing page: the item containers, and the anchors the article selector matches in the whole page. */
  datatype Page = Page(blocks: seq<Block>, anchors: seq<PageAnchor>)

  /**
   * What the collectors use without looking inside: `urljoin`, a search
   * with a configured pattern, the HTML and JSON parsers, `html.unescape`,
   * a GET that yields the body or nothing on any failure, and
   * `_to_canonical_wechat_article_url`.
   */
  datatype Web = Web(
    urljoin: (string, string) -> string,
    searches: (string, string) -> bool,
    searchText: string -> string -> Option<string>,
    fuzzy: string -> Option<int>,
    decode: string -> Option<TimeParse.Json>,
    readArticle: string -> TimeParse.ArticlePage,
    pageText: string -> string,
    unescape: string -> string,
    fetch: string -> Option<string>,
    canonical: string -> string)

  // ---------------------------------------------------------------------------
  // The container a link's date is looked for in

  /** The walk stops at a node without a name, at `body` or `html`, and at a node holding a date element. */
  predicate StopsWalk(n: Node) {
    n.name == "" || n.name == "body" || n.name == "html" || n.dateElems != []
  }

  /** The walk climbs at most this many levels above the parent. */
  const MaxClimb: nat := 8

  /** Where the climb from `i` ends: the first stopping ancestor, or the one `MaxClimb` levels up. */
  function ClimbFrom(ancestors: seq<Node>, i: nat): (r: nat)
    requires i <= MaxClimb && i <= |ancestors|
    ensures i <= r <= MaxClimb && r <= |ancestors|
    ensures forall k :: i <= k < r ==> !StopsWalk(ancestors[k])
    ensures r < MaxClimb && r < |ancestors| ==> StopsWalk(ancestors[r])
    decreases MaxClimb - i
  {
    if i == MaxClimb || i == |ancestors| || StopsWalk(ancestors[i]) then i else ClimbFrom(ancestors, i + 1)
  }

  /** The container of a link: the ancestor the climb ends at, or nothing when it runs off the top. */
  function ContainerOf(ancestors: seq<Node>): Option<Node> {
    var i := ClimbFrom(ancestors, 0);
    if i < |ancestors| then Some(ancestors[i]) else None
  }

  /** The `while` loop of `_extract_page_links` that climbs from a link to its container. */
  method WalkToContainer(ancestors: seq<Node>) returns (container: Option<Node>)
    ensures container == ContainerOf(ancestors)
  {
    var depth := 0;
    while depth < |ancestors| && depth < MaxClimb && !StopsWalk(ancestors[depth])
      invariant depth <= |ancestors| && depth <= MaxClimb
      invariant ClimbFrom(ancestors, depth) == ClimbFrom(ancestors, 0)
    {
      depth := depth + 1;
    }
    container := if depth < |ancestors| then Some(ancestors[depth]) else None;
  }

  // ---------------------------------------------------------------------------
  // Which anchors become links

  /** Title words that mark navigation rather than news. */
  const NoiseTitleWords: seq<string> :=
    ["登录", "注册", "关于", "联系我们", "订阅", "隐私", "条款", "下载", "交流群", "公众号", " app", "app ", "learn more", "more"]

  /** `href` prefixes that are not articles. */
  const SkippedHrefPrefixes: seq<string> := ["#", "javascript:", "mailto:"]

  /** The anchor text looks like a headline: 8 characters or more, no noise word, not ending in "app". */
  predicate HeadlineText(text: string) {
    var lowered := Lower(Strip(text));
    |Strip(text)| >= 8 && !ContainsAny(lowered, NoiseTitleWords) && !EndsWith(lowered, "app")
  }

  /** The link's `href` is not an in-page, script or mail link. */
  predicate ArticleHref(href: string) {
    forall p :: p in SkippedHrefPrefixes ==> !StartsWith(href, p)
  }

  /**
   * The address the first half of `_check_and_yield` accepts for an
   * anchor: the `href` joined to the source's address, or nothing.
   */
  function AnchorUrl(source: SourceConfig, href: Option<string>, text: string, web: Web): (r: Option<string>)
    ensures r.Some? <==> (href.Some? && href.value != "" && HeadlineText(text) && ArticleHref(href.value)
      && StartsWith(web.urljoin(source.url, href.value), "http")
      && (Given(source.linkPattern) ==> web.searches(source.linkPattern.value, web.urljoin(source.url, href.value))))
    ensures r.Some? ==> r.value == web.urljoin(source.url, href.value) && StartsWith(r.value, "http")
  {
    if href.None? || href.value == "" || text == "" then None
    else if !HeadlineText(text) then None
    else if !ArticleHref(href.value) then None
    else
      var url := web.urljoin(source.url, href.value);
      if !StartsWith(url, "http") then None
      else if Given(source.linkPattern) && !web.searches(source.linkPattern.value, url) then None
      else Some(url)
  }

  /** A link the page yields: title, address, publication instant if found, container text and author. */
  datatype LinkRecord = LinkRecord(title: string, url: string, published: Option<int>, containerText: string, author: string)

  /** The configured pattern for date text, as a search. */
  function DateSearch(source: SourceConfig, web: Web): Option<string -> Option<string>> {
    if Given(source.dateRegex) then Some(web.searchText(source.dateRegex.value)) else None
  }

  /** `_extract_date_from_element` for one date element of a source. */
  function ElemDate(source: SourceConfig, e: DateElem, ref: int, web: Web): Option<int>
    requires InRange(ref)
  {
    var attr := if Given(source.dateAttr) && source.dateAttr.value in e.attrs then Some(e.attrs[source.dateAttr.value]) else None;
    TimeParse.ElementDate(attr, e.text, DateSearch(source, web), ref, web.fuzzy)
  }

  /** The texts of the nearest five ancestors, parent first. */
  function NearbyTexts(ancestors: seq<Node>): (r: seq<string>)
    ensures |r| <= 5
  {
    var n := if |ancestors| < 5 then |ancestors| else 5;
    seq(n, k requires 0 <= k < n => ancestors[k].text)
  }

  /**
   * A link's date: from the date element nearest the anchor in its
   * container when a date selector is configured, else from the nearest
   * ancestor whose text holds an absolute date.
   */
  function LinkDate(source: SourceConfig, a: PageAnchor, container: Option<Node>, ref: int, web: Web): (r: Option<int>)
    requires InRange(ref)
    ensures r.None? ==> TimeParse.FirstParsed(NearbyTexts(a.ancestors), TimeParse.HtmlDateParser(ref, false, web.fuzzy)).None?
  {
    var fromElem :=
      if Given(source.dateSelector) && container.Some? then
        var elems := container.value.dateElems;
        var cands := seq(|elems|, k requires 0 <= k < |elems| => elems[k].index);
        var anchor := if a.id in container.value.anchorIndex then Some(container.value.anchorIndex[a.id]) else None;
        var pick := NearestDate(cands, anchor);
        if pick.Some? then ElemDate(source, elems[pick.value], ref, web) else None
      else None;
    if fromElem.Some? then fromElem
    else TimeParse.FirstParsed(NearbyTexts(a.ancestors), TimeParse.HtmlDateParser(ref, false, web.fuzzy))
  }

  /** `_check_and_yield`: the record for an accepted anchor. */
  function CheckLink(source: SourceConfig, a: PageAnchor, container: Option<Node>, ref: int, web: Web): (r: Option<LinkRecord>)
    requires InRange(ref)
    ensures r.Some? <==> AnchorUrl(source, a.href, a.text, web).Some?
    ensures r.Some? ==> (r.value.title == a.text && r.value.url == AnchorUrl(source, a.href, a.text, web).value
      && r.value.published == LinkDate(source, a, container, ref, web))
  {
    match AnchorUrl(source, a.href, a.text, web)
    case None => None
    case Some(url) =>
      var containerText := if container.Some? then container.value.text else a.text;
      var author :=
        if container.Some? && Given(source.authorSelector) && container.value.author.Some? then container.value.author.value
        else "";
      Some(LinkRecord(a.text, url, LinkDate(source, a, container, ref, web), containerText, author))
  }

  /** With item containers: the first accepted anchor of each container. */
  function BlockLinks(source: SourceConfig, blocks: seq<Block>, ref: int, web: Web): (r: seq<LinkRecord>)
    requires InRange(ref)
    ensures |r| <= |blocks|
    decreases |blocks|
  {
    if blocks == [] then []
    else
      var first := FirstLink(source, blocks[0].anchors, blocks[0].container, ref, web);
      (if first.Some? then [first.value] else []) + BlockLinks(source, blocks[1..], ref, web)
  }

  /** The first anchor `_check_and_yield` accepts in a container. */
  function FirstLink(source: SourceConfig, anchors: seq<PageAnchor>, container: Node, ref: int, web: Web): (r: Option<LinkRecord>)
    requires InRange(ref)
    ensures r.Some? ==> exists k :: 0 <= k < |anchors| && CheckLink(source, anchors[k], Some(container), ref, web) == r
    ensures r.None? <==> forall k :: 0 <= k < |anchors| ==> CheckLink(source, anchors[k], Some(container), ref, web).None?
  {
    if anchors == [] then None
    else
      var here := CheckLink(source, anchors[0], Some(container), ref, web);
      if here.Some? then here
      else
        assert forall k :: 1 <= k < |anchors| ==> anchors[k] == anchors[1..][k - 1];
        FirstLink(source, anchors[1..], container, ref, web)
  }

  /** The accepted anchors in order, each checked in the container `containerOf` gives it. */
  function AnchorLinks(source: SourceConfig, anchors: seq<PageAnchor>, walk: bool, ref: int, web: Web): (r: seq<LinkRecord>)
    requires InRange(ref)
    ensures |r| <= |anchors|
  {
    if anchors == [] then []
    else
      var container := if walk then ContainerOf(anchors[0].ancestors) else None;
      var here := CheckLink(source, anchors[0], container, ref, web);
      (if here.Some? then [here.value] else []) + AnchorLinks(source, anchors[1..], walk, ref, web)
  }

  /**
   * `_extract_page_links`: one link per item container when both a
   * container and a date selector are configured; otherwise each anchor,
   * checked in the container its climb finds when a date selector is
   * configured and in none otherwise.
   */
  function PageLinks(source: SourceConfig, page: Page, ref: int, web: Web): (r: seq<LinkRecord>)
    requires InRange(ref)
  {
    if Given(source.itemContainerSelector) && Given(source.dateSelector) then BlockLinks(source, page.blocks, ref, web)
    else AnchorLinks(source, page.anchors, Given(source.dateSelector), ref, web)
  }

  /** Every link a page yields has an http address and a headline-like title. */
  lemma PageLinksAccepted(source: SourceConfig, page: Page, ref: int, web: Web)
    requires InRange(ref)
    ensures forall l :: l in PageLinks(source, page, ref, web) ==> StartsWith(l.url, "http") && HeadlineText(l.title)
  {
    if Given(source.itemContainerSelector) && Given(source.dateSelector) {
      BlockLinksAccepted(source, page.blocks, ref, web);
    } else {
      AnchorLinksAccepted(source, page.anchors, Given(source.dateSelector), ref, web);
    }
  }

  lemma {:induction false} BlockLinksAccepted(source: SourceConfig, blocks: seq<Block>, ref: int, web: Web)
    requires InRange(ref)
    ensures forall l :: l in BlockLinks(source, blocks, ref, web) ==> StartsWith(l.url, "http") && HeadlineText(l.title)
  {
    if blocks != [] {
      BlockLinksAccepted(source, blocks[1..], ref, web);
    }
  }

  lemma {:induction false} AnchorLinksAccepted(source: SourceConfig, anchors: seq<PageAnchor>, walk: bool, ref: int, web: Web)
    requires InRange(ref)
    ensures forall l :: l in AnchorLinks(source, anchors, walk, ref, web) ==> StartsWith(l.url, "http") && HeadlineText(l.title)
  {
    if anchors != [] {
      AnchorLinksAccepted(source, anchors[1..], walk, ref, web);
    }
  }

  // ---------------------------------------------------------------------------
  // Following links

  /**
   * `_resolve_item_url`: a Sogou link, when resolving is configured, is
   * replaced by the address its redirect page assembles (made canonical);
   * any failure keeps the link as it is.
   */
  function ResolveItemUrl(source: SourceConfig, url: string, web: Web): (r: string)
    ensures !source.resolveSogouRedirect || !Contains(url, "weixin.sogou.com/link?") ==> r == url
  {
    if !source.resolveSogouRedirect || !Contains(url, "weixin.sogou.com/link?") then url
    else
      match web.fetch(url)
      case None => url
      case Some(html) =>
        match SogouRedirectUrl(html)
        case None => url
        case Some(resolved) => web.canonical(resolved)
  }

  /** `_fetch_article_published_at`: the article search on the fetched page, nothing when the fetch fails. */
  function FetchArticleDate(url: string, now: int, web: Web): Option<int> {
    match web.fetch(url)
    case None => None
    case Some(html) => TimeParse.ArticleDate(web.readArticle(html), now, web.fuzzy, web.decode)
  }

  /** How much of an article's text the byline search reads. */
  const PublisherWindow: nat := 8000

  /** `_fetch_article_publisher`: the byline in the first 8000 characters of the fetched page's text. */
  function FetchPublisher(url: string, web: Web): string {
    match web.fetch(url)
    case None => ""
    case Some(html) =>
      var text := web.pageText(html);
      ExtractPublisher(TimeParse.Window(text, 0, PublisherWindow), web.unescape)
  }

  // ---------------------------------------------------------------------------
  // Collectors

  /** The most items one HTML or WeChat-profile source contributes. */
  const MaxItems: nat := 30

  /** The filters `_collect_html` applies to a link before following it. */
  predicate HtmlKeeps(source: SourceConfig, l: LinkRecord) {
    MatchesKeywords(source, [l.title, l.containerText, l.author, l.url]) && MatchesAuthor(source, l.author)
  }

  /** The source name an item is filed under: `name/publisher` when splitting by publisher finds one. */
  function HtmlSourceName(source: SourceConfig, l: LinkRecord, finalUrl: string, web: Web): (r: string)
    ensures r == source.name || StartsWith(r, source.name + "/")
    ensures !source.splitSourceByPublisher ==> r == source.name
  {
    if !source.splitSourceByPublisher then source.name
    else
      var inText := ExtractPublisher(l.title + " " + l.containerText, web.unescape);
      var publisher := if inText != "" then inText else FetchPublisher(finalUrl, web);
      if publisher != "" then
        assert (source.name + "/" + publisher)[..|source.name + "/"|] == source.name + "/";
        source.name + "/" + publisher
      else source.name
  }

  /**
   * The per-link steps of `_collect_html`: the keyword filters, resolving
   * the address, reading the article's date, and naming the source.
   */
  datatype HtmlSteps = HtmlSteps(keeps: LinkRecord -> bool, resolve: string -> string,
                                 articleDate: string -> Option<int>, sourceName: (LinkRecord, string) -> string)

  /** The steps for a source at instant `now`. */
  function StepsFor(source: SourceConfig, now: int, web: Web): HtmlSteps {
    HtmlSteps(l => HtmlKeeps(source, l), u => ResolveItemUrl(source, u, web), u => FetchArticleDate(u, now, web),
              (l, u) => HtmlSourceName(source, l, u, web))
  }

  /** The date a link carries: the one found on the listing page, else the article's. */
  function LinkPublished(l: LinkRecord, steps: HtmlSteps): Option<int> {
    if l.published.Some? then l.published else steps.articleDate(steps.resolve(l.url))
  }

  /** `item` is what `_collect_html` makes of link `l`. */
  predicate HtmlItemOf(l: LinkRecord, item: RawItem, steps: HtmlSteps) {
    && steps.keeps(l)
    && item.url == steps.resolve(l.url)
    && item.title == l.title
    && item.content == l.containerText
    && item.publishedAt == LinkPublished(l, steps)
    && item.sourceName == steps.sourceName(l, item.url)
  }

  /**
   * Link `k` gives an item unless the loop stopped before it: it passes the
   * filters, no earlier link passing them resolves to the same address (a
   * dateless one included, since the address is marked seen before the
   * date is read), and it has a date.
   */
  predicate Eligible(links: seq<LinkRecord>, k: int, steps: HtmlSteps) {
    && 0 <= k < |links|
    && steps.keeps(links[k])
    && (forall j :: 0 <= j < k && steps.keeps(links[j]) ==> steps.resolve(links[j].url) != steps.resolve(links[k].url))
    && LinkPublished(links[k], steps).Some?
  }

  /**
   * What `_collect_html` promises of `items`, link `origin[i]` giving item
   * `i`: at most 30 items with distinct addresses, dated, stamped `now`,
   * carrying the source's weight and tags; each from an eligible link, in
   * link order; and every eligible link gives one, unless 30 items were
   * collected before it.
   */
  ghost predicate HtmlCollected(source: SourceConfig, links: seq<LinkRecord>, now: int, steps: HtmlSteps,
                                items: seq<RawItem>, origin: seq<nat>) {
    && |items| <= MaxItems && |origin| == |items|
    && (forall i, j :: 0 <= i < j < |items| ==> items[i].url != items[j].url)
    && (forall i :: 0 <= i < |items| ==> (items[i].publishedAt.Some? && items[i].discoveredAt == now
          && items[i].sourceWeight == source.weight && items[i].tags == source.tags))
    && (forall i :: 0 <= i < |origin| ==> Eligible(links, origin[i], steps) && HtmlItemOf(links[origin[i]], items[i], steps))
    && (forall i, j :: 0 <= i < j < |origin| ==> origin[i] < origin[j])
    && (forall k :: Eligible(links, k, steps) ==> k in origin || (|items| == MaxItems && origin[MaxItems - 1] < k))
  }

  /**
   * The state of the `_collect_html` loop before link `k`: `firstAt` maps
   * each address seen to the first link that resolved to it.
   */
  ghost predicate HtmlProgress(source: SourceConfig, links: seq<LinkRecord>, now: int, steps: HtmlSteps, k: int,
                               items: seq<RawItem>, origin: seq<nat>, firstAt: map<string, nat>) {
    && 0 <= k <= |links| && |items| <= MaxItems && |origin| == |items|
    && (forall u :: u in firstAt ==> (firstAt[u] < k && steps.keeps(links[firstAt[u]])
          && steps.resolve(links[firstAt[u]].url) == u))
    && (forall j :: 0 <= j < k && steps.keeps(links[j]) ==> steps.resolve(links[j].url) in firstAt)
    && (forall i, j :: 0 <= i < j < |items| ==> items[i].url != items[j].url)
    && (forall i :: 0 <= i < |items| ==> (items[i].publishedAt.Some? && items[i].discoveredAt == now
          && items[i].sourceWeight == source.weight && items[i].tags == source.tags))
    && (forall i :: 0 <= i < |origin| ==> (origin[i] < k && Eligible(links, origin[i], steps)
          && HtmlItemOf(links[origin[i]], items[i], steps)))
    && (forall i, j :: 0 <= i < j < |origin| ==> origin[i] < origin[j])
    && (forall j :: 0 <= j < k && Eligible(links, j, steps) ==> j in origin)
  }

  /** Link `k` gives no item: it fails the filters, or its address was seen. */
  lemma HtmlPass(source: SourceConfig, links: seq<LinkRecord>, now: int, steps: HtmlSteps, k: int,
                 items: seq<RawItem>, origin: seq<nat>, firstAt: map<string, nat>)
    requires HtmlProgress(source, links, now, steps, k, items, origin, firstAt) && k < |links|
    requires !steps.keeps(links[k]) || steps.resolve(links[k].url) in firstAt
    ensures HtmlProgress(source, links, now, steps, k + 1, items, origin, firstAt)
  {
    if steps.keeps(links[k]) {
      var j := firstAt[steps.resolve(links[k].url)];
      assert j < k && steps.keeps(links[j]) && steps.resolve(links[j].url) == steps.resolve(links[k].url);
    }
    assert !Eligible(links, k, steps);
  }

  /** Link `k` passes the filters with a new address but has no date: the address is marked seen. */
  lemma HtmlDateless(source: SourceConfig, links: seq<LinkRecord>, now: int, steps: HtmlSteps, k: int,
                     items: seq<RawItem>, origin: seq<nat>, firstAt: map<string, nat>)
    requires HtmlProgress(source, links, now, steps, k, items, origin, firstAt) && k < |links|
    requires steps.keeps(links[k]) && steps.resolve(links[k].url) !in firstAt && LinkPublished(links[k], steps).None?
    ensures HtmlProgress(source, links, now, steps, k + 1, items, origin, firstAt[steps.resolve(links[k].url) := k])
  {
    assert !Eligible(links, k, steps);
  }

  /** Link `k` passes the filters with a new address and a date: it gives the next item. */
  lemma HtmlTake(source: SourceConfig, links: seq<LinkRecord>, now: int, steps: HtmlSteps, k: int,
                 items: seq<RawItem>, origin: seq<nat>, firstAt: map<string, nat>, item: RawItem)
    requires HtmlProgress(source, links, now, steps, k, items, origin, firstAt) && k < |links| && |items| < MaxItems
    requires steps.keeps(links[k]) && steps.resolve(links[k].url) !in firstAt
    requires HtmlItemOf(links[k], item, steps) && item.publishedAt.Some? && item.discoveredAt == now
      && item.sourceWeight == source.weight && item.tags == source.tags
    ensures HtmlProgress(source, links, now, steps, k + 1, items + [item], origin + [k],
                         firstAt[steps.resolve(links[k].url) := k])
  {
    assert Eligible(links, k, steps);
    var items', origin' := items + [item], origin + [k];
    forall j | 0 <= j < k + 1 && Eligible(links, j, steps)
      ensures j in origin'
    {
      if j < k {
        var i :| 0 <= i < |origin| && origin[i] == j;
        assert origin'[i] == j;
      } else {
        assert origin'[|origin|] == j;
      }
    }
    forall i | 0 <= i < |items|
      ensures items'[i].url != item.url
    {
      assert items[i].url == steps.resolve(links[origin[i]].url) && items[i].url in firstAt;
    }
  }

  /** When the loop ends, at the last link or at 30 items, its state is what `_collect_html` promises. */
  lemma HtmlDone(source: SourceConfig, links: seq<LinkRecord>, now: int, steps: HtmlSteps, k: int,
                 items: seq<RawItem>, origin: seq<nat>, firstAt: map<string, nat>)
    requires HtmlProgress(source, links, now, steps, k, items, origin, firstAt)
    requires k == |links| || |items| == MaxItems
    ensures HtmlCollected(source, links, now, steps, items, origin)
  {
    forall j | Eligible(links, j, steps)
      ensures j in origin || (|items| == MaxItems && origin[MaxItems - 1] < j)
    {
      if j >= k {
        assert origin[MaxItems - 1] < k;
      }
    }
  }

  /**
   * The loop of `_collect_html` over the links of the listing page: links
   * failing the filters are dropped, the address is resolved, an address
   * already seen is skipped, a link without a date found on the page gets
   * the article's, and one still without a date is dropped; the loop stops
   * at 30 items.
   */
  method CollectHtml(source: SourceConfig, links: seq<LinkRecord>, now: int, steps: HtmlSteps)
    returns (items: seq<RawItem>, ghost origin: seq<nat>)
    ensures HtmlCollected(source, links, now, steps, items, origin)
  {
    items := [];
    origin := [];
    var seen: set<string> := {};
    ghost var firstAt: map<string, nat> := map[];
    var k := 0;
    while k < |links| && |items| < MaxItems
      invariant seen == firstAt.Keys
      invariant HtmlProgress(source, links, now, steps, k, items, origin, firstAt)
    {
      var l := links[k];
      if !steps.keeps(l) || steps.resolve(l.url) in seen {
        HtmlPass(source, links, now, steps, k, items, origin, firstAt);
      } else {
        var finalUrl := steps.resolve(l.url);
        var published := if l.published.Some? then l.published else steps.articleDate(finalUrl);
        if published.Some? {
          var item := RawItem(steps.sourceName(l, finalUrl), source.weight, finalUrl, l.title, l.containerText,
                              published, now, source.tags);
          HtmlTake(source, links, now, steps, k, items, origin, firstAt, item);
          items := items + [item];
          origin := origin + [k];
        } else {
          HtmlDateless(source, links, now, steps, k, items, origin, firstAt);
        }
        seen := seen + {finalUrl};
        firstAt := firstAt[finalUrl := k];
      }
      k := k + 1;
    }
    HtmlDone(source, links, now, steps, k, items, origin, firstAt);
  }

  /** `_collect_html` on a fetched listing page at instant `now`: what `CollectHtml` promises of the page's links. */
  method CollectHtmlPage(source: SourceConfig, page: Page, now: int, web: Web)
    returns (items: seq<RawItem>, ghost origin: seq<nat>)
    requires InRange(now)
    ensures HtmlCollected(source, PageLinks(source, page, now, web), now, StepsFor(source, now, web), items, origin)
  {
    items, origin := CollectHtml(source, PageLinks(source, page, now, web), now, StepsFor(source, now, web));
  }

  // ---------------------------------------------------------------------------
  // WeChat official-account profiles

  /** `[A-Za-z0-9_=]`. */
  predicate BizChar(c: char) {
    IsAsciiLetter(c) || IsDigit(c) || c == '_' || c == '='
  }

  /** `__biz=([A-Za-z0-9_=]+)`. */
  function BizPattern(): Regex.Re {
    Regex.Seq([Regex.Lit("__biz="), Regex.Group(1, Regex.Plus(BizChar))])
  }

  /** The account id: the configured `wechat_biz` stripped, else the `__biz` parameter of the source's address. */
  function Biz(source: SourceConfig): (r: string)
    ensures Strip(source.wechatBiz.GetOr("")) != "" ==> r == Strip(source.wechatBiz.GetOr(""))
    ensures Strip(source.wechatBiz.GetOr("")) == "" ==> r == Captured(source.url, BizPattern()).GetOr("")
  {
    var given := Strip(source.wechatBiz.GetOr(""));
    if given != "" then given else Captured(source.url, BizPattern()).GetOr("")
  }

  /** An article of a profile message, its fields as `str(entry.get(key) or "")`. */
  datatype ProfileArticle = ProfileArticle(title: string, contentUrl: string, digest: string)

  /**
   * A message of `general_msg_list`: its `datetime` when that is an
   * integer, and its articles (the main one, then the dictionaries of
   * `multi_app_msg_item_list`) when `app_msg_ext_info` is a dictionary.
   */
  datatype ProfileMsg = ProfileMsg(timestamp: Option<int>, articles: Option<seq<ProfileArticle>>)

  /** The `getmsg` reply: its `ret`, and its message list unless that is missing, undecodable or not an object. */
  datatype ProfileReply = ProfileReply(ret: int, messages: Option<seq<ProfileMsg>>)

  /** The site article addresses are joined to. */
  const WechatSite: string := "https://mp.weixin.qq.com"

  /**
   * The item article `a` of a message sent at `t` gives: none when its
   * stripped title or address is blank or the keyword filter `keeps`
   * rejects its title and digest, else one with the joined address.
   */
  function ProfileItem(source: SourceConfig, t: int, a: ProfileArticle, now: int,
                       keeps: seq<string> -> bool, urljoin: (string, string) -> string): (r: Option<RawItem>)
    ensures r.Some? <==> Strip(a.title) != "" && Strip(a.contentUrl) != "" && keeps([Strip(a.title), Strip(a.digest)])
    ensures r.Some? ==> (r.value.url == urljoin(WechatSite, Strip(a.contentUrl)) && r.value.title == Strip(a.title)
      && r.value.content == Strip(a.digest) && r.value.publishedAt == Some(t) && r.value.discoveredAt == now
      && r.value.sourceName == source.name && r.value.sourceWeight == source.weight && r.value.tags == source.tags)
  {
    var title := Strip(a.title);
    var contentUrl := Strip(a.contentUrl);
    var digest := Strip(a.digest);
    if title == "" || contentUrl == "" || !keeps([title, digest]) then None
    else Some(RawItem(source.name, source.weight, urljoin(WechatSite, contentUrl), title, digest, Some(t), now, source.tags))
  }

  /** `item` is what `article` makes of article `k` of message `m`. */
  predicate ProfileOrigin(msgs: seq<ProfileMsg>, m: int, k: int, item: RawItem, article: (int, ProfileArticle) -> Option<RawItem>) {
    && 0 <= m < |msgs| && msgs[m].timestamp.Some? && msgs[m].articles.Some? && 0 <= k < |msgs[m].articles.value|
    && article(msgs[m].timestamp.value, msgs[m].articles.value[k]) == Some(item)
  }

  /** `item` comes from some article of `msgs`. */
  ghost predicate ProfileFrom(msgs: seq<ProfileMsg>, item: RawItem, article: (int, ProfileArticle) -> Option<RawItem>) {
    exists m, k :: ProfileOrigin(msgs, m, k, item, article)
  }

  /** Every integer `datetime` of the messages is one `datetime.fromtimestamp` accepts. */
  predicate AllInRange(msgs: seq<ProfileMsg>) {
    forall m :: 0 <= m < |msgs| && msgs[m].timestamp.Some? ==> InRange(msgs[m].timestamp.value)
  }

  /**
   * What `datetime.fromtimestamp` raises for a timestamp outside the years
   * 1 to 9999 (its exact text depends on the value and the platform).
   */
  const TimestampRangeError: string := "ValueError: year is out of range"

  /** The items the articles of a profile message give, each as `ProfileItem` makes it. */
  function ProfileArticles(source: SourceConfig, now: int, keeps: seq<string> -> bool,
                           urljoin: (string, string) -> string): (int, ProfileArticle) -> Option<RawItem> {
    (t, a) => ProfileItem(source, t, a, now, keeps, urljoin)
  }

  /**
   * `_collect_wechat_profile` with the `WECHAT_COOKIE` value and the
   * `getmsg` request as parameters (`keeps` is the keyword filter): no
   * account id is an error; no cookie, a failed reply or no message list
   * gives nothing; otherwise each new article address gives an item, up to
   * 30, and a message dated out of `datetime`'s range fails the source.
   */
  method CollectWechatProfile(source: SourceConfig, cookie: string, getmsg: string -> ProfileReply, now: int,
                              keeps: seq<string> -> bool, urljoin: (string, string) -> string)
    returns (r: Result<seq<RawItem>>)
    ensures Biz(source) == "" ==> r == Err("wechat_profile source missing wechat_biz: " + source.name)
    ensures Biz(source) != "" && (Strip(cookie) == "" || getmsg(Biz(source)).ret != 0 || getmsg(Biz(source)).messages.None?)
      ==> r == Ok([])
    ensures var reply := getmsg(Biz(source));
      Biz(source) != "" && Strip(cookie) != "" && reply.ret == 0 && reply.messages.Some? ==>
        && r == ProfileResult(reply.messages.value, ProfileArticles(source, now, keeps, urljoin))
        && (AllInRange(reply.messages.value) ==> r.Ok?)
        && (r.Err? ==> r.error == TimestampRangeError)
        && (r.Ok? && |r.value| < MaxItems ==> AllInRange(reply.messages.value))
        && (r.Ok? && |r.value| < MaxItems ==> forall m, k, it ::
              ProfileOrigin(reply.messages.value, m, k, it, ProfileArticles(source, now, keeps, urljoin)) ==>
                exists i :: 0 <= i < |r.value| && r.value[i].url == it.url)
    ensures r.Ok? ==> |r.value| <= MaxItems
    ensures r.Ok? ==> forall i, j :: 0 <= i < j < |r.value| ==> r.value[i].url != r.value[j].url
    ensures r.Ok? ==> forall i :: 0 <= i < |r.value| ==>
      ProfileFrom(getmsg(Biz(source)).messages.value, r.value[i], ProfileArticles(source, now, keeps, urljoin))
  {
    var biz := Biz(source);
    if biz == "" {
      return Err("wechat_profile source missing wechat_biz: " + source.name);
    }
    if Strip(cookie) == "" {
      return Ok([]);
    }
    var reply := getmsg(biz);
    if reply.ret != 0 || reply.messages.None? {
      return Ok([]);
    }
    r := ProfileItems(reply.messages.value, ProfileArticles(source, now, keeps, urljoin));
  }

  /**
   * The loop of `_collect_wechat_profile` over the messages of a reply:
   * the items `article` makes of the articles of the dated messages, the
   * first for each address, stopping at 30; below 30, every article that
   * gives an item has its address among them. A message whose `datetime`
   * is out of range raises before its articles are read, and the source
   * gives no items.
   */
  method ProfileItems(msgs: seq<ProfileMsg>, article: (int, ProfileArticle) -> Option<RawItem>)
    returns (r: Result<seq<RawItem>>)
    ensures r == ProfileResult(msgs, article)
    ensures AllInRange(msgs) ==> r.Ok?
    ensures r.Err? ==> r.error == TimestampRangeError
    ensures r.Ok? && |r.value| < MaxItems ==> AllInRange(msgs)
    ensures r.Ok? ==> |r.value| <= MaxItems
    ensures r.Ok? ==> forall i, j :: 0 <= i < j < |r.value| ==> r.value[i].url != r.value[j].url
    ensures r.Ok? ==> forall i :: 0 <= i < |r.value| ==> ProfileFrom(msgs, r.value[i], article)
    ensures r.Ok? && |r.value| < MaxItems ==> forall m, k, it :: ProfileOrigin(msgs, m, k, it, article) ==>
      exists i :: 0 <= i < |r.value| && r.value[i].url == it.url
  {
    r := ScanMessages(msgs, article);
    ProfileResultProperties(msgs, article, r);
  }

  /** The loop over the messages itself, computing the reference result. */
  method ScanMessages(msgs: seq<ProfileMsg>, article: (int, ProfileArticle) -> Option<RawItem>)
    returns (r: Result<seq<RawItem>>)
    ensures r == ProfileResult(msgs, article)
  {
    var items := [];
    var seen: set<string> := {};
    var m := 0;
    assert msgs[..0] == [];
    while m < |msgs|
      invariant ProfileScan(msgs, article, m, items, seen)
    {
      var msg := msgs[m];
      if msg.timestamp.Some? && !InRange(msg.timestamp.value) {
        ProfileScanFails(msgs, article, m, items, seen);
        return Err(TimestampRangeError);
      }
      if msg.timestamp.Some? && msg.articles.Some? {
        ghost var read;
        var items', seen';
        items', seen', read := ReadArticles(ArticleItems(msgs[..m], article), msg.timestamp.value, msg.articles.value, article, items, seen);
        ProfileScanRead(msgs, article, m, items, seen, items', seen', read);
        items, seen := items', seen';
        if |items| >= MaxItems {
          return Ok(items);
        }
      } else {
        ProfileScanSkip(msgs, article, m, items, seen);
      }
      m := m + 1;
    }
    ProfileScanEnd(msgs, article, items, seen);
    r := Ok(items);
  }

  /**
   * The inner loop of `_collect_wechat_profile` over the articles of one
   * message sent at `t`: each item whose address is new is kept, and the
   * loop stops at the 30th. `read` is how many articles were read.
   */
  method ReadArticles(ghost pre: seq<RawItem>, t: int, arts: seq<ProfileArticle>,
                      article: (int, ProfileArticle) -> Option<RawItem>, items0: seq<RawItem>, seen0: set<string>)
    returns (items: seq<RawItem>, seen: set<string>, ghost read: nat)
    requires |items0| < MaxItems && seen0 == Urls(items0) && items0 == FirstPerUrl(pre)
    ensures seen == Urls(items) && |items| <= MaxItems
    ensures read <= |arts| && items == FirstPerUrl(pre + ArticleRun(t, arts[..read], article))
    ensures |items| < MaxItems ==> read == |arts|
  {
    items, seen := items0, seen0;
    var k := 0;
    assert pre + ArticleRun(t, arts[..0], article) == pre;
    while k < |arts|
      invariant k <= |arts| && |items| < MaxItems
      invariant seen == Urls(items)
      invariant items == FirstPerUrl(pre + ArticleRun(t, arts[..k], article))
    {
      var item := article(t, arts[k]);
      ProfileStep(pre, t, arts, k, article, items, seen, item);
      if item.Some? && item.value.url !in seen {
        UrlsAppend(items, item.value);
        seen := seen + {item.value.url};
        items := items + [item.value];
        if |items| >= MaxItems {
          return items, seen, k + 1;
        }
      }
      k := k + 1;
    }
    read := k;
  }

  /** The addresses of some items. */
  function Urls(items: seq<RawItem>): (r: set<string>)
    ensures forall u :: u in r <==> exists i :: 0 <= i < |items| && items[i].url == u
  {
    set i | 0 <= i < |items| :: items[i].url
  }

  lemma UrlsAppend(items: seq<RawItem>, item: RawItem)
    ensures Urls(items + [item]) == Urls(items) + {item.url}
  {
    assert (items + [item])[|items|] == item;
    forall u | u in Urls(items)
      ensures u in Urls(items + [item])
    {
      var i :| 0 <= i < |items| && items[i].url == u;
      assert (items + [item])[i] == items[i];
    }
  }

  /** The items `article` makes of the articles of `arts`, sent at `t`, in article order. */
  function ArticleRun(t: int, arts: seq<ProfileArticle>, article: (int, ProfileArticle) -> Option<RawItem>): seq<RawItem> {
    if arts == [] then []
    else
      var last := match article(t, arts[|arts| - 1]) case Some(it) => [it] case None => [];
      ArticleRun(t, arts[..|arts| - 1], article) + last
  }

  /** The items of one message: none unless it is dated and has articles. */
  function MsgItems(msg: ProfileMsg, article: (int, ProfileArticle) -> Option<RawItem>): seq<RawItem> {
    if msg.timestamp.Some? && msg.articles.Some? then ArticleRun(msg.timestamp.value, msg.articles.value, article) else []
  }

  /** The items of the messages, message by message and article by article. */
  function ArticleItems(msgs: seq<ProfileMsg>, article: (int, ProfileArticle) -> Option<RawItem>): seq<RawItem> {
    if msgs == [] then []
    else ArticleItems(msgs[..|msgs| - 1], article) + MsgItems(msgs[|msgs| - 1], article)
  }

  /** No item before position `i` has the address of item `i`. */
  predicate FirstOfUrl(s: seq<RawItem>, i: int)
    requires 0 <= i < |s|
  {
    forall j :: 0 <= j < i ==> s[j].url != s[i].url
  }

  /**
   * The items that are the first with their address, in order: what a
   * walk that skips addresses already in `seen_links` keeps.
   */
  function FirstPerUrl(s: seq<RawItem>): (r: seq<RawItem>)
    ensures Urls(r) == Urls(s)
    ensures forall i, j :: 0 <= i < j < |r| ==> r[i].url != r[j].url
    ensures forall x :: x in r ==> exists i :: 0 <= i < |s| && s[i] == x && FirstOfUrl(s, i)
  {
    if s == [] then []
    else
      var init := s[..|s| - 1];
      var last := s[|s| - 1];
      var p := FirstPerUrl(init);
      assert s == init + [last];
      UrlsAppend(init, last);
      assert forall j :: 0 <= j < |init| ==> init[j] == s[j];
      if FirstOfUrl(s, |s| - 1) then
        assert last.url !in Urls(init);
        UrlsAppend(p, last);
        p + [last]
      else
        p
  }

  /** How many leading messages `datetime.fromtimestamp` accepts: the messages read before one raises. */
  function DatedPrefix(msgs: seq<ProfileMsg>): (e: nat)
    ensures e <= |msgs|
    ensures forall m :: 0 <= m < e && msgs[m].timestamp.Some? ==> InRange(msgs[m].timestamp.value)
    ensures e < |msgs| ==> msgs[e].timestamp.Some? && !InRange(msgs[e].timestamp.value)
  {
    if msgs == [] then 0
    else if msgs[0].timestamp.Some? && !InRange(msgs[0].timestamp.value) then 0
    else 1 + DatedPrefix(msgs[1..])
  }

  /**
   * What `_collect_wechat_profile` gives for a message list: the first item
   * per address of the messages read, cut at 30; when fewer than 30 were
   * found before a message dated out of range, that message's error.
   */
  function ProfileResult(msgs: seq<ProfileMsg>, article: (int, ProfileArticle) -> Option<RawItem>): (r: Result<seq<RawItem>>)
    ensures r.Ok? ==> |r.value| <= MaxItems
    ensures r.Err? ==> r.error == TimestampRangeError
    ensures AllInRange(msgs) ==> r.Ok?
  {
    var e := DatedPrefix(msgs);
    var found := FirstPerUrl(ArticleItems(msgs[..e], article));
    if |found| >= MaxItems then Ok(found[..MaxItems])
    else if e < |msgs| then Err(TimestampRangeError)
    else Ok(found)
  }

  /** A longer list of items keeps the first-per-address items of a shorter prefix as its own prefix. */
  lemma {:induction false} FirstPerUrlPrefix(s: seq<RawItem>, t: seq<RawItem>)
    requires s <= t
    ensures FirstPerUrl(s) <= FirstPerUrl(t)
    decreases |t|
  {
    if |s| < |t| {
      assert t[..|t| - 1][..|s|] == s;
      FirstPerUrlPrefix(s, t[..|t| - 1]);
    } else {
      assert s == t;
    }
  }

  lemma {:induction false} ArticleRunPrefix(t: int, a: seq<ProfileArticle>, b: seq<ProfileArticle>, article: (int, ProfileArticle) -> Option<RawItem>)
    requires a <= b
    ensures ArticleRun(t, a, article) <= ArticleRun(t, b, article)
    decreases |b|
  {
    if |a| < |b| {
      assert b[..|b| - 1][..|a|] == a;
      ArticleRunPrefix(t, a, b[..|b| - 1], article);
    } else {
      assert a == b;
    }
  }

  lemma {:induction false} ArticleItemsPrefix(a: seq<ProfileMsg>, b: seq<ProfileMsg>, article: (int, ProfileArticle) -> Option<RawItem>)
    requires a <= b
    ensures ArticleItems(a, article) <= ArticleItems(b, article)
    decreases |b|
  {
    if |a| < |b| {
      assert b[..|b| - 1][..|a|] == a;
      ArticleItemsPrefix(a, b[..|b| - 1], article);
    } else {
      assert a == b;
    }
  }

  /** The items of a run of articles are exactly what `article` makes of one of them. */
  lemma {:induction false} ArticleRunMembers(t: int, arts: seq<ProfileArticle>, article: (int, ProfileArticle) -> Option<RawItem>)
    ensures forall x :: x in ArticleRun(t, arts, article) <==> exists k :: 0 <= k < |arts| && article(t, arts[k]) == Some(x)
  {
    if arts != [] {
      var init := arts[..|arts| - 1];
      ArticleRunMembers(t, init, article);
      assert forall k :: 0 <= k < |init| ==> init[k] == arts[k];
    }
  }

  /** An item of the messages comes from one of their articles. */
  lemma {:induction false} ArticleItemsSound(msgs: seq<ProfileMsg>, x: RawItem, article: (int, ProfileArticle) -> Option<RawItem>)
    requires x in ArticleItems(msgs, article)
    ensures ProfileFrom(msgs, x, article)
  {
    var n := |msgs| - 1;
    var init := msgs[..n];
    var last := msgs[n];
    if x in ArticleItems(init, article) {
      ArticleItemsSound(init, x, article);
      var m, k :| ProfileOrigin(init, m, k, x, article);
      assert init[m] == msgs[m];
      assert ProfileOrigin(msgs, m, k, x, article);
    } else {
      assert x in MsgItems(last, article);
      ArticleRunMembers(last.timestamp.value, last.articles.value, article);
      var k :| 0 <= k < |last.articles.value| && article(last.timestamp.value, last.articles.value[k]) == Some(x);
      assert ProfileOrigin(msgs, n, k, x, article);
    }
  }

  /** Every article's item is among the items of the messages. */
  lemma {:induction false} ArticleItemsComplete(msgs: seq<ProfileMsg>, m: int, k: int, x: RawItem, article: (int, ProfileArticle) -> Option<RawItem>)
    requires ProfileOrigin(msgs, m, k, x, article)
    ensures x in ArticleItems(msgs, article)
  {
    var n := |msgs| - 1;
    var init := msgs[..n];
    var last := msgs[n];
    if m < n {
      assert init[m] == msgs[m];
      ArticleItemsComplete(init, m, k, x, article);
    } else {
      ArticleRunMembers(last.timestamp.value, last.articles.value, article);
      assert x in MsgItems(last, article);
    }
  }

  /**
   * What the reference result promises: within range below the cap,
   * distinct addresses, every item from some article, and below the cap
   * every article's item has its address among them.
   */
  lemma ProfileResultProperties(msgs: seq<ProfileMsg>, article: (int, ProfileArticle) -> Option<RawItem>, r: Result<seq<RawItem>>)
    requires r == ProfileResult(msgs, article)
    ensures AllInRange(msgs) ==> r.Ok?
    ensures r.Err? ==> r.error == TimestampRangeError
    ensures r.Ok? && |r.value| < MaxItems ==> AllInRange(msgs)
    ensures r.Ok? ==> |r.value| <= MaxItems
    ensures r.Ok? ==> forall i, j :: 0 <= i < j < |r.value| ==> r.value[i].url != r.value[j].url
    ensures r.Ok? ==> forall i :: 0 <= i < |r.value| ==> ProfileFrom(msgs, r.value[i], article)
    ensures r.Ok? && |r.value| < MaxItems ==> forall m, k, it :: ProfileOrigin(msgs, m, k, it, article) ==>
      exists i :: 0 <= i < |r.value| && r.value[i].url == it.url
  {
    var e := DatedPrefix(msgs);
    var read := ArticleItems(msgs[..e], article);
    var found := FirstPerUrl(read);
    assert msgs[..e] <= msgs;
    ArticleItemsPrefix(msgs[..e], msgs, article);
    if r.Ok? {
      forall i | 0 <= i < |r.value|
        ensures ProfileFrom(msgs, r.value[i], article)
      {
        assert r.value[i] == found[i] && found[i] in found;
        var j :| 0 <= j < |read| && read[j] == found[i] && FirstOfUrl(read, j);
        assert read[j] in ArticleItems(msgs, article);
        ArticleItemsSound(msgs, read[j], article);
      }
      if |r.value| < MaxItems {
        assert e == |msgs| && r.value == found;
        assert msgs[..e] == msgs;
        forall m, k, it | ProfileOrigin(msgs, m, k, it, article)
          ensures exists i :: 0 <= i < |r.value| && r.value[i].url == it.url
        {
          ArticleItemsComplete(msgs, m, k, it, article);
          var j :| 0 <= j < |read| && read[j] == it;
          assert it.url in Urls(read);
        }
      }
    }
  }

  /**
   * Two articles of one message with the same address: the first one's
   * item is kept and the second is skipped, whatever their titles.
   */
  lemma FirstArticleWins(t: int, a: ProfileArticle, b: ProfileArticle, article: (int, ProfileArticle) -> Option<RawItem>)
    requires InRange(t) && article(t, a).Some? && article(t, b).Some?
    requires article(t, a).value.url == article(t, b).value.url
    ensures ProfileResult([ProfileMsg(Some(t), Some([a, b]))], article) == Ok([article(t, a).value])
  {
    var msgs := [ProfileMsg(Some(t), Some([a, b]))];
    var x, y := article(t, a).value, article(t, b).value;
    assert DatedPrefix(msgs) == 1;
    assert msgs[..1] == msgs;
    PairItems(t, a, b, article);
    SameUrlPair(x, y);
  }

  /** The items of a single dated message with two articles. */
  lemma PairItems(t: int, a: ProfileArticle, b: ProfileArticle, article: (int, ProfileArticle) -> Option<RawItem>)
    requires article(t, a).Some? && article(t, b).Some?
    ensures ArticleItems([ProfileMsg(Some(t), Some([a, b]))], article) == [article(t, a).value, article(t, b).value]
  {
    var msgs := [ProfileMsg(Some(t), Some([a, b]))];
    assert msgs[..0] == [];
    ArticleItemsSnoc(msgs, 0, article);
    ArticleRunSnoc(t, [a, b], 0, article);
    ArticleRunSnoc(t, [a, b], 1, article);
    assert [a, b][..0] == [] && [a, b][..2] == [a, b] && msgs[..1] == msgs;
  }

  /** Of two items with one address only the first is kept. */
  lemma SameUrlPair(x: RawItem, y: RawItem)
    requires x.url == y.url
    ensures FirstPerUrl([x, y]) == [x]
  {
    assert [x, y][..1] == [x] && [x][..0] == [];
    assert FirstPerUrl([x]) == [x];
    assert !FirstOfUrl([x, y], 1);
  }

  /** One more item is kept exactly when its address is new. */
  lemma FirstPerUrlSnoc(s: seq<RawItem>, x: RawItem)
    ensures FirstPerUrl(s + [x]) == if x.url in Urls(s) then FirstPerUrl(s) else FirstPerUrl(s) + [x]
  {
    var t := s + [x];
    assert t[..|t| - 1] == s;
    assert forall j :: 0 <= j < |s| ==> t[j] == s[j];
  }

  /** One more article appends the item it gives, if any. */
  lemma ArticleRunSnoc(t: int, arts: seq<ProfileArticle>, k: nat, article: (int, ProfileArticle) -> Option<RawItem>)
    requires k < |arts|
    ensures ArticleRun(t, arts[..k + 1], article)
      == ArticleRun(t, arts[..k], article) + (match article(t, arts[k]) case Some(it) => [it] case None => [])
  {
    assert arts[..k + 1][..k] == arts[..k];
  }

  /** One more message appends its items. */
  lemma ArticleItemsSnoc(msgs: seq<ProfileMsg>, m: nat, article: (int, ProfileArticle) -> Option<RawItem>)
    requires m < |msgs|
    ensures ArticleItems(msgs[..m + 1], article) == ArticleItems(msgs[..m], article) + MsgItems(msgs[m], article)
  {
    assert msgs[..m + 1][..m] == msgs[..m];
  }

  /** Reading article `k` keeps its item exactly when the item's address is new. */
  lemma ProfileStep(pre: seq<RawItem>, t: int, arts: seq<ProfileArticle>, k: nat,
                    article: (int, ProfileArticle) -> Option<RawItem>, items: seq<RawItem>, seen: set<string>, item: Option<RawItem>)
    requires k < |arts| && item == article(t, arts[k]) && seen == Urls(items)
    requires items == FirstPerUrl(pre + ArticleRun(t, arts[..k], article))
    ensures item.Some? && item.value.url !in seen ==> FirstPerUrl(pre + ArticleRun(t, arts[..k + 1], article)) == items + [item.value]
    ensures !(item.Some? && item.value.url !in seen) ==> FirstPerUrl(pre + ArticleRun(t, arts[..k + 1], article)) == items
  {
    var before := pre + ArticleRun(t, arts[..k], article);
    ArticleRunSnoc(t, arts, k, article);
    match item {
      case None =>
        assert pre + ArticleRun(t, arts[..k + 1], article) == before;
      case Some(it) =>
        assert pre + ArticleRun(t, arts[..k + 1], article) == before + [it];
        FirstPerUrlSnoc(before, it);
    }
  }

  /** A dated message with articles appends the items of all its articles. */
  lemma ProfileMsgRead(msgs: seq<ProfileMsg>, m: nat, article: (int, ProfileArticle) -> Option<RawItem>)
    requires m < |msgs| && msgs[m].timestamp.Some? && msgs[m].articles.Some?
    ensures var arts := msgs[m].articles.value;
      ArticleItems(msgs[..m + 1], article) == ArticleItems(msgs[..m], article) + ArticleRun(msgs[m].timestamp.value, arts[..|arts|], article)
  {
    ArticleItemsSnoc(msgs, m, article);
    var arts := msgs[m].articles.value;
    assert arts[..|arts|] == arts;
  }

  /** Any other message adds nothing. */
  lemma ProfileMsgSkipped(msgs: seq<ProfileMsg>, m: nat, article: (int, ProfileArticle) -> Option<RawItem>)
    requires m < |msgs| && !(msgs[m].timestamp.Some? && msgs[m].articles.Some?)
    ensures ArticleItems(msgs[..m + 1], article) == ArticleItems(msgs[..m], article)
  {
    ArticleItemsSnoc(msgs, m, article);
  }

  /**
   * The state of the message loop after `m` messages: fewer than 30 items,
   * every message read dated in range, and the items the first per
   * address of what those messages give.
   */
  ghost predicate ProfileScan(msgs: seq<ProfileMsg>, article: (int, ProfileArticle) -> Option<RawItem>,
                              m: int, items: seq<RawItem>, seen: set<string>) {
    && 0 <= m <= |msgs| && |items| < MaxItems && seen == Urls(items)
    && (forall m' :: 0 <= m' < m && msgs[m'].timestamp.Some? ==> InRange(msgs[m'].timestamp.value))
    && items == FirstPerUrl(ArticleItems(msgs[..m], article))
  }

  lemma ProfileScanFails(msgs: seq<ProfileMsg>, article: (int, ProfileArticle) -> Option<RawItem>,
                         m: int, items: seq<RawItem>, seen: set<string>)
    requires ProfileScan(msgs, article, m, items, seen) && m < |msgs|
    requires msgs[m].timestamp.Some? && !InRange(msgs[m].timestamp.value)
    ensures ProfileResult(msgs, article) == Err(TimestampRangeError)
  {
    ProfileFails(msgs, m, article, items);
  }

  lemma ProfileScanSkip(msgs: seq<ProfileMsg>, article: (int, ProfileArticle) -> Option<RawItem>,
                        m: int, items: seq<RawItem>, seen: set<string>)
    requires ProfileScan(msgs, article, m, items, seen) && m < |msgs|
    requires !(msgs[m].timestamp.Some? && !InRange(msgs[m].timestamp.value))
    requires !(msgs[m].timestamp.Some? && msgs[m].articles.Some?)
    ensures ProfileScan(msgs, article, m + 1, items, seen)
  {
    ProfileMsgSkipped(msgs, m, article);
  }

  lemma ProfileScanRead(msgs: seq<ProfileMsg>, article: (int, ProfileArticle) -> Option<RawItem>,
                        m: int, items: seq<RawItem>, seen: set<string>, items': seq<RawItem>, seen': set<string>, read: nat)
    requires ProfileScan(msgs, article, m, items, seen) && m < |msgs|
    requires msgs[m].timestamp.Some? && InRange(msgs[m].timestamp.value) && msgs[m].articles.Some?
    requires var t, arts := msgs[m].timestamp.value, msgs[m].articles.value;
      && seen' == Urls(items') && |items'| <= MaxItems
      && read <= |arts| && items' == FirstPerUrl(ArticleItems(msgs[..m], article) + ArticleRun(t, arts[..read], article))
      && (|items'| < MaxItems ==> read == |arts|)
    ensures |items'| >= MaxItems ==> ProfileResult(msgs, article) == Ok(items')
    ensures |items'| < MaxItems ==> ProfileScan(msgs, article, m + 1, items', seen')
  {
    var t, arts := msgs[m].timestamp.value, msgs[m].articles.value;
    if |items'| >= MaxItems {
      ProfileCapped(msgs, m, t, arts, read, article, items');
    } else {
      ProfileMsgRead(msgs, m, article);
    }
  }

  lemma ProfileScanEnd(msgs: seq<ProfileMsg>, article: (int, ProfileArticle) -> Option<RawItem>,
                       items: seq<RawItem>, seen: set<string>)
    requires ProfileScan(msgs, article, |msgs|, items, seen)
    ensures ProfileResult(msgs, article) == Ok(items)
  {
    assert msgs[..|msgs|] == msgs;
    ProfileEnds(msgs, article, items);
  }

  /** The 30th item found while reading an accepted message is the last the collector returns. */
  lemma ProfileCapped(msgs: seq<ProfileMsg>, m: nat, t: int, arts: seq<ProfileArticle>, k: nat,
                      article: (int, ProfileArticle) -> Option<RawItem>, items: seq<RawItem>)
    requires m < |msgs| && msgs[m].timestamp == Some(t) && msgs[m].articles == Some(arts) && k <= |arts|
    requires forall m' :: 0 <= m' <= m && msgs[m'].timestamp.Some? ==> InRange(msgs[m'].timestamp.value)
    requires items == FirstPerUrl(ArticleItems(msgs[..m], article) + ArticleRun(t, arts[..k], article))
    requires |items| == MaxItems
    ensures ProfileResult(msgs, article) == Ok(items)
  {
    var e := DatedPrefix(msgs);
    assert m < e;
    var x := ArticleItems(msgs[..m], article) + ArticleRun(t, arts[..k], article);
    var whole := ArticleItems(msgs[..e], article);
    ArticleRunPrefix(t, arts[..k], arts, article);
    ArticleItemsSnoc(msgs, m, article);
    assert x <= ArticleItems(msgs[..m + 1], article);
    assert msgs[..e][..m + 1] == msgs[..m + 1];
    ArticleItemsPrefix(msgs[..m + 1], msgs[..e], article);
    PrefixTrans(x, ArticleItems(msgs[..m + 1], article), whole);
    FirstPerUrlPrefix(x, whole);
    var found := FirstPerUrl(whole);
    assert |found| >= MaxItems && found[..MaxItems] == items;
  }

  lemma PrefixTrans<T>(a: seq<T>, b: seq<T>, c: seq<T>)
    requires a <= b && b <= c
    ensures a <= c
  {
    assert c[..|b|][..|a|] == c[..|a|];
  }

  /** A message dated out of range, read before 30 items were found, fails the source. */
  lemma ProfileFails(msgs: seq<ProfileMsg>, m: nat, article: (int, ProfileArticle) -> Option<RawItem>, items: seq<RawItem>)
    requires m < |msgs| && msgs[m].timestamp.Some? && !InRange(msgs[m].timestamp.value)
    requires forall m' :: 0 <= m' < m && msgs[m'].timestamp.Some? ==> InRange(msgs[m'].timestamp.value)
    requires items == FirstPerUrl(ArticleItems(msgs[..m], article)) && |items| < MaxItems
    ensures ProfileResult(msgs, article) == Err(TimestampRangeError)
  {
    assert DatedPrefix(msgs) == m;
  }

  /** Reading every message without reaching 30 items returns them all. */
  lemma ProfileEnds(msgs: seq<ProfileMsg>, article: (int, ProfileArticle) -> Option<RawItem>, items: seq<RawItem>)
    requires AllInRange(msgs)
    requires items == FirstPerUrl(ArticleItems(msgs, article)) && |items| < MaxItems
    ensures ProfileResult(msgs, article) == Ok(items)
  {
    assert DatedPrefix(msgs) == |msgs|;
    assert msgs[..|msgs|] == msgs;
  }

  // ---------------------------------------------------------------------------
  // RSS feeds

  /** The entry's `content`: a list whose dictionary chunks are joined, or any other value. */
  datatype RssContent = NoContent | Chunks(values: seq<Option<string>>) | Scalar(text: string)

  /** A feed entry: its text fields and parsed times, and its `content`. */
  datatype RssEntry = RssEntry(feed: TimeParse.FeedEntry, content: RssContent)

  /** The `value` of each dictionary chunk (`None` marks a chunk that is not one). */
  function ChunkValues(values: seq<Option<string>>): (r: seq<string>)
    ensures |r| <= |values|
  {
    if values == [] then []
    else (if values[0].Some? then [values[0].value] else []) + ChunkValues(values[1..])
  }

  /** The text `_collect_rss` takes as an entry's content: the summary, else the joined content chunks. */
  function RssContentText(e: RssEntry): (r: string)
    ensures TimeParse.Field(e.feed, "summary") != "" ==> r == TimeParse.Field(e.feed, "summary")
  {
    var summary := TimeParse.Field(e.feed, "summary");
    if summary != "" then summary
    else
      match e.content
      case Chunks(values) => if values != [] then Join(ChunkValues(values), " ") else ""
      case Scalar(text) => text
      case NoContent => ""
  }

  /** The parts of `_collect_rss` that are not plain record building. */
  datatype RssSteps = RssSteps(keeps: seq<string> -> bool, authorKeeps: string -> bool,
                               published: (TimeParse.FeedEntry, string) -> Option<int>)

  /** The steps for a source at instant `now`: the keyword filters and `_extract_rss_published_at`. */
  function RssStepsFor(source: SourceConfig, now: int, web: Web): RssSteps
    requires InRange(now)
  {
    RssSteps(parts => MatchesKeywords(source, parts), author => MatchesAuthor(source, author),
             (f, content) => TimeParse.RssPublishedAt(f, content, TimeParse.HtmlDateParser(now, true, web.fuzzy),
                                                     u => FetchArticleDate(u, now, web)))
  }

  /** The item `_collect_rss` makes of an entry, if it keeps it. */
  function RssItem(source: SourceConfig, e: RssEntry, now: int, steps: RssSteps): (r: Option<RawItem>)
    ensures r.Some? ==> (r.value.title != "" && r.value.url != "" && r.value.publishedAt.Some?
      && r.value.sourceName == source.name && r.value.discoveredAt == now)
  {
    var title := Strip(TimeParse.Field(e.feed, "title"));
    var link := Strip(TimeParse.Field(e.feed, "link"));
    var content := RssContentText(e);
    var author := TimeParse.Field(e.feed, "author");
    if title == "" || link == "" then None
    else if !steps.keeps([title, content, author]) || !steps.authorKeeps(author) then None
    else
      var published := steps.published(e.feed, content);
      if published.None? then None
      else Some(RawItem(source.name, source.weight, link, title, content, published, now, source.tags))
  }

  /** The items `item` makes of the entries, in feed order: the specification of the `_collect_rss` loop. */
  function Kept(entries: seq<RssEntry>, item: RssEntry -> Option<RawItem>): (r: seq<RawItem>)
    ensures |r| <= |entries|
  {
    if entries == [] then []
    else
      var last := entries[|entries| - 1];
      Kept(entries[..|entries| - 1], item) + (if item(last).Some? then [item(last).value] else [])
  }

  /** Every kept item is what `item` makes of some entry. */
  lemma {:induction false} KeptFrom(entries: seq<RssEntry>, item: RssEntry -> Option<RawItem>)
    ensures forall it :: it in Kept(entries, item) ==> exists k :: 0 <= k < |entries| && item(entries[k]) == Some(it)
  {
    if entries != [] {
      var front := entries[..|entries| - 1];
      KeptFrom(front, item);
      forall it | it in Kept(entries, item)
        ensures exists k :: 0 <= k < |entries| && item(entries[k]) == Some(it)
      {
        if it in Kept(front, item) {
          var k :| 0 <= k < |front| && item(front[k]) == Some(it);
          assert entries[k] == front[k];
        } else {
          assert item(entries[|entries| - 1]) == Some(it);
        }
      }
    }
  }

  /** Every entry `item` makes something of is kept. */
  lemma {:induction false} KeptAll(entries: seq<RssEntry>, item: RssEntry -> Option<RawItem>)
    ensures forall k :: 0 <= k < |entries| && item(entries[k]).Some? ==> item(entries[k]).value in Kept(entries, item)
  {
    if entries != [] {
      var front := entries[..|entries| - 1];
      KeptAll(front, item);
      forall k | 0 <= k < |entries| && item(entries[k]).Some?
        ensures item(entries[k]).value in Kept(entries, item)
      {
        if k < |front| {
          assert entries[k] == front[k];
        }
      }
    }
  }

  /** The loop of `_collect_rss`, over the items `item` makes of the entries. */
  method KeptItems(entries: seq<RssEntry>, item: RssEntry -> Option<RawItem>) returns (items: seq<RawItem>)
    ensures items == Kept(entries, item)
  {
    items := [];
    var k := 0;
    while k < |entries|
      invariant k <= |entries|
      invariant items == Kept(entries[..k], item)
    {
      assert entries[..k + 1][..k] == entries[..k];
      var it := item(entries[k]);
      if it.Some? {
        items := items + [it.value];
      }
      k := k + 1;
    }
    assert entries[..k] == entries;
  }

  /**
   * `_collect_rss` on parsed feed entries: an item for every entry with a
   * title and a link that passes the filters and has a date, in feed
   * order, with no cap.
   */
  method CollectRss(source: SourceConfig, entries: seq<RssEntry>, now: int, steps: RssSteps) returns (items: seq<RawItem>)
    ensures items == Kept(entries, e => RssItem(source, e, now, steps))
    ensures forall it :: it in items ==> exists k :: 0 <= k < |entries| && RssItem(source, entries[k], now, steps) == Some(it)
    ensures forall k :: 0 <= k < |entries| && RssItem(source, entries[k], now, steps).Some? ==>
      RssItem(source, entries[k], now, steps).value in items
  {
    var item := e => RssItem(source, e, now, steps);
    items := KeptItems(entries, item);
    KeptFrom(entries, item);
    KeptAll(entries, item);
  }
}
