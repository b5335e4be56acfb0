/**
 * The Feishu (Lark) bot: removing `<at>` mention tags from a message,
 * reading the text out of `text` and `post` messages, choosing where a
 * reply goes, pushing a text message, and the event callback's dispatch.
 */
module Feishu {
  import opened Wrappers
  import opened Text
  import Models
  import Chat

  // ---------------------------------------------------------------------------
  // Mention tags: `re.sub(r"<at\b[^>]*>.*?</at>", "", text, flags=IGNORECASE | DOTALL)`

  /**
   * `\w` for the character after `<at`: ASCII letters, digits and `_`, and
   * every non-ASCII character that is not whitespace.
   */
  predicate IsWordChar(c: char) {
    IsAsciiLetter(c) || IsDigit(c) || c == '_' || (c as int >= 0x80 && !IsSpace(c))
  }

  /** `s` opens a mention tag: `<at` in any case, then a word boundary. */
  predicate OpensTag(s: string) {
    |s| >= 3 && s[0] == '<' && (s[1] == 'a' || s[1] == 'A') && (s[2] == 't' || s[2] == 'T')
    && (|s| == 3 || !IsWordChar(s[3]))
  }

  /** `</at>` in any case starts at `k`. */
  predicate ClosesAt(s: string, k: int) {
    0 <= k && k + 5 <= |s| && s[k] == '<' && s[k + 1] == '/' && (s[k + 2] == 'a' || s[k + 2] == 'A')
    && (s[k + 3] == 't' || s[k + 3] == 'T') && s[k + 4] == '>'
  }

  /** The index of the first `c` in `s`. */
  function FindChar(s: string, c: char): (r: Option<nat>)
    ensures r.Some? ==> r.value < |s|
  {
    if s == [] then None
    else if s[0] == c then Some(0)
    else match FindChar(s[1..], c) {
      case None => None
      case Some(k) => Some(k + 1)
    }
  }

  /** The index of the first `</at>` in `s`, in any case. */
  function FindClose(s: string): (r: Option<nat>)
    ensures r.Some? ==> r.value + 5 <= |s|
  {
    if |s| < 5 then None
    else if ClosesAt(s, 0) then Some(0)
    else match FindClose(s[1..]) {
      case None => None
      case Some(k) => Some(k + 1)
    }
  }

  lemma ClosesShift(s: string, k: int)
    requires s != [] && k >= 1
    ensures ClosesAt(s, k) == ClosesAt(s[1..], k - 1)
  {
    if k + 5 <= |s| {
      assert s[1..][k - 1] == s[k] && s[1..][k] == s[k + 1] && s[1..][k + 1] == s[k + 2];
      assert s[1..][k + 2] == s[k + 3] && s[1..][k + 3] == s[k + 4];
    }
  }

  /**
   * The length of the mention tag at the start of `s`: `<at`, a word
   * boundary, everything up to the first `>`, then everything up to and
   * including the first `</at>` after it.
   */
  function MentionLength(s: string): (r: Option<nat>)
    ensures r.Some? ==> 9 <= r.value <= |s|
  {
    if !OpensTag(s) then None
    else match FindChar(s[3..], '>') {
      case None => None
      case Some(g) => match FindClose(s[3 + g + 1..]) {
        case None => None
        case Some(c) => Some(3 + g + 1 + c + 5)
      }
    }
  }

  /** The text with every mention tag removed, scanning left to right as `re.sub` does. */
  function RemoveMentions(s: string): (r: string)
    ensures |r| <= |s|
    decreases |s|
  {
    if s == [] then []
    else match MentionLength(s) {
      case Some(n) => RemoveMentions(s[n..])
      case None => [s[0]] + RemoveMentions(s[1..])
    }
  }

  /** `_strip_mentions`: remove the mention tags, then collapse the whitespace. */
  function StripMentions(text: string): string {
    CollapseSpaces(RemoveMentions(text))
  }

  /** Text in which no `<` occurs passes through the tag removal unchanged. */
  lemma {:induction false} RemoveMentionsPlain(s: string, rest: string)
    requires forall k :: 0 <= k < |s| ==> s[k] != '<'
    ensures RemoveMentions(s + rest) == s + RemoveMentions(rest)
    decreases |s|
  {
    if s != [] {
      var t := s + rest;
      assert RemoveMentions(t) == [s[0]] + RemoveMentions(t[1..]) by {
        assert t[0] == s[0] && !OpensTag(t);
      }
      assert RemoveMentions(t[1..]) == s[1..] + RemoveMentions(rest) by {
        assert t[1..] == s[1..] + rest;
        RemoveMentionsPlain(s[1..], rest);
      }
      Chat.Regroup([s[0]], s[1..] + RemoveMentions(rest), s[1..], RemoveMentions(rest), RemoveMentions(t));
      assert [s[0]] + s[1..] == s;
    } else {
      assert s + rest == rest;
    }
  }

  lemma {:induction false} FindCharAfter(x: string, c: char, y: string)
    requires forall k :: 0 <= k < |x| ==> x[k] != c
    requires y != [] && y[0] == c
    ensures FindChar(x + y, c) == Some(|x|)
    decreases |x|
  {
    if x != [] {
      assert (x + y)[1..] == x[1..] + y;
      FindCharAfter(x[1..], c, y);
    } else {
      assert x + y == y;
    }
  }

  lemma FindCloseAfter(body: string, rest: string)
    requires forall k :: 0 <= k < |body| ==> body[k] != '<'
    ensures FindClose(body + ("</at>" + rest)) == Some(|body|)
  {
    var s := body + ("</at>" + rest);
    ClosesAfter(body, rest);
    NoCloseWithin(body, rest);
    FindCloseFirst(s, |body|);
  }

  lemma ClosesAfter(body: string, rest: string)
    ensures ClosesAt(body + ("</at>" + rest), |body|)
  {
    var s := body + ("</at>" + rest);
    assert s[|body|..|body| + 5] == "</at>";
  }

  lemma NoCloseWithin(body: string, rest: string)
    requires forall k :: 0 <= k < |body| ==> body[k] != '<'
    ensures forall k :: 0 <= k < |body| ==> !ClosesAt(body + ("</at>" + rest), k)
  {
    var s := body + ("</at>" + rest);
    forall k | 0 <= k < |body| ensures !ClosesAt(s, k) { assert s[k] == body[k]; }
  }

  /** `FindClose` finds the first `</at>`. */
  lemma {:induction false} FindCloseFirst(s: string, c: nat)
    requires ClosesAt(s, c) && forall k :: 0 <= k < c ==> !ClosesAt(s, k)
    ensures FindClose(s) == Some(c)
    decreases c
  {
    if c > 0 {
      assert !ClosesAt(s, 0);
      ClosesShift(s, c);
      forall k | 0 <= k < c - 1 ensures !ClosesAt(s[1..], k) { ClosesShift(s, k + 1); }
      FindCloseFirst(s[1..], c - 1);
    }
  }

  /** `<at{attrs}>{name}</at>`. */
  function Tag(attrs: string, name: string): string {
    "<at" + (attrs + (">" + (name + "</at>")))
  }

  /** The length of a well-formed mention tag is read off its parts. */
  lemma MentionTagLength(attrs: string, name: string, after: string)
    requires forall k :: 0 <= k < |attrs| ==> attrs[k] != '>'
    requires attrs == [] || !IsWordChar(attrs[0])
    requires forall k :: 0 <= k < |name| ==> name[k] != '<'
    ensures MentionLength(Tag(attrs, name) + after) == Some(|Tag(attrs, name)|)
  {
    TagOpens(attrs, name, after);
    TagAttributesEnd(attrs, name, after);
    TagNameEnds(attrs, name, after);
    MentionLengthOf(Tag(attrs, name) + after, |attrs|, |name|);
    TagSlices(attrs, name, after);
  }

  lemma TagOpens(attrs: string, name: string, after: string)
    requires attrs == [] || !IsWordChar(attrs[0])
    ensures OpensTag(Tag(attrs, name) + after)
  {
    TagSlices(attrs, name, after);
    OpensTagOf(attrs + (">" + (name + ("</at>" + after))));
  }

  lemma TagAttributesEnd(attrs: string, name: string, after: string)
    requires forall k :: 0 <= k < |attrs| ==> attrs[k] != '>'
    ensures |Tag(attrs, name) + after| >= 3 && FindChar((Tag(attrs, name) + after)[3..], '>') == Some(|attrs|)
  {
    var y := name + ("</at>" + after);
    TagSlices(attrs, name, after);
    OpenedSlices(attrs, y, Tag(attrs, name) + after);
    FindCharAfter(attrs, '>', ">" + y);
  }

  lemma TagNameEnds(attrs: string, name: string, after: string)
    requires forall k :: 0 <= k < |name| ==> name[k] != '<'
    ensures |Tag(attrs, name) + after| >= 3 + |attrs| + 1
    ensures FindClose((Tag(attrs, name) + after)[3 + |attrs| + 1..]) == Some(|name|)
  {
    var y := name + ("</at>" + after);
    TagSlices(attrs, name, after);
    OpenedSlices(attrs, y, Tag(attrs, name) + after);
    FindCloseAfter(name, after);
  }

  lemma OpenedSlices(attrs: string, y: string, s: string)
    requires s == "<at" + (attrs + (">" + y))
    ensures s[3..] == attrs + (">" + y)
    ensures s[3 + |attrs| + 1..] == y
  {
  }

  lemma TagSlices(attrs: string, name: string, after: string)
    ensures Tag(attrs, name) + after == "<at" + (attrs + (">" + (name + ("</at>" + after))))
    ensures |Tag(attrs, name)| == 3 + |attrs| + 1 + |name| + 5
  {
  }

  lemma OpensTagOf(x: string)
    requires x == [] || !IsWordChar(x[0])
    ensures OpensTag("<at" + x)
  {
  }

  lemma MentionLengthOf(s: string, g: nat, c: nat)
    requires OpensTag(s) && FindChar(s[3..], '>') == Some(g) && FindClose(s[3 + g + 1..]) == Some(c)
    ensures MentionLength(s) == Some(3 + g + 1 + c + 5)
  {
  }

  /**
   * A well-formed mention tag — `<at`, attributes with no `>` that do not
   * begin with a word character, `>`, a display name with no `<`, `</at>` —
   * after text with no `<` is removed, and only it.
   */
  lemma MentionRemoved(before: string, attrs: string, name: string, after: string)
    requires forall k :: 0 <= k < |before| ==> before[k] != '<'
    requires forall k :: 0 <= k < |attrs| ==> attrs[k] != '>'
    requires attrs == [] || !IsWordChar(attrs[0])
    requires forall k :: 0 <= k < |name| ==> name[k] != '<'
    ensures RemoveMentions(before + (Tag(attrs, name) + after)) == before + RemoveMentions(after)
  {
    MentionDropped(attrs, name, after);
    RemoveMentionsPlain(before, Tag(attrs, name) + after);
  }

  /** A well-formed mention tag at the start of the text is dropped whole. */
  lemma MentionDropped(attrs: string, name: string, after: string)
    requires forall k :: 0 <= k < |attrs| ==> attrs[k] != '>'
    requires attrs == [] || !IsWordChar(attrs[0])
    requires forall k :: 0 <= k < |name| ==> name[k] != '<'
    ensures RemoveMentions(Tag(attrs, name) + after) == RemoveMentions(after)
  {
    MentionTagLength(attrs, name, after);
    SkipTag(Tag(attrs, name), after);
  }

  lemma SkipTag(tag: string, after: string)
    requires MentionLength(tag + after) == Some(|tag|)
    ensures RemoveMentions(tag + after) == RemoveMentions(after)
  {
    assert (tag + after)[|tag|..] == after;
  }

  /** A mention followed by a space and a word leaves the word alone. */
  lemma MentionThenWord(attrs: string, name: string, w: string)
    requires forall k :: 0 <= k < |attrs| ==> attrs[k] != '>'
    requires attrs == [] || !IsWordChar(attrs[0])
    requires forall k :: 0 <= k < |name| ==> name[k] != '<'
    requires w != [] && NoSpace(w) && forall k :: 0 <= k < |w| ==> w[k] != '<'
    ensures StripMentions(Tag(attrs, name) + (" " + w)) == w
  {
    MentionBeforeText(attrs, name, " " + w);
    SpaceThenWord(w);
  }

  lemma MentionBeforeText(attrs: string, name: string, text: string)
    requires forall k :: 0 <= k < |attrs| ==> attrs[k] != '>'
    requires attrs == [] || !IsWordChar(attrs[0])
    requires forall k :: 0 <= k < |name| ==> name[k] != '<'
    requires forall k :: 0 <= k < |text| ==> text[k] != '<'
    ensures RemoveMentions(Tag(attrs, name) + text) == text
  {
    MentionDropped(attrs, name, text);
    RemovePlain(text);
  }

  lemma RemovePlain(text: string)
    requires forall k :: 0 <= k < |text| ==> text[k] != '<'
    ensures RemoveMentions(text) == text
  {
    RemoveMentionsPlain(text, []);
    assert text + [] == text;
  }

  lemma SpaceThenWord(w: string)
    requires w != [] && NoSpace(w)
    ensures CollapseSpaces(" " + w) == w
  {
    WordsOfSpaceThen(w);
    WordsOfWordThenSpace(w, []);
    assert w + [] == w;
    assert Words([]) == [] by { assert LeadCount([], IsSpace) == 0; }
  }

  /**
   * In a group chat the bot is addressed by mentioning it: a mention
   * followed by a command word runs that command.
   */
  lemma MentionThenCommand(attrs: string, name: string, w: string)
    requires forall k :: 0 <= k < |attrs| ==> attrs[k] != '>'
    requires attrs == [] || !IsWordChar(attrs[0])
    requires forall k :: 0 <= k < |name| ==> name[k] != '<'
    requires w != [] && NoSpace(w) && Lower(w) == w && forall k :: 0 <= k < |w| ==> w[k] != '<'
    requires Chat.Named(w).Some?
    ensures Chat.ResolveCommand(StripMentions(Tag(attrs, name) + (" " + w))) == Chat.Named(w)
  {
    MentionThenWord(attrs, name, w);
    Chat.SingleWordResolves(w);
  }

  // ---------------------------------------------------------------------------
  // Message content

  /** A decoded JSON value. */
  datatype Value =
    | JNull
    | JBool(b: bool)
    | JInt(i: int)
    | JStr(s: string)
    | JList(items: seq<Value>)
    | JDict(fields: map<string, Value>)

  /**
   * What the model takes as given about Python's runtime: `json.loads`
   * (`None` when it raises `JSONDecodeError`) and `str()` of a list or a
   * dict.
   */
  datatype Codec = Codec(decode: string -> Option<Value>, repr: Value -> string)


  /** `str(v)`. */
  function Show(v: Value, codec: Codec): string {
    match v
    case JNull => "None"
    case JBool(b) => if b then "True" else "False"
    case JInt(i) => ShowInt(i)
    case JStr(s) => s
    case _ => codec.repr(v)
  }

  /** Python's truth value of `v`. */
  predicate Truthy(v: Value) {
    match v
    case JNull => false
    case JBool(b) => b
    case JInt(i) => i != 0
    case JStr(s) => s != ""
    case JList(items) => items != []
    case JDict(fields) => fields != map[]
  }

  /** `d.get(key, default)`. */
  function Get(d: map<string, Value>, key: string, default: Value): Value {
    if key in d then d[key] else default
  }

  /** A part of a post's text: non-empty, with no whitespace at either end. */
  predicate Part(p: string) {
    p != "" && Chat.Stripped(p)
  }

  /** `"@" + name` for a stripped name is a part. */
  lemma AtNameIsPart(name: string)
    requires Chat.Stripped(name)
    ensures Part("@" + name)
  {
    if name != "" {
      assert ("@" + name)[|name|] == name[|name| - 1];
    }
  }

  /**
   * What one element of a post's paragraph contributes: the stripped text
   * of a non-empty `text` or `a` element, `@` and the stripped user name
   * of an `at` element (`用户` by default); nothing for anything else.
   */
  function ElementPart(element: Value, codec: Codec): (r: seq<string>)
    ensures |r| <= 1 && forall k :: 0 <= k < |r| ==> Part(r[k])
  {
    if !element.JDict? then []
    else
      var tag := Get(element.fields, "tag", JNull);
      if tag == JStr("text") || tag == JStr("a") then
        var value := Strip(Show(Get(element.fields, "text", JStr("")), codec));
        Chat.StripIsStripped(Show(Get(element.fields, "text", JStr("")), codec));
        if value != "" then [value] else []
      else if tag == JStr("at") then
        var name := Strip(Show(Get(element.fields, "user_name", JStr("用户")), codec));
        Chat.StripIsStripped(Show(Get(element.fields, "user_name", JStr("用户")), codec));
        AtNameIsPart(name);
        ["@" + name]
      else []
  }

  /** The parts of the elements of one paragraph, in order. */
  function ElementParts(elements: seq<Value>, codec: Codec): (r: seq<string>)
    ensures forall k :: 0 <= k < |r| ==> Part(r[k])
  {
    if elements == [] then []
    else ElementPart(elements[0], codec) + ElementParts(elements[1..], codec)
  }

  /** The parts of the paragraphs that are lists, in order. */
  function BlockParts(blocks: seq<Value>, codec: Codec): (r: seq<string>)
    ensures forall k :: 0 <= k < |r| ==> Part(r[k])
  {
    if blocks == [] then []
    else
      (if blocks[0].JList? then ElementParts(blocks[0].items, codec) else [])
      + BlockParts(blocks[1..], codec)
  }

  /** The stripped title when non-empty, then the parts of the `content` paragraphs. */
  function ContentParts(content: map<string, Value>, codec: Codec): (r: seq<string>)
    ensures forall k :: 0 <= k < |r| ==> Part(r[k])
  {
    var title := Strip(Show(Get(content, "title", JStr("")), codec));
    Chat.StripIsStripped(Show(Get(content, "title", JStr("")), codec));
    var blocks := Get(content, "content", JList([]));
    (if title != "" then [title] else []) + (if blocks.JList? then BlockParts(blocks.items, codec) else [])
  }

  /** The inner `_extract` of `_extract_post_text`: the non-empty parts joined by spaces, stripped. */
  function ExtractContent(content: map<string, Value>, codec: Codec): (r: string)
    ensures Chat.Stripped(r)
  {
    var joined := Join(NonEmpty(ContentParts(content, codec)), " ");
    Chat.StripIsStripped(joined);
    Strip(joined)
  }

  /** Parts joined by single spaces have no whitespace at either end. */
  lemma {:induction false} JoinOfParts(parts: seq<string>)
    requires forall k :: 0 <= k < |parts| ==> Part(parts[k])
    ensures Chat.Stripped(Join(parts, " "))
    ensures parts != [] ==> Join(parts, " ") != ""
  {
    if |parts| > 1 {
      JoinOfParts(parts[1..]);
      var rest := Join(parts[1..], " ");
      var j := parts[0] + " " + rest;
      assert j[0] == parts[0][0];
      assert j[|j| - 1] == rest[|rest| - 1];
    }
  }

  /** The filter and the final strip change nothing: the post's text is its parts joined by single spaces. */
  lemma ContentIsJoinedParts(content: map<string, Value>, codec: Codec)
    ensures ExtractContent(content, codec) == Join(ContentParts(content, codec), " ")
    ensures ExtractContent(content, codec) == "" <==> ContentParts(content, codec) == []
  {
    var parts := ContentParts(content, codec);
    assert NonEmpty(parts) == parts;
    JoinOfParts(parts);
    StripUnchanged(Join(parts, " "));
  }

  /** The locales `_extract_post_text` falls back to, in order. */
  const Locales: seq<string> := ["zh_cn", "en_us", "ja_jp"]

  /** The contents a post's text may come from, in the order they are tried. */
  function Candidates(post: map<string, Value>, locales: seq<string>): seq<map<string, Value>>
  {
    if locales == [] then []
    else
      var v := Get(post, locales[0], JNull);
      (if v.JDict? then [v.fields] else []) + Candidates(post, locales[1..])
  }

  /** The first of `texts` that is not empty, or `""`. */
  function FirstNonEmpty(texts: seq<string>): (r: string)
    ensures r == "" <==> forall k :: 0 <= k < |texts| ==> texts[k] == ""
  {
    if texts == [] then ""
    else if texts[0] != "" then texts[0]
    else FirstNonEmpty(texts[1..])
  }

  /** A non-empty result is one of the texts, and every text before it is empty. */
  lemma {:induction false} FirstNonEmptyIsFirst(texts: seq<string>)
    requires FirstNonEmpty(texts) != ""
    ensures exists k :: 0 <= k < |texts| && texts[k] == FirstNonEmpty(texts) && forall j :: 0 <= j < k ==> texts[j] == ""
  {
    if texts[0] != "" {
      assert texts[0] == FirstNonEmpty(texts);
    } else {
      var tail := texts[1..];
      FirstNonEmptyIsFirst(tail);
      var k :| 0 <= k < |tail| && tail[k] == FirstNonEmpty(tail) && forall j :: 0 <= j < k ==> tail[j] == "";
      assert texts[k + 1] == FirstNonEmpty(texts);
      assert forall j :: 0 <= j < k + 1 ==> texts[j] == "" by {
        forall j | 0 <= j < k + 1 ensures texts[j] == "" { if j > 0 { assert texts[j] == tail[j - 1]; } }
      }
    }
  }

  /** The text `extract` gives each content. */
  function Texts(contents: seq<map<string, Value>>, extract: map<string, Value> -> string): (r: seq<string>)
    ensures |r| == |contents|
  {
    if contents == [] then [] else [extract(contents[0])] + Texts(contents[1..], extract)
  }

  lemma TextsCons(c: map<string, Value>, rest: seq<map<string, Value>>, extract: map<string, Value> -> string)
    ensures Texts([c] + rest, extract) == [extract(c)] + Texts(rest, extract)
  {
    assert ([c] + rest)[1..] == rest;
  }

  lemma FirstNonEmptyCons(t: string, rest: seq<string>)
    ensures FirstNonEmpty([t] + rest) == if t != "" then t else FirstNonEmpty(rest)
  {
    assert ([t] + rest)[1..] == rest;
  }

  /** `_extract` for a given runtime. */
  function Extractor(codec: Codec): map<string, Value> -> string {
    c => ExtractContent(c, codec)
  }

  /** The locale fallback of `_extract_post_text`. */
  function LocaleText(post: map<string, Value>, locales: seq<string>, codec: Codec): (r: string)
    ensures Chat.Stripped(r)
  {
    if locales == [] then ""
    else
      var v := Get(post, locales[0], JNull);
      var text := if v.JDict? then ExtractContent(v.fields, codec) else "";
      if text != "" then text else LocaleText(post, locales[1..], codec)
  }

  /**
   * `_extract_post_text`: the post's own content when it has a `content`
   * key and yields text, else the first of the locale contents that does.
   */
  function PostText(post: map<string, Value>, codec: Codec): (r: string)
    ensures Chat.Stripped(r)
  {
    var top := if "content" in post then ExtractContent(post, codec) else "";
    if top != "" then top else LocaleText(post, Locales, codec)
  }

  lemma {:induction false} LocaleTextIsFirst(post: map<string, Value>, locales: seq<string>, codec: Codec)
    ensures LocaleText(post, locales, codec) == FirstNonEmpty(Texts(Candidates(post, locales), Extractor(codec)))
  {
    if locales != [] {
      LocaleTextIsFirst(post, locales[1..], codec);
      var v := Get(post, locales[0], JNull);
      var rest := Candidates(post, locales[1..]);
      if v.JDict? {
        assert Candidates(post, locales) == [v.fields] + rest;
        TextsCons(v.fields, rest, Extractor(codec));
      } else {
        assert Candidates(post, locales) == rest;
      }
    }
  }

  /**
   * The post's text is the text of the first candidate content that has
   * any — the post itself when it has a `content` key, then its `zh_cn`,
   * `en_us` and `ja_jp` contents — and empty when none has.
   */
  lemma PostTextIsFirstCandidate(post: map<string, Value>, codec: Codec)
    ensures var cs := (if "content" in post then [post] else []) + Candidates(post, Locales);
      PostText(post, codec) == FirstNonEmpty(Texts(cs, Extractor(codec)))
  {
    LocaleTextIsFirst(post, Locales, codec);
    var rest := Candidates(post, Locales);
    if "content" in post {
      TextsCons(post, rest, Extractor(codec));
      assert FirstNonEmpty([ExtractContent(post, codec)] + Texts(rest, Extractor(codec))) == PostText(post, codec) by {
        FirstNonEmptyCons(ExtractContent(post, codec), Texts(rest, Extractor(codec)));
      }
    } else {
      assert [] + rest == rest;
    }
  }

  /**
   * `_extract_message_text`: the stripped `text` of a `text` message (the
   * raw content when it is not JSON; an error when it is JSON but not an
   * object, as `.get` then raises), the post text of a `post` message (the
   * raw content when it is not JSON, nothing when it is not an object), and
   * nothing for any other message or a content that is not a string.
   */
  function MessageText(message: map<string, Value>, codec: Codec): (r: Result<string>)
    ensures r.Ok? ==> Chat.Stripped(r.value)
    ensures r.Err? ==> Show(Get(message, "message_type", JStr("")), codec) == "text"
  {
    var kind := Show(Get(message, "message_type", JStr("")), codec);
    var raw := Get(message, "content", JStr(""));
    if !raw.JStr? then Ok("")
    else if kind == "text" then TextContent(raw.s, codec)
    else if kind == "post" then Ok(PostContent(raw.s, codec))
    else Ok("")
  }

  /** The text of a `text` message's content. */
  function TextContent(raw: string, codec: Codec): (r: Result<string>)
    ensures r.Ok? ==> Chat.Stripped(r.value)
  {
    match codec.decode(raw)
    case None =>
      Chat.StripIsStripped(raw);
      Ok(Strip(raw))
    case Some(JDict(d)) =>
      Chat.StripIsStripped(Show(Get(d, "text", JStr("")), codec));
      Ok(Strip(Show(Get(d, "text", JStr("")), codec)))
    case Some(_) => Err("object has no attribute 'get'")
  }

  /** The text of a `post` message's content. */
  function PostContent(raw: string, codec: Codec): (r: string)
    ensures Chat.Stripped(r)
  {
    match codec.decode(raw)
    case None =>
      Chat.StripIsStripped(raw);
      Strip(raw)
    case Some(JDict(d)) => PostText(d, codec)
    case Some(_) => ""
  }

  // ---------------------------------------------------------------------------
  // Where replies go

  /** A receive id and its type, as the send API takes them. */
  datatype Target = Target(idType: string, id: string)

  function IdTypeName(t: Models.ReceiveIdType): string {
    match t
    case ChatId => "chat_id"
    case OpenId => "open_id"
  }

  /**
   * The targets `_send_reply` tries, in order: the sender's open id first
   * in a one-to-one chat, then the chat under the configured id type, then
   * the sender's open id when not already listed.
   */
  function ReplyTargets(idType: Models.ReceiveIdType, chatId: string, sender: string, chatType: string)
    : (r: seq<Target>)
    ensures 1 <= |r| <= 2
    ensures Target(IdTypeName(idType), chatId) in r
    ensures sender != "" ==> Target("open_id", sender) in r
    ensures chatType == "p2p" && sender != "" ==> r[0] == Target("open_id", sender)
    ensures !(chatType == "p2p" && sender != "") ==> r[0] == Target(IdTypeName(idType), chatId)
    ensures forall t :: t in r ==> t == Target(IdTypeName(idType), chatId) || (sender != "" && t == Target("open_id", sender))
  {
    var first := if chatType == "p2p" && sender != "" then [Target("open_id", sender)] else [];
    var targets := first + [Target(IdTypeName(idType), chatId)];
    if sender != "" && Target("open_id", sender) !in targets then targets + [Target("open_id", sender)]
    else targets
  }

  /** The index of the first target `send` delivers to. */
  function FirstDelivered(targets: seq<Target>, send: Target -> Result<bool>): (r: Option<nat>)
    ensures r.Some? ==>
              r.value < |targets| && send(targets[r.value]) == Ok(true)
              && forall k :: 0 <= k < r.value ==> send(targets[k]) != Ok(true)
    ensures r.None? ==> forall k :: 0 <= k < |targets| ==> send(targets[k]) != Ok(true)
  {
    if targets == [] then None
    else if send(targets[0]) == Ok(true) then Some(0)
    else match FirstDelivered(targets[1..], send) {
      case None => None
      case Some(k) => Some(k + 1)
    }
  }

  /**
   * `_send_reply`: try each target in turn, one attempt each, until one
   * accepts the message; a refusal or an exception moves on to the next.
   * `send` is the outcome of `push_feishu_text` for a target (an `Err` is
   * an exception).  Returns whether a target accepted and the targets tried.
   */
  method SendReply(idType: Models.ReceiveIdType, chatId: string, sender: string, chatType: string,
                   send: Target -> Result<bool>) returns (ok: bool, tried: seq<Target>)
    ensures var targets := ReplyTargets(idType, chatId, sender, chatType);
      match FirstDelivered(targets, send)
      case Some(k) => ok && tried == targets[..k + 1]
      case None => !ok && tried == targets
  {
    ok, tried := TryInOrder(ReplyTargets(idType, chatId, sender, chatType), send);
  }

  /** The loop of `_send_reply`: stop at the first target that accepts. */
  method TryInOrder(targets: seq<Target>, send: Target -> Result<bool>) returns (ok: bool, tried: seq<Target>)
    ensures match FirstDelivered(targets, send)
      case Some(k) => ok && tried == targets[..k + 1]
      case None => !ok && tried == targets
  {
    tried := [];
    var i := 0;
    while i < |targets|
      invariant 0 <= i <= |targets| && tried == targets[..i]
      invariant forall k :: 0 <= k < i ==> send(targets[k]) != Ok(true)
    {
      var outcome := send(targets[i]);
      tried := tried + [targets[i]];
      if outcome == Ok(true) {
        FirstDeliveredAt(targets, send, i);
        return true, tried;
      }
      i := i + 1;
    }
    assert tried == targets;
    ok := false;
  }

  lemma FirstDeliveredAt(targets: seq<Target>, send: Target -> Result<bool>, i: nat)
    requires i < |targets| && send(targets[i]) == Ok(true)
    requires forall k :: 0 <= k < i ==> send(targets[k]) != Ok(true)
    ensures FirstDelivered(targets, send) == Some(i)
  {
  }

  // ---------------------------------------------------------------------------
  // Pushing a text message

  /**
   * `push_feishu_text`: refuse missing credentials, then a missing receive
   * id, before anything is sent; otherwise the send loop over
   * `(0,) + retries` with the tenant token cached under
   * `{base_url}|{app_id}`.
   */
  method PushText(cache: Chat.TokenCache, appId: string, appSecret: string, baseUrl: string,
                  receiveId: string, retries: seq<int>, attempt: nat -> Chat.Attempt)
    returns (r: Result<bool>, tries: nat, sleeps: seq<int>)
    modifies cache
    ensures appId == "" || appSecret == "" ==>
      r == Err("Missing Feishu app credentials") && tries == 0 && sleeps == [] && cache.entries == old(cache.entries)
    ensures appId != "" && appSecret != "" && receiveId == "" ==>
      r == Err("Missing Feishu receive_id") && tries == 0 && sleeps == [] && cache.entries == old(cache.entries)
    ensures appId != "" && appSecret != "" && receiveId != "" ==>
      Chat.SendFrom([0] + retries, 0, old(cache.entries), Chat.Step(Chat.CacheKey(appId, baseUrl), attempt))
        == Chat.Sending(r, tries, sleeps, cache.entries)
  {
    if appId == "" || appSecret == "" {
      return Err("Missing Feishu app credentials"), 0, [];
    }
    if receiveId == "" {
      return Err("Missing Feishu receive_id"), 0, [];
    }
    r, tries, sleeps := Chat.Send(cache, Chat.CacheKey(appId, baseUrl), retries, attempt);
  }

  // ---------------------------------------------------------------------------
  // The event callback

  const HelpText: string :=
    "可用命令（支持带/和不带/）：\n"
    + "/run 或 运行日报：立即执行并回传当天完整日报\n"
    + "/latest 或 最新日报：查看最近一次归档摘要\n"
    + "/status 或 状态：查看服务状态与会话ID\n"
    + "/help 或 帮助：查看帮助\n"
    + "\n"
    + "示例：\n"
    + "- 运行日报\n"
    + "- 最新日报\n"
    + "- 状态"

  const UnknownHint: string := "未识别到指令。\n发送 /help 查看可用命令，或直接发送：运行日报 / 最新日报 / 状态"

  const RunAck: string := "已收到 /run，开始执行，请稍候。"

  /**
   * The parts of a callback payload the handler reads: its top-level
   * fields, the `header` object, `event.sender.sender_id` and
   * `event.message` (each the empty object when absent).
   */
  datatype Payload = Payload(
    fields: map<string, Value>,
    header: map<string, Value>,
    senderId: map<string, Value>,
    message: map<string, Value>)

  /**
   * The handler's JSON answer: `{"challenge": …}`,
   * `{"ok": False, "error": "invalid token"}`,
   * `{"ok": True, "duplicate": True}` or `{"ok": True}`.
   */
  datatype Response = Challenge(challenge: Value) | Rejected | Duplicate | Accepted

  /** One `_send_reply` call: the targets it tries and the text. */
  datatype Reply = Reply(targets: seq<Target>, content: string)

  /** One `_run_pipeline_and_reply` background task. */
  datatype RunRequest = RunRequest(chatId: string, senderId: string, chatType: string)

  /** What handling one callback produces; an `Err` is an exception. */
  datatype Outcome = Outcome(response: Result<Response>, replies: seq<Reply>, runs: seq<RunRequest>)

  function Quiet(response: Response): Outcome {
    Outcome(Ok(response), [], [])
  }

  /** The token the callback carries: the payload's when truthy, else the header's. */
  function IncomingToken(p: Payload): Value {
    var top := Get(p.fields, "token", JNull);
    if Truthy(top) then top else Get(p.header, "token", JNull)
  }

  /** The token check passes when none is configured or the incoming one equals it. */
  predicate Authentic(p: Payload, settings: Models.Settings) {
    var expected := Strip(settings.feishuVerificationToken);
    expected == "" || IncomingToken(p) == JStr(expected)
  }

  /** The first truthy value among the keys, `Python`'s `a or b or … or ""`. */
  function FirstTruthy(d: map<string, Value>, keys: seq<string>): (r: Value)
    ensures r == JStr("") || exists k :: k in keys && k in d && d[k] == r && Truthy(r)
  {
    if keys == [] then JStr("")
    else if Truthy(Get(d, keys[0], JNull)) then Get(d, keys[0], JNull)
    else FirstTruthy(d, keys[1..])
  }

  /**
   * The answer given before the event is recorded as seen: the challenge
   * echo, the token rejection, and the acceptance of any event that is not
   * a received message.  `None` when the event goes on to deduplication.
   */
  function Gate(p: Payload, settings: Models.Settings): Option<Response> {
    if Get(p.fields, "type", JNull) == JStr("url_verification") then
      Some(Challenge(Get(p.fields, "challenge", JStr(""))))
    else if !Authentic(p, settings) then Some(Rejected)
    else if Get(p.header, "event_type", JNull) != JStr("im.message.receive_v1") then Some(Accepted)
    else None
  }

  function EventId(p: Payload, codec: Codec): string {
    Show(Get(p.header, "event_id", JStr("")), codec)
  }

  function SenderId(p: Payload, codec: Codec): string {
    Show(FirstTruthy(p.senderId, ["open_id", "user_id", "union_id"]), codec)
  }

  function ChatIdOf(p: Payload, codec: Codec): string {
    Strip(Show(Get(p.message, "chat_id", JStr("")), codec))
  }

  function ChatTypeOf(p: Payload, codec: Codec): string {
    Show(Get(p.message, "chat_type", JStr("")), codec)
  }

  /**
   * A group message is ignored, when mentions are required, unless it
   * lists mentions or its raw content holds an `<at` tag.
   */
  predicate Unaddressed(p: Payload, settings: Models.Settings, codec: Codec) {
    ChatTypeOf(p, codec) == "group" && settings.feishuRequireMention
    && !Truthy(Get(p.message, "mentions", JNull))
    && !Contains(Show(Get(p.message, "content", JStr("")), codec), "<at")
  }

  /**
   * What a new message event leads to: nothing for a sender outside a
   * non-empty allow-list, a message without a chat id or an unaddressed
   * group message; otherwise the answer to its text with mentions removed.
   */
  function Deliver(p: Payload, settings: Models.Settings, codec: Codec, latest: string, status: string)
    : (r: Outcome)
    ensures |r.replies| <= 1 && |r.runs| <= 1
    ensures r.runs != [] ==> |r.replies| == 1 && r.replies[0].content == RunAck
    ensures r.response.Ok? ==> r.response.value == Accepted
  {
    var senderId := SenderId(p, codec);
    var chatId := ChatIdOf(p, codec);
    if settings.feishuAllowFrom != [] && senderId !in settings.feishuAllowFrom then Quiet(Accepted)
    else if chatId == "" then Quiet(Accepted)
    else if Unaddressed(p, settings, codec) then Quiet(Accepted)
    else
      var chatType := ChatTypeOf(p, codec);
      Respond(MessageText(p.message, codec), chatId, senderId, chatType,
              ReplyTargets(settings.feishuReceiveIdType, chatId, senderId, chatType), latest, status)
  }

  /** The answer to the extracted text, or the extraction's exception. */
  function Respond(text: Result<string>, chatId: string, senderId: string, chatType: string, targets: seq<Target>,
                   latest: string, status: string): (r: Outcome)
    ensures |r.replies| <= 1 && |r.runs| <= 1
    ensures r.runs != [] ==> |r.replies| == 1 && r.replies[0].content == RunAck
    ensures r.response.Ok? ==> r.response.value == Accepted
    ensures text.Err? ==> r == Outcome(Err(text.error), [], [])
  {
    match text
    case Err(e) => Outcome(Err(e), [], [])
    case Ok(t) => Answer(StripMentions(t), chatId, senderId, chatType, targets, latest, status)
  }

  /**
   * The reply to a message's text: a hint for unrecognised non-empty text
   * in a one-to-one chat (silence elsewhere), the help text, the latest
   * summary, the status with the chat id appended, or the acknowledgement
   * of `/run` together with one background run.
   */
  function Answer(text: string, chatId: string, senderId: string, chatType: string, targets: seq<Target>,
                  latest: string, status: string): (r: Outcome)
    ensures r.response == Ok(Accepted)
    ensures r.runs == (if Chat.ResolveCommand(text) == Some(Chat.Run) then [RunRequest(chatId, senderId, chatType)] else [])
    ensures Chat.ResolveCommand(text).None? ==>
      r.replies == (if chatType == "p2p" && text != "" then [Reply(targets, UnknownHint)] else [])
    ensures Chat.ResolveCommand(text).Some? ==> |r.replies| == 1 && r.replies[0].targets == targets
  {
    match Chat.ResolveCommand(text)
    case None =>
      if chatType == "p2p" && text != "" then Outcome(Ok(Accepted), [Reply(targets, UnknownHint)], [])
      else Quiet(Accepted)
    case Some(Help) => Outcome(Ok(Accepted), [Reply(targets, HelpText)], [])
    case Some(Latest) => Outcome(Ok(Accepted), [Reply(targets, latest)], [])
    case Some(Status) => Outcome(Ok(Accepted), [Reply(targets, status + "\n当前会话ID：" + chatId)], [])
    case Some(Run) => Outcome(Ok(Accepted), [Reply(targets, RunAck)], [RunRequest(chatId, senderId, chatType)])
  }

  /**
   * `handle_feishu_event` over the seen-event keys: the gate's answer, a
   * duplicate for an event id already seen, else the delivery.  Returns the
   * outcome and the keys afterwards.
   */
  function Handle(keys: seq<string>, p: Payload, settings: Models.Settings, codec: Codec,
                  latest: string, status: string): (r: (Outcome, seq<string>))
    ensures Get(p.fields, "type", JNull) == JStr("url_verification") ==>
      r == (Quiet(Challenge(Get(p.fields, "challenge", JStr("")))), keys)
    ensures Get(p.fields, "type", JNull) != JStr("url_verification") && !Authentic(p, settings) ==>
      r == (Quiet(Rejected), keys)
    ensures r.1 == keys || r.1 == Chat.SeenStep(keys, EventId(p, codec)).1
    ensures |r.0.replies| <= 1 && |r.0.runs| <= 1
    ensures r.0.runs != [] ==> |r.0.replies| == 1 && r.0.replies[0].content == RunAck
  {
    match Gate(p, settings)
    case Some(response) => (Quiet(response), keys)
    case None =>
      var (dup, after) := Chat.SeenStep(keys, EventId(p, codec));
      if dup then (Quiet(Duplicate), after)
      else (Deliver(p, settings, codec, latest, status), after)
  }

  /** The handler against the process-wide event cache. */
  method HandleEvent(cache: Chat.EventCache, p: Payload, settings: Models.Settings, codec: Codec,
                     latest: string, status: string) returns (out: Outcome)
    requires cache.Valid()
    modifies cache
    ensures cache.Valid()
    ensures (out, cache.keys) == Handle(old(cache.keys), p, settings, codec, latest, status)
  {
    var gate := Gate(p, settings);
    if gate.Some? {
      return Quiet(gate.value);
    }
    var dup := cache.Seen(EventId(p, codec));
    if dup {
      return Quiet(Duplicate);
    }
    out := Deliver(p, settings, codec, latest, status);
  }

  /** `_extract_message_text` of a text message whose content is a JSON object. */
  lemma TextOfTextMessage(message: map<string, Value>, codec: Codec, raw: string, d: map<string, Value>, text: string)
    requires Get(message, "message_type", JStr("")) == JStr("text")
    requires Get(message, "content", JStr("")) == JStr(raw)
    requires codec.decode(raw) == Some(JDict(d)) && Get(d, "text", JStr("")) == JStr(text)
    ensures MessageText(message, codec) == Ok(Strip(text))
  {
  }

  /** A mention followed by a word reads, once extracted, as the word alone. */
  lemma MentionedWordExtracted(message: map<string, Value>, codec: Codec, raw: string, d: map<string, Value>,
                               attrs: string, name: string, w: string)
    requires Get(message, "message_type", JStr("")) == JStr("text")
    requires Get(message, "content", JStr("")) == JStr(raw)
    requires codec.decode(raw) == Some(JDict(d)) && Get(d, "text", JStr("")) == JStr(Tag(attrs, name) + " " + w)
    requires forall k :: 0 <= k < |attrs| ==> attrs[k] != '>'
    requires attrs == [] || !IsWordChar(attrs[0])
    requires forall k :: 0 <= k < |name| ==> name[k] != '<'
    requires w != [] && NoSpace(w) && forall k :: 0 <= k < |w| ==> w[k] != '<'
    ensures MessageText(message, codec).Ok? && StripMentions(MessageText(message, codec).value) == w
  {
    TagThenWordStripped(attrs, name, w);
    TextOfTextMessage(message, codec, raw, d, Tag(attrs, name) + " " + w);
    MentionThenWord(attrs, name, w);
  }

  lemma TagThenWordStripped(attrs: string, name: string, w: string)
    requires w != [] && NoSpace(w)
    ensures Strip(Tag(attrs, name) + " " + w) == Tag(attrs, name) + (" " + w)
  {
    var text := Tag(attrs, name) + " " + w;
    assert text == Tag(attrs, name) + (" " + w);
    assert text[0] == '<';
    assert text[|text| - 1] == w[|w| - 1];
    StripUnchanged(text);
  }

  /** A new message event that passes the gate is delivered. */
  lemma NewEventDelivered(keys: seq<string>, p: Payload, settings: Models.Settings, codec: Codec,
                          latest: string, status: string)
    requires Gate(p, settings) == None && EventId(p, codec) !in keys
    ensures Handle(keys, p, settings, codec, latest, status).0 == Deliver(p, settings, codec, latest, status)
  {
    Chat.SeenStepRecords(keys, EventId(p, codec));
  }

  /** A message from an allowed sender, with a chat id, that is addressed to the bot is answered. */
  lemma AddressedMessageAnswered(p: Payload, settings: Models.Settings, codec: Codec, latest: string, status: string)
    requires settings.feishuAllowFrom == [] || SenderId(p, codec) in settings.feishuAllowFrom
    requires ChatIdOf(p, codec) != "" && !Unaddressed(p, settings, codec)
    ensures var chatId, sender, chatType := ChatIdOf(p, codec), SenderId(p, codec), ChatTypeOf(p, codec);
      Deliver(p, settings, codec, latest, status)
        == Respond(MessageText(p.message, codec), chatId, sender, chatType,
                   ReplyTargets(settings.feishuReceiveIdType, chatId, sender, chatType), latest, status)
  {
  }

  /**
   * A new, authentic message event from an allowed sender, addressed to the
   * bot as `<at …>name</at> word`, is answered as the word alone would be.
   */
  lemma MentionedCommandAnswered(keys: seq<string>, p: Payload, settings: Models.Settings, codec: Codec,
                                 latest: string, status: string, raw: string, d: map<string, Value>,
                                 attrs: string, name: string, w: string)
    requires Gate(p, settings) == None && EventId(p, codec) !in keys
    requires settings.feishuAllowFrom == [] || SenderId(p, codec) in settings.feishuAllowFrom
    requires ChatIdOf(p, codec) != "" && !Unaddressed(p, settings, codec)
    requires Get(p.message, "message_type", JStr("")) == JStr("text")
    requires Get(p.message, "content", JStr("")) == JStr(raw)
    requires codec.decode(raw) == Some(JDict(d)) && Get(d, "text", JStr("")) == JStr(Tag(attrs, name) + " " + w)
    requires forall k :: 0 <= k < |attrs| ==> attrs[k] != '>'
    requires attrs == [] || !IsWordChar(attrs[0])
    requires forall k :: 0 <= k < |name| ==> name[k] != '<'
    requires w != [] && NoSpace(w) && forall k :: 0 <= k < |w| ==> w[k] != '<'
    ensures var chatId, sender, chatType := ChatIdOf(p, codec), SenderId(p, codec), ChatTypeOf(p, codec);
      Handle(keys, p, settings, codec, latest, status).0
        == Answer(w, chatId, sender, chatType, ReplyTargets(settings.feishuReceiveIdType, chatId, sender, chatType),
                  latest, status)
  {
    NewEventDelivered(keys, p, settings, codec, latest, status);
    AddressedMessageAnswered(p, settings, codec, latest, status);
    MentionedWordExtracted(p.message, codec, raw, d, attrs, name, w);
  }

  /**
   * `<at …>bot</at> /run` in a group, on a new event: one acknowledgement
   * through the reply targets and one background run for that chat.
   */
  lemma GroupRunAcknowledged(keys: seq<string>, p: Payload, settings: Models.Settings, codec: Codec,
                             latest: string, status: string, raw: string, d: map<string, Value>,
                             attrs: string, name: string)
    requires Gate(p, settings) == None && EventId(p, codec) !in keys
    requires settings.feishuAllowFrom == [] || SenderId(p, codec) in settings.feishuAllowFrom
    requires ChatIdOf(p, codec) != "" && ChatTypeOf(p, codec) == "group"
    requires Truthy(Get(p.message, "mentions", JNull))
    requires Get(p.message, "message_type", JStr("")) == JStr("text")
    requires Get(p.message, "content", JStr("")) == JStr(raw)
    requires codec.decode(raw) == Some(JDict(d)) && Get(d, "text", JStr("")) == JStr(Tag(attrs, name) + " /run")
    requires forall k :: 0 <= k < |attrs| ==> attrs[k] != '>'
    requires attrs == [] || !IsWordChar(attrs[0])
    requires forall k :: 0 <= k < |name| ==> name[k] != '<'
    ensures var chatId, sender := ChatIdOf(p, codec), SenderId(p, codec);
      Handle(keys, p, settings, codec, latest, status).0
        == Outcome(Ok(Accepted), [Reply(ReplyTargets(settings.feishuReceiveIdType, chatId, sender, "group"), RunAck)],
                   [RunRequest(chatId, sender, "group")])
  {
    RunWordPlain(Tag(attrs, name));
    assert !Unaddressed(p, settings, codec);
    MentionedCommandAnswered(keys, p, settings, codec, latest, status, raw, d, attrs, name, "/run");
    Chat.ResolveRun();
    var chatId, sender := ChatIdOf(p, codec), SenderId(p, codec);
    RunAnswered("/run", chatId, sender, "group", ReplyTargets(settings.feishuReceiveIdType, chatId, sender, "group"),
                latest, status);
  }

  lemma RunWordPlain(tag: string)
    ensures NoSpace("/run") && forall k :: 0 <= k < |"/run"| ==> "/run"[k] != '<'
    ensures tag + " /run" == tag + " " + "/run"
  {
    assert " /run" == " " + "/run";
    assert tag + " /run" == tag + (" " + "/run");
  }

  lemma RunAnswered(text: string, chatId: string, senderId: string, chatType: string, targets: seq<Target>,
                    latest: string, status: string)
    requires Chat.ResolveCommand(text) == Some(Chat.Run)
    ensures Answer(text, chatId, senderId, chatType, targets, latest, status)
      == Outcome(Ok(Accepted), [Reply(targets, RunAck)], [RunRequest(chatId, senderId, chatType)])
  {
  }

  /** A group message that neither mentions anyone nor holds an `<at` tag gets no reply when mentions are required. */
  lemma GroupWithoutMentionIgnored(keys: seq<string>, p: Payload, settings: Models.Settings, codec: Codec,
                                   latest: string, status: string)
    requires Gate(p, settings) == None
    requires ChatTypeOf(p, codec) == "group" && settings.feishuRequireMention
    requires !Truthy(Get(p.message, "mentions", JNull))
    requires !Contains(Show(Get(p.message, "content", JStr("")), codec), "<at")
    ensures Handle(keys, p, settings, codec, latest, status).0 in {Quiet(Accepted), Quiet(Duplicate)}
  {
  }

  /**
   * A redelivered event — one whose non-empty id the handler has already
   * recorded — is answered as a duplicate, with no reply and no run.
   */
  lemma RedeliveryIgnored(keys: seq<string>, p: Payload, q: Payload, settings: Models.Settings, codec: Codec,
                          latest: string, status: string)
    requires Gate(p, settings) == None && Gate(q, settings) == None
    requires EventId(p, codec) != "" && EventId(q, codec) == EventId(p, codec)
    ensures var after := Handle(keys, p, settings, codec, latest, status).1;
      Handle(after, q, settings, codec, latest, status) == (Quiet(Duplicate), after)
  {
    Chat.SeenStepRecords(keys, EventId(p, codec));
    var after := Chat.SeenStep(keys, EventId(p, codec)).1;
    Chat.SeenStepRecords(after, EventId(p, codec));
  }
}
