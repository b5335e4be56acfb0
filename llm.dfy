/**
 * The language-model clients.  The chat transport (OpenAI chat completions,
 * the Volcengine responses API) and JSON decoding are parameters; what is
 * modelled is how a response object is read, the heuristic client used when
 * no key is configured, and how replies are turned into labels, key points and
 * observations.
 */
module Llm {
  import opened Wrappers
  import opened Text
  import opened Order
  import opened Models

  // ---------------------------------------------------------------------------
  // Reading a responses-API object

  /** One content part; `partType` and `text` are `None` when the attribute or key is absent. */
  datatype Part = Part(partType: Option<string>, text: Option<string>)

  datatype OutputItem = OutputItem(content: seq<Part>)

  /** A response, whether given as an object or as a dict. */
  datatype Response = Response(outputText: Option<string>, output: seq<OutputItem>)

  predicate IsTextPart(p: Part) {
    p.partType == Some("output_text") || p.partType == Some("text")
  }

  /** A part whose stripped text is collected: a text type and a truthy text. */
  predicate Collected(p: Part) {
    IsTextPart(p) && p.text.Some? && p.text.value != ""
  }

  /** The stripped texts collected from a list of parts, in order. */
  function PartTexts(parts: seq<Part>): seq<string> {
    if parts == [] then []
    else
      var p := parts[|parts| - 1];
      PartTexts(parts[..|parts| - 1]) + (if Collected(p) then [Strip(p.text.value)] else [])
  }

  /** The stripped texts collected from every output item, in order. */
  function OutputTexts(output: seq<OutputItem>): seq<string> {
    if output == [] then []
    else OutputTexts(output[..|output| - 1]) + PartTexts(output[|output| - 1].content)
  }

  /** Every collected text comes from a text-typed part and is stripped. */
  lemma {:induction false} PartTextsFromTextParts(parts: seq<Part>)
    ensures forall t :: t in PartTexts(parts) ==>
      exists k :: 0 <= k < |parts| && Collected(parts[k]) && t == Strip(parts[k].text.value)
  {
    if parts != [] {
      var init := parts[..|parts| - 1];
      PartTextsFromTextParts(init);
      forall t | t in PartTexts(parts)
        ensures exists k :: 0 <= k < |parts| && Collected(parts[k]) && t == Strip(parts[k].text.value)
      {
        if t in PartTexts(init) {
          var k :| 0 <= k < |init| && Collected(init[k]) && t == Strip(init[k].text.value);
          assert parts[k] == init[k];
        } else {
          assert Collected(parts[|parts| - 1]);
        }
      }
    }
  }

  /** A list of parts without a truthy text part contributes nothing. */
  lemma {:induction false} PartTextsNone(parts: seq<Part>)
    requires forall k :: 0 <= k < |parts| ==> !Collected(parts[k])
    ensures PartTexts(parts) == []
  {
    if parts != [] {
      PartTextsNone(parts[..|parts| - 1]);
    }
  }

  /** The text `_extract_response_text` returns. */
  function ResponseText(r: Response): string {
    if r.outputText.Some? && r.outputText.value != "" then Strip(r.outputText.value)
    else Strip(Join(NonEmpty(OutputTexts(r.output)), "\n"))
  }

  /** A truthy `output_text` wins, whatever the output items hold. */
  lemma OutputTextFirst(r: Response, output: seq<OutputItem>)
    requires r.outputText.Some? && r.outputText.value != ""
    ensures ResponseText(r) == ResponseText(r.(output := output)) == Strip(r.outputText.value)
  {
  }

  /** `_extract_response_text`: the nested loops over output items and their parts. */
  method ExtractResponseText(response: Response) returns (text: string)
    ensures text == ResponseText(response)
  {
    if response.outputText.Some? && response.outputText.value != "" {
      return Strip(response.outputText.value);
    }
    var texts: seq<string> := [];
    var i := 0;
    while i < |response.output|
      invariant 0 <= i <= |response.output|
      invariant texts == OutputTexts(response.output[..i])
    {
      var more := CollectPartTexts(response.output[i].content);
      assert response.output[..i + 1][..i] == response.output[..i];
      texts := texts + more;
      i := i + 1;
    }
    assert response.output[..i] == response.output;
    text := Strip(Join(NonEmpty(texts), "\n"));
  }

  /** The inner loop of `_extract_response_text`: the texts of one output item's parts. */
  method CollectPartTexts(content: seq<Part>) returns (texts: seq<string>)
    ensures texts == PartTexts(content)
  {
    texts := [];
    var j := 0;
    while j < |content|
      invariant 0 <= j <= |content|
      invariant texts == PartTexts(content[..j])
    {
      var part := content[j];
      assert content[..j + 1][..j] == content[..j];
      if IsTextPart(part) && part.text.Some? && part.text.value != "" {
        texts := texts + [Strip(part.text.value)];
      }
      j := j + 1;
    }
    assert content[..j] == content;
  }

  /** Two stripped, non-empty text parts each contribute their own text. */
  lemma TwoPartTexts(first: string, second: string, parts: seq<Part>)
    requires first != "" && Strip(first) == first && second != "" && Strip(second) == second
    requires parts == [Part(Some("output_text"), Some(first)), Part(Some("output_text"), Some(second))]
    ensures PartTexts(parts) == [first, second]
  {
    assert Collected(parts[0]) && Collected(parts[1]);
    assert parts[..1] == [parts[0]];
    assert [parts[0]][..0] == [];
    assert PartTexts([parts[0]]) == [first];
    assert PartTexts(parts) == PartTexts(parts[..1]) + [second];
  }

  /** A response of two stripped, non-empty text parts reads as the two joined by a newline. */
  lemma TwoPartResponse(first: string, second: string)
    requires first != "" && Strip(first) == first && second != "" && Strip(second) == second
    ensures ResponseText(Response(None, [OutputItem([
      Part(Some("output_text"), Some(first)), Part(Some("output_text"), Some(second))])]))
      == Strip(first + "\n" + second)
  {
    var parts := [Part(Some("output_text"), Some(first)), Part(Some("output_text"), Some(second))];
    TwoPartTexts(first, second, parts);
    var output := [OutputItem(parts)];
    var texts := [first, second];
    assert OutputTexts(output) == texts by {
      assert output[..0] == [];
    }
    assert NonEmpty(texts) == texts;
    assert Join(texts, "\n") == first + "\n" + second by {
      assert texts[1..] == [second];
    }
    assert ResponseText(Response(None, output)) == Strip(Join(NonEmpty(texts), "\n"));
  }

  /** The two-part response of the extraction example joins its lines with a newline. */
  lemma ExtractExample(first: string, second: string)
    requires first == "第一行" && second == "第二行"
    ensures ResponseText(Response(None, [OutputItem([
      Part(Some("output_text"), Some(first)), Part(Some("output_text"), Some(second))])]))
      == first + "\n" + second
  {
    StripUnchanged(first);
    StripUnchanged(second);
    TwoPartResponse(first, second);
    StripUnchanged(first + "\n" + second);
  }

  /** The response-object example: `output_text` alone is returned. */
  lemma OutputTextExample(s: string)
    requires s == "连接成功"
    ensures ResponseText(Response(Some(s), [])) == s
  {
    StripUnchanged(s);
  }

  // ---------------------------------------------------------------------------
  // The heuristic client

  /** `FallbackLLMClient.classify_perspective`: never decides. */
  function FallbackClassify(title: string, content: string): (r: Option<Perspective>)
    ensures r.None?
  {
    None
  }

  const SnippetMax: int := 120

  /** The text the heuristic summary quotes: stripped content, else stripped title, else the raw title. */
  function SummarySource(title: string, content: string): (t: string)
    ensures content != "" && Strip(content) != "" ==> t == Strip(content)
    ensures content == "" && Strip(title) != "" ==> t == Strip(title)
    ensures t == "" ==> Strip(title) == ""
  {
    var text := Strip(if content != "" then content else title);
    if text == "" then title else text
  }

  function SourceLine(sourceName: string): (r: string)
    ensures r != ""
  {
    "该信息由" + sourceName + "发布，主题与 AI 发展相关。"
  }

  const CoreLabel: string := "核心内容："

  /** `FallbackLLMClient.summarize_item`: exactly three fixed-shape points. */
  function FallbackSummary(title: string, content: string, sourceName: string, url: string): (r: seq<string>)
    ensures |r| == 3
    ensures r[0] != "" && r[1] != "" && r[2] != ""
  {
    [SourceLine(sourceName), CoreLabel + Take(SummarySource(title, content), SnippetMax),
     "可通过原文进一步确认发布时间与细节：" + url]
  }

  /** The second heuristic point quotes the start of the item, at most 120 characters of it. */
  lemma FallbackSummaryQuotes(title: string, content: string, sourceName: string, url: string)
    ensures exists snippet :: (|snippet| <= SnippetMax && StartsWith(SummarySource(title, content), snippet)
      && FallbackSummary(title, content, sourceName, url)[1] == CoreLabel + snippet)
  {
    var snippet := Take(SummarySource(title, content), SnippetMax);
    assert StartsWith(SummarySource(title, content), snippet);
    assert FallbackSummary(title, content, sourceName, url)[1] == CoreLabel + snippet;
  }

  const IntroLead: string := "今日 AI 资讯覆盖产品、技术与行业动态。重点包括："

  /** `FallbackLLMClient.compose_intro`: a fixed lead and the first three titles. */
  function FallbackIntro(titles: seq<string>): (r: string)
    ensures StartsWith(r, IntroLead)
  {
    IntroLead + Join(Take(titles, 3), "；") + "。"
  }

  /** The heuristic introduction reads no title after the third. */
  lemma FallbackIntroFirstThree(a: seq<string>, b: seq<string>)
    requires Take(a, 3) == Take(b, 3)
    ensures FallbackIntro(a) == FallbackIntro(b)
  {
  }

  /** `FallbackLLMClient.compose_observations`: two fixed sentences, whatever the snippets. */
  function FallbackObservations(snippets: seq<string>): (r: seq<string>)
    ensures |r| == 2 && r[0] != "" && r[1] != ""
  {
    ["模型发布与应用落地并行推进，产品化节奏持续加快。",
     "国内外厂商在成本、推理效率和场景深度上竞争明显。"]
  }

  // ---------------------------------------------------------------------------
  // Post-processing of model replies

  /** The label of a classification reply: the first of product, technology, industry its lower-case form contains. */
  function ParseLabel(raw: string): (r: Option<Perspective>)
    ensures r == Some(Product) <==> Contains(Lower(raw), "product")
    ensures r == Some(Technology) <==> !Contains(Lower(raw), "product") && Contains(Lower(raw), "technology")
    ensures r == Some(Industry) <==>
      !Contains(Lower(raw), "product") && !Contains(Lower(raw), "technology") && Contains(Lower(raw), "industry")
    ensures r.Some? ==> Contains(Lower(raw), PerspectiveValue(r.value))
  {
    var l := Lower(raw);
    if Contains(l, "product") then Some(Product)
    else if Contains(l, "technology") then Some(Technology)
    else if Contains(l, "industry") then Some(Industry)
    else None
  }

  /** `[str(p).strip() for p in points if str(p).strip()]`. */
  function StrippedPoints(points: seq<string>): (r: seq<string>)
    ensures |r| <= |points|
    ensures forall t :: t in r ==> t != "" && exists k :: 0 <= k < |points| && t == Strip(points[k])
  {
    if points == [] then []
    else (if Strip(points[0]) != "" then [Strip(points[0])] else []) + StrippedPoints(points[1..])
  }

  const SummaryHint: string := "建议阅读原文确认关键细节。"

  /**
   * The key points of a summary reply: the decoded `points` list when it has a
   * non-blank entry (at most four), else the raw reply cut to 120 chars and a
   * fixed hint.  `decoded` is `None` when the reply is not a JSON object.
   */
  function SummaryPoints(raw: string, decoded: Option<seq<string>>): (r: seq<string>)
    ensures 1 <= |r| <= 4
    ensures decoded.Some? && StrippedPoints(decoded.value) != [] ==>
      r == Take(StrippedPoints(decoded.value), 4) && forall t :: t in r ==> t != ""
    ensures decoded.None? || StrippedPoints(decoded.value) == [] ==>
      r == [Take(raw, SnippetMax), SummaryHint] && |r[0]| <= SnippetMax
  {
    var points := if decoded.Some? then StrippedPoints(decoded.value) else [];
    if points != [] then Take(points, 4) else [Take(raw, SnippetMax), SummaryHint]
  }

  const ObservationHint: string := "今日信息显示模型能力迭代与应用落地持续共振。"

  /** The observations of a reply: at most two non-blank decoded entries, else one fixed sentence. */
  function ObservationPoints(decoded: Option<seq<string>>): (r: seq<string>)
    ensures 1 <= |r| <= 2
    ensures forall t :: t in r ==> t != ""
    ensures decoded.Some? && StrippedPoints(decoded.value) != [] ==> r == Take(StrippedPoints(decoded.value), 2)
  {
    var obs := if decoded.Some? then StrippedPoints(decoded.value) else [];
    if obs != [] then Take(obs, 2) else [ObservationHint]
  }

  // ---------------------------------------------------------------------------
  // Clients

  /**
   * What `data.get(key, [])` gives a list comprehension over a reply: the
   * reply is no JSON object; or the `str()` of each value iterating the
   * entry yields (the items of a list, the characters of a string, the keys
   * of an object, none when the key is missing); or the entry is null, a
   * number or a boolean, which cannot be iterated.
   */
  datatype Decoded = NotAnObject | Entries(values: seq<string>) | NotIterable

  /** The exception iterating a null, a number or a boolean raises. */
  const NotIterableError: string := "TypeError: object is not iterable"

  /** The reply's entries as `SummaryPoints` and `ObservationPoints` read them, or the `TypeError` iterating raises. */
  function DecodedList(d: Decoded): (r: Result<Option<seq<string>>>)
    ensures r.Err? <==> d.NotIterable?
    ensures d.Entries? ==> r == Ok(Some(d.values))
    ensures d.NotAnObject? ==> r == Ok(None)
  {
    match d
    case NotAnObject => Ok(None)
    case Entries(values) => Ok(Some(values))
    case NotIterable => Err(NotIterableError)
  }

  /**
   * A client: the heuristic one, or a remote model reached through `ask`
   * (system prompt, user prompt) with `decode` reading the entry under a key
   * of the reply.
   */
  datatype Client =
    | Heuristic
    | Remote(ask: (string, string) -> Result<string>, decode: (string, string) -> Decoded)

  /** `VolcengineLLMClient._respond`: both prompts merged into one input, the reply read by `ResponseText`. */
  function VolcengineAsk(respond: string -> Result<Response>): (string, string) -> Result<string> {
    (system: string, user: string) =>
      match respond(system + "\n\n" + user)
      case Ok(resp) => Ok(Strip(ResponseText(resp)))
      case Err(e) => Err(e)
  }

  /** The reply the Volcengine client reads is the stripped response text. */
  lemma VolcengineAskReads(respond: string -> Result<Response>, system: string, user: string, resp: Response)
    requires respond(system + "\n\n" + user) == Ok(resp)
    ensures VolcengineAsk(respond)(system, user) == Ok(Strip(ResponseText(resp)))
  {
  }

  function ClassifyPrompt(title: string, content: string): string {
    "请只输出一个英文标签：product 或 technology 或 industry。" + "\n标题:" + title + "\n内容:" + Take(content, 1200)
  }

  /** `classify_perspective`; an error is the exception the transport raises. */
  function ClassifyPerspective(c: Client, title: string, content: string): (r: Result<Option<Perspective>>)
    ensures c.Heuristic? ==> r == Ok(None)
    ensures c.Remote? && c.ask("你是AI资讯分类助手。", ClassifyPrompt(title, content)).Ok? ==>
      r == Ok(ParseLabel(c.ask("你是AI资讯分类助手。", ClassifyPrompt(title, content)).value))
  {
    match c
    case Heuristic => Ok(FallbackClassify(title, content))
    case Remote(ask, _) =>
      match ask("你是AI资讯分类助手。", ClassifyPrompt(title, content))
      case Ok(raw) => Ok(ParseLabel(raw))
      case Err(e) => Err(e)
  }

  function SummaryPrompt(title: string, content: string, sourceName: string, url: string): string {
    "请将以下资讯总结为JSON，格式为{\"points\":[\"...\",\"...\"]}，2-4条，中文，简洁。"
    + "\n标题:" + title + "\n来源:" + sourceName + "\n链接:" + url + "\n内容:" + Take(content, 4000)
  }

  /**
   * `summarize_item`: one to four points whenever the transport answers and
   * the `points` entry can be iterated; a `TypeError` when it cannot.
   */
  function SummarizeItem(c: Client, title: string, content: string, sourceName: string, url: string)
    : (r: Result<seq<string>>)
    ensures c.Heuristic? ==> r == Ok(FallbackSummary(title, content, sourceName, url))
    ensures r.Ok? ==> 1 <= |r.value| <= 4
    ensures c.Remote? ==> var reply := c.ask("你是严谨的科技编辑。", SummaryPrompt(title, content, sourceName, url));
      (reply.Err? ==> r == Err(reply.error))
      && (reply.Ok? && c.decode(reply.value, "points").NotIterable? ==> r == Err(NotIterableError))
      && (reply.Ok? && c.decode(reply.value, "points").NotAnObject? ==> r == Ok([Take(reply.value, SnippetMax), SummaryHint]))
  {
    match c
    case Heuristic => Ok(FallbackSummary(title, content, sourceName, url))
    case Remote(ask, decode) =>
      match ask("你是严谨的科技编辑。", SummaryPrompt(title, content, sourceName, url))
      case Ok(raw) =>
        (match DecodedList(decode(raw, "points"))
         case Ok(points) => Ok(SummaryPoints(raw, points))
         case Err(e) => Err(e))
      case Err(e) => Err(e)
  }

  /** `compose_intro`: the heuristic lead, or the remote reply to the first twelve titles. */
  function ComposeIntro(c: Client, titles: seq<string>): (r: Result<string>)
    ensures c.Heuristic? ==> r == Ok(FallbackIntro(titles))
    ensures c.Remote? ==> r == c.ask("你是AI日报主编。", "请基于这些标题写3-5句中文日报导语：\n" + Join(Take(titles, 12), "\n"))
  {
    match c
    case Heuristic => Ok(FallbackIntro(titles))
    case Remote(ask, _) => ask("你是AI日报主编。", "请基于这些标题写3-5句中文日报导语：\n" + Join(Take(titles, 12), "\n"))
  }

  function ObservationsPrompt(snippets: seq<string>): string {
    "请基于以下信息给出1-2条跨来源观察，返回JSON: {\"observations\":[\"...\"]}\n" + Join(Take(snippets, 20), "\n")
  }

  /**
   * `compose_observations`: one or two non-blank observations whenever the
   * transport answers and the `observations` entry can be iterated; a
   * `TypeError` when it cannot.
   */
  function ComposeObservations(c: Client, snippets: seq<string>): (r: Result<seq<string>>)
    ensures c.Heuristic? ==> r == Ok(FallbackObservations(snippets))
    ensures r.Ok? ==> 1 <= |r.value| <= 2 && forall t :: t in r.value ==> t != ""
    ensures c.Remote? ==> var reply := c.ask("你是行业分析师。", ObservationsPrompt(snippets));
      (reply.Err? ==> r == Err(reply.error))
      && (reply.Ok? && c.decode(reply.value, "observations").NotIterable? ==> r == Err(NotIterableError))
      && (reply.Ok? && c.decode(reply.value, "observations").NotAnObject? ==> r == Ok([ObservationHint]))
  {
    match c
    case Heuristic => Ok(FallbackObservations(snippets))
    case Remote(ask, decode) =>
      match ask("你是行业分析师。", ObservationsPrompt(snippets))
      case Ok(raw) =>
        (match DecodedList(decode(raw, "observations"))
         case Ok(obs) => Ok(ObservationPoints(obs))
         case Err(e) => Err(e))
      case Err(e) => Err(e)
  }
}
