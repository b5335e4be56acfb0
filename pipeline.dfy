/**
 * The daily run: collect every source, normalize within the last 24 hours,
 * drop items seen in the last 7 days, deduplicate, classify, rank, select,
 * build the brief, push it, and record the run in the ledger.  Every source
 * fetch, hash, similarity, language-model call and push is a parameter
 * (`Services`); the ledger is a `StateStore`.
 */
module Pipeline {
  import opened Wrappers
  import opened Text
  import opened Order
  import opened Models
  import Normalizer
  import Deduper
  import Classifier
  import Ranker
  import Llm
  import Config
  import Publisher
  import opened Storage

  // ---------------------------------------------------------------------------
  // Channel truncation

  const TruncationNotice: string := "\n\n(内容过长，已截断)"
  const WecomMaxChars: int := 3800
  const FeishuMaxChars: int := 6000

  /** The shared body of `_to_wecom_content` and `_to_feishu_content`. */
  function Truncate(content: string, maxChars: int): (r: string)
    ensures |content| <= maxChars ==> r == content
    ensures |content| > maxChars ==> EndsWith(r, TruncationNotice) && r[..|r| - |TruncationNotice|] <= content
    ensures |content| > maxChars >= 20 ==> |r| == maxChars - 8 && r[..maxChars - 20] == content[..maxChars - 20]
    ensures maxChars >= 20 ==> |r| <= maxChars
  {
    assert |TruncationNotice| == 12;
    if |content| <= maxChars then content
    else
      var r := Take(content, maxChars - 20) + TruncationNotice;
      assert r[..|r| - |TruncationNotice|] == Take(content, maxChars - 20);
      r
  }

  /** Truncating what already fits changes nothing: the channel text is stable. */
  lemma TruncateStable(content: string, maxChars: int)
    requires maxChars >= 20
    ensures Truncate(Truncate(content, maxChars), maxChars) == Truncate(content, maxChars)
  {
  }

  /** `_to_wecom_content`: at most 3800 characters, unchanged when it fits. */
  function ToWecomContent(markdown: string): (r: string)
    ensures |r| <= WecomMaxChars
    ensures |markdown| <= WecomMaxChars <==> r == markdown
  {
    Truncate(markdown, WecomMaxChars)
  }

  /** `_to_feishu_content`: at most 6000 characters, unchanged when it fits. */
  function ToFeishuContent(markdown: string): (r: string)
    ensures |r| <= FeishuMaxChars
    ensures |markdown| <= FeishuMaxChars <==> r == markdown
  {
    Truncate(markdown, FeishuMaxChars)
  }

  // ---------------------------------------------------------------------------
  // The brief

  const ReadOriginal: string := "建议阅读原文了解完整信息。"

  /** The key points a brief item keeps: the non-empty ones, at most four, padded by a hint when fewer than two. */
  function BriefKeyPoints(points: seq<string>): (r: seq<string>)
    ensures 1 <= |r| <= 4
    ensures forall t :: t in r ==> t != ""
    ensures |NonEmpty(points)| >= 2 ==> r == Take(NonEmpty(points), 4)
    ensures |NonEmpty(points)| < 2 ==> r == NonEmpty(points) + [ReadOriginal]
  {
    var kept := Take(NonEmpty(points), 4);
    if |kept| < 2 then kept + [ReadOriginal] else kept
  }

  /** Key points that are already clean (two to four, none empty) are kept as they are. */
  lemma BriefKeyPointsKeepsClean(points: seq<string>)
    requires 2 <= |points| <= 4 && forall k :: 0 <= k < |points| ==> points[k] != ""
    ensures BriefKeyPoints(points) == points
  {
  }

  /** The points the summarizer gives, with the heuristic client standing in when the call raises. */
  function SummaryOf(llm: Llm.Client, item: RankedItem): seq<string> {
    match Llm.SummarizeItem(llm, item.Title(), item.Content(), item.SourceName(), item.Url())
    case Ok(points) => points
    case Err(_) => Llm.FallbackSummary(item.Title(), item.Content(), item.SourceName(), item.Url())
  }

  /** The summarizing step of `_build_brief` as a function of the item. */
  function Summarizer(llm: Llm.Client): RankedItem -> seq<string> {
    (item: RankedItem) => SummaryOf(llm, item)
  }

  /**
   * The brief item of one selected item, given the summarizer; `importance`
   * and `insight` keep their defaults, since `_build_brief` sets neither.
   */
  function BriefItemOf(summarize: RankedItem -> seq<string>, item: RankedItem): (b: BriefItem)
    ensures b.title == item.Title() && b.url == item.Url() && b.sourceName == item.SourceName()
    ensures b.perspective == item.PerspectiveOf() && b.score == item.score
    ensures b.keyPoints == BriefKeyPoints(summarize(item)) && 1 <= |b.keyPoints| <= 4
    ensures b.importance == BriefItemImportance && b.insight == BriefItemInsight
  {
    BriefItem(item.PerspectiveOf(), item.Title(), BriefKeyPoints(summarize(item)),
              item.SourceName(), item.Url(), item.score, BriefItemImportance, BriefItemInsight)
  }

  function BriefItems(summarize: RankedItem -> seq<string>, selected: seq<RankedItem>): seq<BriefItem> {
    if selected == [] then []
    else BriefItems(summarize, selected[..|selected| - 1]) + [BriefItemOf(summarize, selected[|selected| - 1])]
  }

  /** One brief item per selected item, in selection order. */
  lemma {:induction false} BriefItemsAt(summarize: RankedItem -> seq<string>, selected: seq<RankedItem>, k: int)
    requires 0 <= k < |selected|
    ensures |BriefItems(summarize, selected)| == |selected|
    ensures BriefItems(summarize, selected)[k] == BriefItemOf(summarize, selected[k])
  {
    var init := selected[..|selected| - 1];
    var last := BriefItemOf(summarize, selected[|selected| - 1]);
    assert BriefItems(summarize, selected) == BriefItems(summarize, init) + [last];
    BriefItemsLength(summarize, init);
    if k < |init| {
      BriefItemsAt(summarize, init, k);
    }
  }

  lemma {:induction false} BriefItemsLength(summarize: RankedItem -> seq<string>, selected: seq<RankedItem>)
    ensures |BriefItems(summarize, selected)| == |selected|
  {
    if selected != [] {
      BriefItemsLength(summarize, selected[..|selected| - 1]);
    }
  }

  /** `f"{item.title} {'; '.join(item.key_points)}"`. */
  function Snippet(b: BriefItem): string {
    b.title + " " + Join(b.keyPoints, "; ")
  }

  function Titles(items: seq<BriefItem>): (r: seq<string>)
    ensures |r| == |items|
  {
    seq(|items|, i requires 0 <= i < |items| => items[i].title)
  }

  function Snippets(items: seq<BriefItem>): (r: seq<string>)
    ensures |r| == |items|
  {
    seq(|items|, i requires 0 <= i < |items| => Snippet(items[i]))
  }

  function IntroOf(llm: Llm.Client, titles: seq<string>): string {
    match Llm.ComposeIntro(llm, titles)
    case Ok(intro) => intro
    case Err(_) => Llm.FallbackIntro(titles)
  }

  function ObservationsOf(llm: Llm.Client, snippets: seq<string>): seq<string> {
    match Llm.ComposeObservations(llm, snippets)
    case Ok(observations) => observations
    case Err(_) => Llm.FallbackObservations(snippets)
  }

  predicate ValidDate(d: Date) {
    1 <= d.year <= 9999 && 1 <= d.month <= 12 && 1 <= d.day <= 31
  }

  /** `date.isoformat()`: `YYYY-MM-DD`, zero-padded. */
  function IsoDate(d: Date): (s: string)
    requires ValidDate(d)
    ensures |s| == 10 && s[4] == '-' && s[7] == '-'
  {
    Show2(d.year / 100) + Show2(d.year % 100) + "-" + Show2(d.month) + "-" + Show2(d.day)
  }

  const TitlePrefix: string := "AI 每日情报 | "

  /** What `_build_brief` returns for the selected items, with `createdAt` the clock reading. */
  function Brief(llm: Llm.Client, selected: seq<RankedItem>, localDate: Date, createdAt: int): DailyBrief
    requires ValidDate(localDate)
  {
    var items := BriefItems(Summarizer(llm), selected);
    DailyBrief(localDate, TitlePrefix + IsoDate(localDate), IntroOf(llm, Titles(items)), items,
               Take(ObservationsOf(llm, Snippets(items)), 2), createdAt)
  }

  /** The brief lists every selected item once, in order, with one to four key points, and at most two observations. */
  lemma BriefShape(llm: Llm.Client, selected: seq<RankedItem>, localDate: Date, createdAt: int)
    requires ValidDate(localDate)
    ensures var b := Brief(llm, selected, localDate, createdAt);
      |b.items| == |selected| && |b.observations| <= 2 && StartsWith(b.title, TitlePrefix)
      && forall k :: 0 <= k < |selected| ==>
        b.items[k].title == selected[k].Title() && b.items[k].url == selected[k].Url()
        && b.items[k].sourceName == selected[k].SourceName() && b.items[k].score == selected[k].score
        && 1 <= |b.items[k].keyPoints| <= 4
  {
    var b := Brief(llm, selected, localDate, createdAt);
    BriefItemsLength(Summarizer(llm), selected);
    forall k | 0 <= k < |selected|
      ensures b.items[k].title == selected[k].Title() && b.items[k].url == selected[k].Url()
        && b.items[k].sourceName == selected[k].SourceName() && b.items[k].score == selected[k].score
        && 1 <= |b.items[k].keyPoints| <= 4
    {
      BriefItemsAt(Summarizer(llm), selected, k);
    }
    assert b.title[..|TitlePrefix|] == TitlePrefix;
  }

  /** The body of the summarizing loop of `_build_brief` for one item. */
  method SummarizeStep(llm: Llm.Client, item: RankedItem) returns (b: BriefItem)
    ensures b == BriefItemOf(Summarizer(llm), item)
  {
    var points: seq<string>;
    var answer := Llm.SummarizeItem(llm, item.Title(), item.Content(), item.SourceName(), item.Url());
    if answer.Ok? {
      points := answer.value;
    } else {
      points := Llm.FallbackSummary(item.Title(), item.Content(), item.SourceName(), item.Url());
    }
    b := BriefItem(item.PerspectiveOf(), item.Title(), BriefKeyPoints(points), item.SourceName(), item.Url(),
                   item.score, BriefItemImportance, BriefItemInsight);
  }

  /** A reply whose `points` entry cannot be iterated raises, and the item falls back to the heuristic summary. */
  lemma NullPointsFallsBack(llm: Llm.Client, item: RankedItem)
    requires llm.Remote?
    requires var reply := llm.ask("你是严谨的科技编辑。",
        Llm.SummaryPrompt(item.Title(), item.Content(), item.SourceName(), item.Url()));
      reply.Ok? && llm.decode(reply.value, "points").NotIterable?
    ensures SummaryOf(llm, item) == Llm.FallbackSummary(item.Title(), item.Content(), item.SourceName(), item.Url())
  {
  }

  /** Items built one by one are the brief items of the selection. */
  lemma BriefItemsFrom(summarize: RankedItem -> seq<string>, selected: seq<RankedItem>, items: seq<BriefItem>)
    requires |items| == |selected|
    requires forall k :: 0 <= k < |selected| ==> items[k] == BriefItemOf(summarize, selected[k])
    ensures items == BriefItems(summarize, selected)
  {
    BriefItemsLength(summarize, selected);
    forall k | 0 <= k < |selected|
      ensures items[k] == BriefItems(summarize, selected)[k]
    {
      BriefItemsAt(summarize, selected, k);
    }
  }

  /** The summarizing loop of `_build_brief`. */
  method SummarizeAll(llm: Llm.Client, selected: seq<RankedItem>) returns (items: seq<BriefItem>)
    ensures items == BriefItems(Summarizer(llm), selected)
  {
    items := [];
    var i := 0;
    while i < |selected|
      invariant 0 <= i <= |selected|
      invariant items == BriefItems(Summarizer(llm), selected[..i])
    {
      var b := SummarizeStep(llm, selected[i]);
      BriefItemsSnoc(Summarizer(llm), selected, i);
      items := items + [b];
      i := i + 1;
    }
    assert selected[..i] == selected;
  }

  /** One more selected item appends its brief item. */
  lemma BriefItemsSnoc(summarize: RankedItem -> seq<string>, selected: seq<RankedItem>, i: int)
    requires 0 <= i < |selected|
    ensures BriefItems(summarize, selected[..i + 1]) == BriefItems(summarize, selected[..i]) + [BriefItemOf(summarize, selected[i])]
  {
    assert selected[..i + 1][..i] == selected[..i];
  }

  /** `_build_brief`: summarize each selected item, then compose the introduction and observations. */
  method BuildBrief(llm: Llm.Client, selected: seq<RankedItem>, localDate: Date, createdAt: int)
    returns (brief: DailyBrief)
    requires ValidDate(localDate)
    ensures brief == Brief(llm, selected, localDate, createdAt)
  {
    var items := SummarizeAll(llm, selected);
    var intro := IntroOf(llm, Titles(items));
    var observations := ObservationsOf(llm, Snippets(items));
    brief := DailyBrief(localDate, TitlePrefix + IsoDate(localDate), intro, items, Take(observations, 2), createdAt);
  }

  // ---------------------------------------------------------------------------
  // The run as written against the declared models
  //
  // app/models.py declares fewer fields than its readers use: `Settings`
  // has no `http_proxy`, `BriefItem` neither `importance` nor `insight`.
  // On a Pydantic model an undeclared attribute does not exist, so reading
  // one raises `AttributeError`.

  /** The attributes app/models.py declares for `Settings`. */
  const DeclaredSettingsFields: set<string> := {
    "timezone", "schedule_time", "collector_trigger_time", "item_min", "item_max", "mix_min_each",
    "max_items_per_source", "llm_provider", "llm_model", "volcengine_base_url", "ark_api_key",
    "push_enabled", "wechat_webhook", "feishu_enabled", "feishu_app_id", "feishu_app_secret",
    "feishu_verification_token", "feishu_encrypt_key", "feishu_base_url", "feishu_connection_mode",
    "feishu_ws_reconnect_seconds", "feishu_push_targets", "feishu_receive_id_type", "feishu_allow_from",
    "feishu_require_mention", "openai_api_key", "request_timeout_seconds", "db_path", "archives_dir",
    "log_level"}

  /** What reading `settings.http_proxy` raises on a `Settings` whose model lacks the field. */
  const MissingHttpProxy: string := "'Settings' object has no attribute 'http_proxy'"

  /** What reading `item.importance` raises on a `BriefItem` as declared. */
  const MissingImportance: string := "'BriefItem' object has no attribute 'importance'"

  /**
   * `settings.http_proxy.strip() or None`, the first statement of the run's
   * `try` block, on a settings model with the attributes `fields`.
   */
  function ReadProxy(fields: set<string>, settings: Settings): (r: Result<Option<string>>)
    ensures r.Ok? <==> "http_proxy" in fields
    ensures r.Ok? ==> r.value == Proxy(settings)
    ensures r.Err? ==> r.error == MissingHttpProxy
  {
    if "http_proxy" in fields then Ok(Proxy(settings)) else Err(MissingHttpProxy)
  }

  /**
   * `render_markdown(brief)` (first reached through `archive_brief`) on the
   * brief `_build_brief` builds when `BriefItem` declares neither
   * `importance` nor `insight`: the first item's `item.importance` raises,
   * so only a brief without items renders.
   */
  function RenderAsWritten(brief: DailyBrief): (r: Result<string>)
    ensures r.Ok? <==> brief.items == []
    ensures r.Err? ==> r.error == MissingImportance
  {
    if brief.items == [] then Ok(Publisher.Markdown(brief)) else Err(MissingImportance)
  }

  /** What the steps after `_build_brief` end in as written: the rendering, then the push when enabled. */
  function DeliveryAsWritten(svc: Services, settings: Settings, pushEnabled: bool, brief: DailyBrief): Result<()> {
    match RenderAsWritten(brief)
    case Err(e) => Err(e)
    case Ok(markdown) => if pushEnabled then PushOutcome(svc, settings, markdown) else Ok(())
  }

  /**
   * What the run's `try` block ends in as written, on a settings model with
   * the attributes `fields`: reading the proxy, and only when that succeeds
   * the later stages, whose brief is `brief`, and its delivery as written.
   */
  function TryAsWritten(fields: set<string>, svc: Services, settings: Settings, pushEnabled: bool,
                        brief: DailyBrief): Result<()> {
    match ReadProxy(fields, settings)
    case Err(e) => Err(e)
    case Ok(_) => DeliveryAsWritten(svc, settings, pushEnabled, brief)
  }

  /**
   * As written, every run fails on its first statement, whatever its
   * sources and selection: it marks nothing seen, and with push enabled it
   * sends the failure alerts for that message.
   */
  lemma AsWrittenRunFails(svc: Services, settings: Settings, pushEnabled: bool, brief: DailyBrief,
                          selected: seq<RankedItem>, clock: int, seen: map<string, SeenRow>)
    ensures var failure := TryAsWritten(DeclaredSettingsFields, svc, settings, pushEnabled, brief);
      && failure == Err(MissingHttpProxy)
      && SeenAfter(seen, selected, failure, clock) == seen
      && FailureAlerts(svc, settings, pushEnabled, failure) == (if pushEnabled then Alerts(svc, settings, MissingHttpProxy) else [])
  {
    assert "http_proxy" !in DeclaredSettingsFields;
  }

  /**
   * With only `http_proxy` added to `Settings`, every run that selects an
   * item still fails, on the missing `importance`: it marks nothing seen,
   * and with push enabled it sends the failure alerts for that message.
   */
  lemma AsWrittenBriefFails(fields: set<string>, svc: Services, settings: Settings, pushEnabled: bool,
                            selected: seq<RankedItem>, localDate: Date, clock: int, seen: map<string, SeenRow>)
    requires ValidDate(localDate) && selected != [] && "http_proxy" in fields
    ensures var failure := TryAsWritten(fields, svc, settings, pushEnabled, Brief(svc.llm, selected, localDate, clock));
      && failure == Err(MissingImportance)
      && SeenAfter(seen, selected, failure, clock) == seen
      && FailureAlerts(svc, settings, pushEnabled, failure) == (if pushEnabled then Alerts(svc, settings, MissingImportance) else [])
  {
    var brief := Brief(svc.llm, selected, localDate, clock);
    BriefItemsLength(Summarizer(svc.llm), selected);
    AsWrittenFailsWithItems(fields, svc, settings, pushEnabled, brief, selected, clock, seen);
  }

  lemma AsWrittenFailsWithItems(fields: set<string>, svc: Services, settings: Settings, pushEnabled: bool, brief: DailyBrief,
                                selected: seq<RankedItem>, clock: int, seen: map<string, SeenRow>)
    requires brief.items != [] && "http_proxy" in fields
    ensures var failure := TryAsWritten(fields, svc, settings, pushEnabled, brief);
      && failure == Err(MissingImportance)
      && SeenAfter(seen, selected, failure, clock) == seen
      && FailureAlerts(svc, settings, pushEnabled, failure) == (if pushEnabled then Alerts(svc, settings, MissingImportance) else [])
  {
  }

  /** With push off, the corrected run always delivers its brief, whatever was selected. */
  lemma CorrectedRunDelivers(svc: Services, settings: Settings, selected: seq<RankedItem>, localDate: Date, clock: int)
    requires ValidDate(localDate)
    ensures Delivery(svc, settings, false, Brief(svc.llm, selected, localDate, clock)) == Ok(())
  {
  }

  /**
   * With the declared defaults every item renders: as medium importance,
   * with up to three of its key points and the fixed insight sentence.
   */
  lemma CorrectedItemRenders(summarize: RankedItem -> seq<string>, item: RankedItem, idx: nat)
    ensures var b := BriefItemOf(summarize, item);
      && Count(Publisher.ItemBlock(idx, b), Publisher.IsPointLine) == |Take(b.keyPoints, 3)|
      && 1 <= |Take(b.keyPoints, 3)| <= 3
      && Publisher.ImportanceLabel(b.importance) == Publisher.DefaultImportanceLabel
      && Publisher.Insight(b) == Publisher.FallbackInsight
  {
    var b := BriefItemOf(summarize, item);
    Publisher.ItemBlockPoints(idx, b);
    assert Strip(BriefItemInsight) == "";
  }

  /**
   * Once `Settings` declares `http_proxy`, a run that selects nothing ends
   * alike whether `BriefItem` declares its rendered fields or not.
   */
  lemma AsWrittenAgreesWhenEmpty(fields: set<string>, svc: Services, settings: Settings, pushEnabled: bool,
                                 localDate: Date, clock: int)
    requires ValidDate(localDate) && "http_proxy" in fields
    ensures var brief := Brief(svc.llm, [], localDate, clock);
      TryAsWritten(fields, svc, settings, pushEnabled, brief) == Delivery(svc, settings, pushEnabled, brief)
  {
  }

  // ---------------------------------------------------------------------------
  // Collection

  /** Each source's items, in source order, from the sources whose fetch succeeded. */
  function CollectItems(sources: seq<SourceConfig>, collect: SourceConfig -> Result<seq<RawItem>>): seq<RawItem> {
    if sources == [] then []
    else
      var last := sources[|sources| - 1];
      CollectItems(sources[..|sources| - 1], collect) + (if collect(last).Ok? then collect(last).value else [])
  }

  /** The error of each failed source, keyed by its name (a later failure under the same name wins). */
  function CollectErrors(sources: seq<SourceConfig>, collect: SourceConfig -> Result<seq<RawItem>>): map<string, string> {
    if sources == [] then map[]
    else
      var last := sources[|sources| - 1];
      var before := CollectErrors(sources[..|sources| - 1], collect);
      if collect(last).Err? then before[last.name := collect(last).error] else before
  }

  /** An item is collected exactly when some source that succeeded returned it: a failing source takes nothing from the others. */
  lemma {:induction false} CollectItemsFrom(sources: seq<SourceConfig>, collect: SourceConfig -> Result<seq<RawItem>>)
    ensures forall x :: x in CollectItems(sources, collect) <==>
      exists k :: 0 <= k < |sources| && collect(sources[k]).Ok? && x in collect(sources[k]).value
  {
    if sources != [] {
      var init := sources[..|sources| - 1];
      var last := sources[|sources| - 1];
      CollectItemsFrom(init, collect);
      forall x ensures x in CollectItems(sources, collect) <==>
        exists k :: 0 <= k < |sources| && collect(sources[k]).Ok? && x in collect(sources[k]).value
      {
        if exists k :: 0 <= k < |sources| && collect(sources[k]).Ok? && x in collect(sources[k]).value {
          var k :| 0 <= k < |sources| && collect(sources[k]).Ok? && x in collect(sources[k]).value;
          if k < |init| {
            assert init[k] == sources[k];
          }
        }
        if x in CollectItems(init, collect) {
          var k :| 0 <= k < |init| && collect(init[k]).Ok? && x in collect(init[k]).value;
          assert sources[k] == init[k];
        }
      }
    }
  }

  /** A name has an error entry exactly when some source of that name failed, and the entry is one of its errors. */
  lemma {:induction false} CollectErrorsFrom(sources: seq<SourceConfig>, collect: SourceConfig -> Result<seq<RawItem>>)
    ensures forall name :: name in CollectErrors(sources, collect) <==>
      exists k :: 0 <= k < |sources| && sources[k].name == name && collect(sources[k]).Err?
    ensures forall name :: name in CollectErrors(sources, collect) ==>
      exists k :: 0 <= k < |sources| && sources[k].name == name && collect(sources[k]) == Err(CollectErrors(sources, collect)[name])
  {
    if sources != [] {
      var init := sources[..|sources| - 1];
      CollectErrorsFrom(init, collect);
      forall k | 0 <= k < |init| ensures init[k] == sources[k] { }
      forall name | exists k :: 0 <= k < |sources| && sources[k].name == name && collect(sources[k]).Err?
        ensures name in CollectErrors(sources, collect)
      {
        var k :| 0 <= k < |sources| && sources[k].name == name && collect(sources[k]).Err?;
        if k < |init| {
          assert init[k] == sources[k];
        }
      }
    }
  }

  /** `collect_all_sources`, one source after another: items are extended, failures recorded by name. */
  method CollectAllSources(sources: seq<SourceConfig>, collect: SourceConfig -> Result<seq<RawItem>>)
    returns (rawItems: seq<RawItem>, sourceErrors: map<string, string>)
    ensures rawItems == CollectItems(sources, collect)
    ensures sourceErrors == CollectErrors(sources, collect)
  {
    rawItems := [];
    sourceErrors := map[];
    var i := 0;
    while i < |sources|
      invariant 0 <= i <= |sources|
      invariant rawItems == CollectItems(sources[..i], collect)
      invariant sourceErrors == CollectErrors(sources[..i], collect)
    {
      var source := sources[i];
      assert sources[..i + 1][..i] == sources[..i];
      match collect(source) {
      case Ok(items) =>
        rawItems := rawItems + items;
      case Err(e) =>
        sourceErrors := sourceErrors[source.name := e];
      }
      i := i + 1;
    }
    assert sources[..i] == sources;
  }

  // ---------------------------------------------------------------------------
  // The seen filter

  /** `[item for item in normalized if item.item_id not in seen_ids]`. */
  function Unseen(items: seq<NormalizedItem>, seen: set<string>): (r: seq<NormalizedItem>)
    ensures |r| <= |items|
    ensures forall x :: x in r <==> x in items && x.itemId !in seen
  {
    if items == [] then []
    else
      var last := items[|items| - 1];
      Unseen(items[..|items| - 1], seen) + (if last.itemId in seen then [] else [last])
  }

  /** Filtering twice is filtering once by both sets, so the filter never needs to run again. */
  lemma {:induction false} UnseenTwice(items: seq<NormalizedItem>, a: set<string>, b: set<string>)
    ensures Unseen(Unseen(items, a), b) == Unseen(items, a + b)
  {
    if items != [] {
      var init := items[..|items| - 1];
      var last := items[|items| - 1];
      UnseenTwice(init, a, b);
      var once := Unseen(items, a);
      if last.itemId !in a {
        assert once[..|once| - 1] == Unseen(init, a);
      } else {
        assert once == Unseen(init, a);
      }
    }
  }

  /** With nothing seen, every item is kept in place. */
  lemma {:induction false} UnseenNothing(items: seq<NormalizedItem>)
    ensures Unseen(items, {}) == items
  {
    if items != [] {
      var init, last := items[..|items| - 1], items[|items| - 1];
      UnseenNothing(init);
      assert Unseen(items, {}) == Unseen(init, {}) + [last];
      assert init + [last] == items;
    }
  }

  // ---------------------------------------------------------------------------
  // Stages

  const DayHours: int := 24
  const SeenDays: int := 7
  const DedupeThreshold: real := 0.92

  /** The collaborators a run reaches through I/O. */
  datatype Services = Services(
    /** `collect_from_source(source, timeout, proxy)`. */
    collect: (SourceConfig, int, Option<string>) -> Result<seq<RawItem>>,
    /** `urlsplit` + `parse_qsl`; `Err` is the `ValueError` of an invalid bracketed host. */
    split: string -> Result<Normalizer.UrlParts>,
    sha256: string -> string,
    md5: string -> string,
    ratio: (string, string) -> Deduper.Ratio,
    llm: Llm.Client,
    /** `push_markdown(webhook, content)`. */
    pushWecom: string -> Result<bool>,
    /** `push_feishu_text(..., receive_id=target, content=content)`, with its default retries. */
    pushFeishu: (string, string) -> Result<bool>,
    /** `push_feishu_text(..., receive_id=target, content=text, retries=())`: one attempt, as the alerts send. */
    alertFeishu: (string, string) -> Result<bool>,
    /** The reply to the WeCom failure alert carrying a text. */
    alertReply: string -> Result<Publisher.PostReply>)

  /** `settings.http_proxy.strip() or None`. */
  function Proxy(settings: Settings): (p: Option<string>)
    ensures p.Some? ==> p.value != "" && p.value == Strip(settings.httpProxy)
  {
    var p := Strip(settings.httpProxy);
    if p == "" then None else Some(p)
  }

  function Fetcher(svc: Services, settings: Settings): SourceConfig -> Result<seq<RawItem>> {
    (source: SourceConfig) => svc.collect(source, settings.requestTimeoutSeconds, Proxy(settings))
  }

  function Normalized(svc: Services, raw: seq<RawItem>, runTime: int): Result<seq<NormalizedItem>> {
    Normalizer.NormalizeAll(raw, runTime - DayHours * 3600, runTime, svc.split, svc.sha256)
  }

  function DedupeOracle(svc: Services): Deduper.Oracle {
    Deduper.Oracle(svc.md5, svc.ratio, DedupeThreshold)
  }

  /** `classify_items(..., llm_client=llm, use_llm_fallback=False)`: the model client is handed over but never asked. */
  function ClassifierLlm(svc: Services): Classifier.LlmFallback {
    Classifier.LlmFallback(Some((title: string, content: string) =>
      match Llm.ClassifyPerspective(svc.llm, title, content) case Ok(p) => p case Err(_) => None), false)
  }

  function Ranked(svc: Services, deduped: seq<NormalizedItem>, runTime: int): seq<RankedItem> {
    SortBy(Ranker.Scored(Classifier.ClassifyAll(deduped, ClassifierLlm(svc)), runTime), Ranker.ScoreGe)
  }

  /** Every ranked item is one of the deduplicated items, classified and scored. */
  lemma RankedFrom(svc: Services, deduped: seq<NormalizedItem>, runTime: int, x: RankedItem)
    requires x in Ranked(svc, deduped, runTime)
    ensures x.classified.base in deduped
  {
    var classified := Classifier.ClassifyAll(deduped, ClassifierLlm(svc));
    SortByMembers(Ranker.Scored(classified, runTime), Ranker.ScoreGe, x);
    Ranker.ScoredFrom(classified, runTime, x);
    Classifier.ClassifyAllFrom(deduped, ClassifierLlm(svc), x.classified);
  }

  /** A deduplicated item is one of the items it was given. */
  lemma DedupedFrom(o: Deduper.Oracle, items: seq<NormalizedItem>, x: NormalizedItem)
    requires x in Deduper.Dedupe(o, items)
    ensures x in items
  {
    Deduper.DedupeProperties(o, items);
    var r := Deduper.Dedupe(o, items);
    var sorted := Deduper.SortForDedupe(items);
    var idx :| Deduper.Embeds(r, sorted, idx);
    var k :| 0 <= k < |r| && r[k] == x;
    assert sorted[idx[k]] == x;
    assert x in multiset(sorted);
  }

  /**
   * What `select_items_with_mix(ranked, item_min, item_max, mix_min_each,
   * max_items_per_source)` promises of `selected`: distinct items of
   * `ranked`, sorted by score, each source under its cap, no more than the
   * limit, filled to the limit unless every ranked item is blocked, and
   * every perspective's quota met when the quotas fit the limit.
   */
  ghost predicate MixSelection(settings: Settings, ranked: seq<RankedItem>, selected: seq<RankedItem>) {
    var limit := Ranker.Limit(settings.itemMin, settings.itemMax);
    var cap := Some(settings.maxItemsPerSource);
    && (forall k :: 0 <= k < |selected| ==> selected[k] in ranked)
    && DistinctBy(selected, Ranker.IdOf)
    && Sorted(selected, Ranker.ScoreGe)
    && (Ranker.CapOn(cap) ==> forall src :: Ranker.SourceCount(selected, src) <= settings.maxItemsPerSource)
    && (limit >= 0 ==> |selected| <= limit)
    && (limit >= 0 ==> |selected| == limit || forall k :: 0 <= k < |ranked| ==> Ranker.Blocked(ranked[k], selected, cap))
    && (0 <= 3 * settings.mixMinEach <= limit ==>
          forall p :: Ranker.QuotaMet(selected, p, ranked, settings.mixMinEach, cap))
  }

  /** The stages from normalized items to the selection: seen filter, dedupe, classify, rank, select. */
  method Stages(svc: Services, settings: Settings, normalized: seq<NormalizedItem>, seen: set<string>, runTime: int)
    returns (deduped: seq<NormalizedItem>, selected: seq<RankedItem>)
    ensures deduped == Deduper.Dedupe(DedupeOracle(svc), Unseen(normalized, seen))
    ensures MixSelection(settings, Ranked(svc, deduped, runTime), selected)
    ensures forall x :: x in selected ==> x.classified.base in normalized && x.ItemId() !in seen
  {
    var unseen := Unseen(normalized, seen);
    deduped := Deduper.DedupeItems(unseen, DedupeThreshold, svc.md5, svc.ratio);
    var classified := Classifier.ClassifyItems(deduped, ClassifierLlm(svc));
    var ranked := Ranker.RankItems(classified, runTime);
    selected := Ranker.SelectItemsWithMix(ranked, settings.itemMin, settings.itemMax, settings.mixMinEach,
                                          Some(settings.maxItemsPerSource));
    forall x | x in selected
      ensures x.classified.base in normalized && x.ItemId() !in seen
    {
      var k :| 0 <= k < |selected| && selected[k] == x;
      RankedFrom(svc, deduped, runTime, x);
      DedupedFrom(DedupeOracle(svc), unseen, x.classified.base);
    }
  }

  // ---------------------------------------------------------------------------
  // Pushing

  const NoChannel: string := "Push is enabled but no channel configured"

  /** Every Feishu target in order: an exception stops the loop, otherwise the answer is whether all succeeded. */
  function FeishuAll(targets: seq<string>, content: string, push: (string, string) -> Result<bool>): (r: Result<bool>)
    ensures r == Ok(true) <==> forall k :: 0 <= k < |targets| ==> push(targets[k], content) == Ok(true)
  {
    if targets == [] then Ok(true)
    else
      match push(targets[0], content)
      case Err(e) => Err(e)
      case Ok(ok) =>
        match FeishuAll(targets[1..], content, push)
        case Err(e) => Err(e)
        case Ok(rest) =>
          assert forall k :: 1 <= k < |targets| ==> targets[k] == targets[1..][k - 1];
          Ok(ok && rest)
  }

  /** Whether the Feishu channel is configured. */
  predicate FeishuConfigured(settings: Settings) {
    settings.feishuEnabled && settings.feishuPushTargets != []
  }

  /** The push step of a run with push enabled: `Ok` when it completes, else the message of what it raises. */
  function PushOutcome(svc: Services, settings: Settings, markdown: string): Result<()> {
    var wecom := if settings.wechatWebhook != "" then Some(svc.pushWecom(ToWecomContent(markdown))) else None;
    if wecom.Some? && wecom.value.Err? then Err(wecom.value.error)
    else
      var feishu := if FeishuConfigured(settings)
        then Some(FeishuAll(settings.feishuPushTargets, ToFeishuContent(markdown), svc.pushFeishu)) else None;
      if feishu.Some? && feishu.value.Err? then Err(feishu.value.error)
      else if wecom.None? && feishu.None? then Err(NoChannel)
      else
        var failed := (if wecom == Some(Ok(false)) then ["wecom"] else [])
          + (if feishu == Some(Ok(false)) then ["feishu"] else []);
        if failed != [] then Err("Push failed: " + Join(failed, ", ")) else Ok(())
  }

  /** No channel configured is an error of its own; otherwise the push succeeds exactly when every channel delivers. */
  lemma PushOutcomeCases(svc: Services, settings: Settings, markdown: string)
    ensures settings.wechatWebhook == "" && !FeishuConfigured(settings) ==> PushOutcome(svc, settings, markdown) == Err(NoChannel)
    ensures PushOutcome(svc, settings, markdown).Ok? <==>
      (settings.wechatWebhook != "" || FeishuConfigured(settings))
      && (settings.wechatWebhook != "" ==> svc.pushWecom(ToWecomContent(markdown)) == Ok(true))
      && (FeishuConfigured(settings) ==> forall k :: 0 <= k < |settings.feishuPushTargets| ==>
            svc.pushFeishu(settings.feishuPushTargets[k], ToFeishuContent(markdown)) == Ok(true))
  {
    var wecom := settings.wechatWebhook != "";
    var feishu := FeishuConfigured(settings);
    if wecom && svc.pushWecom(ToWecomContent(markdown)).Ok? && svc.pushWecom(ToWecomContent(markdown)).value == false {
      assert PushOutcome(svc, settings, markdown).Err?;
    }
    if feishu && FeishuAll(settings.feishuPushTargets, ToFeishuContent(markdown), svc.pushFeishu) == Ok(false) {
      assert PushOutcome(svc, settings, markdown).Err?;
    }
  }

  /** The push block of `run_daily_pipeline`. */
  method Push(svc: Services, settings: Settings, markdown: string) returns (r: Result<()>)
    ensures r == PushOutcome(svc, settings, markdown)
  {
    var attempted := false;
    var failed: seq<string> := [];
    if settings.wechatWebhook != "" {
      attempted := true;
      var pushed := svc.pushWecom(ToWecomContent(markdown));
      if pushed.Err? {
        return Err(pushed.error);
      }
      if !pushed.value {
        failed := failed + ["wecom"];
      }
    }
    if FeishuConfigured(settings) {
      attempted := true;
      var content := ToFeishuContent(markdown);
      var feishuOk := true;
      var i := 0;
      var targets := settings.feishuPushTargets;
      while i < |targets|
        invariant 0 <= i <= |targets|
        invariant FeishuAll(targets, content, svc.pushFeishu) ==
          match FeishuAll(targets[i..], content, svc.pushFeishu)
          case Err(e) => Err(e)
          case Ok(rest) => Ok(feishuOk && rest)
      {
        var ok := svc.pushFeishu(targets[i], content);
        assert targets[i..][1..] == targets[i + 1..];
        if ok.Err? {
          return Err(ok.error);
        }
        if !ok.value {
          feishuOk := false;
        }
        i := i + 1;
      }
      if !feishuOk {
        failed := failed + ["feishu"];
      }
    }
    if !attempted {
      return Err(NoChannel);
    }
    if failed != [] {
      return Err("Push failed: " + Join(failed, ", "));
    }
    r := Ok(());
  }

  /**
   * The alerts of the failure path, as (receiver, text) in the order they are
   * sent; an exception while alerting ends the alerts and is swallowed.
   */
  function Alerts(svc: Services, settings: Settings, message: string): seq<(string, string)> {
    var wecom := if settings.wechatWebhook != "" then Publisher.SendFailureAlert(settings.wechatWebhook, message, svc.alertReply) else (Ok(false), None);
    var viaWecom := if wecom.1.Some? then [(settings.wechatWebhook, wecom.1.value)] else [];
    if wecom.0.Err? || !FeishuConfigured(settings) then viaWecom
    else viaWecom + FeishuAlerts(svc, settings.feishuPushTargets, Publisher.AlertText(message))
  }

  /** The Feishu alerts, one attempt per target in order, until one raises. */
  function FeishuAlerts(svc: Services, targets: seq<string>, text: string): (r: seq<(string, string)>)
    ensures |r| <= |targets|
    ensures forall k :: 0 <= k < |r| ==> r[k] == (targets[k], text)
    ensures |r| < |targets| ==> r != [] && svc.alertFeishu(targets[|r| - 1], text).Err?
  {
    if targets == [] then []
    else [(targets[0], text)] + (if svc.alertFeishu(targets[0], text).Err? then [] else FeishuAlerts(svc, targets[1..], text))
  }

  /** The alerts a run sends: those of its failure when push is enabled, none otherwise. */
  function FailureAlerts(svc: Services, settings: Settings, pushEnabled: bool, failure: Result<()>): seq<(string, string)> {
    if failure.Err? && pushEnabled then Alerts(svc, settings, failure.error) else []
  }

  /**
   * The alert block of the failure path: the WeCom alert when a webhook is
   * set, then one single-attempt Feishu alert per target; an exception ends
   * the block.
   */
  method SendAlerts(svc: Services, settings: Settings, message: string) returns (sent: seq<(string, string)>)
    ensures sent == Alerts(svc, settings, message)
  {
    sent := [];
    if settings.wechatWebhook != "" {
      var wecom := Publisher.SendFailureAlert(settings.wechatWebhook, message, svc.alertReply);
      if wecom.1.Some? {
        sent := [(settings.wechatWebhook, wecom.1.value)];
      }
      if wecom.0.Err? {
        return;
      }
    }
    if FeishuConfigured(settings) {
      var feishu := SendFeishuAlerts(svc, settings.feishuPushTargets, Publisher.AlertText(message));
      sent := sent + feishu;
    }
  }

  /** The Feishu loop of the alert block: one attempt per target, stopping at the first that raises. */
  method SendFeishuAlerts(svc: Services, targets: seq<string>, text: string) returns (sent: seq<(string, string)>)
    ensures sent == FeishuAlerts(svc, targets, text)
  {
    sent := [];
    var i := 0;
    while i < |targets|
      invariant 0 <= i <= |targets|
      invariant FeishuAlerts(svc, targets, text) == sent + FeishuAlerts(svc, targets[i..], text)
    {
      var rest := targets[i..];
      FeishuAlertsStep(svc, rest, text);
      var r := svc.alertFeishu(targets[i], text);
      if r.Err? {
        sent := sent + [(targets[i], text)];
        return;
      }
      assert rest[1..] == targets[i + 1..];
      Config.ConcatAssoc(sent, [(targets[i], text)], FeishuAlerts(svc, targets[i + 1..], text));
      sent := sent + [(targets[i], text)];
      i := i + 1;
    }
  }

  lemma FeishuAlertsStep(svc: Services, targets: seq<string>, text: string)
    requires targets != []
    ensures FeishuAlerts(svc, targets, text) == [(targets[0], text)]
      + (if svc.alertFeishu(targets[0], text).Err? then [] else FeishuAlerts(svc, targets[1..], text))
  {
  }


  /** Every alert carries the alert prefix and at most 500 characters of the error. */
  lemma AlertsShape(svc: Services, settings: Settings, message: string)
    ensures forall a :: a in Alerts(svc, settings, message) ==> a.1 == Publisher.AlertText(message)
  {
  }

  // ---------------------------------------------------------------------------
  // The run

  /** The metrics a run records. */
  function Metrics(sourceCount: nat, rawCount: nat, sourceErrors: map<string, string>, normalizedCount: nat,
                   dedupedCount: nat, selectedCount: nat, pushEnabled: bool): map<string, JsonValue> {
    map["source_count" := JInt(sourceCount), "raw_count" := JInt(rawCount),
        "normalized_count" := JInt(normalizedCount), "deduped_count" := JInt(dedupedCount),
        "selected_count" := JInt(selectedCount), "source_errors" := JObject(sourceErrors),
        "push_enabled" := JBool(pushEnabled)]
  }

  /** `SeenRow` inputs of `mark_seen` for the selection. */
  function SeenRows(selected: seq<RankedItem>): (rows: seq<(string, string)>)
    ensures |rows| == |selected|
  {
    seq(|selected|, i requires 0 <= i < |selected| => (selected[i].ItemId(), selected[i].classified.base.canonicalUrl))
  }

  /**
   * Items a successful run marked are filtered out of any run within the next
   * seven days: the same news is not sent twice.
   */
  lemma MarkedNotRepeated(seen: map<string, SeenRow>, selected: seq<RankedItem>, clock: int, later: int,
                          normalized: seq<NormalizedItem>)
    requires clock <= later <= clock + SeenDays * 86400
    ensures var next := SeenSince(Upsert(seen, SeenRows(selected), clock), later - SeenDays * 86400);
      forall x, k :: x in Unseen(normalized, next) && 0 <= k < |selected| ==> x.itemId != selected[k].ItemId()
  {
    var rows := SeenRows(selected);
    MarkedAreSeen(seen, rows, clock, later - SeenDays * 86400);
    forall k | 0 <= k < |selected| ensures rows[k].0 == selected[k].ItemId() { }
  }

  /** What the push step ends in: `Ok` when push is off or every channel delivers. */
  function Delivery(svc: Services, settings: Settings, pushEnabled: bool, brief: DailyBrief): Result<()> {
    if pushEnabled then PushOutcome(svc, settings, Publisher.Markdown(brief)) else Ok(())
  }

  /** Render the brief and push it when push is enabled. */
  method Publish(svc: Services, settings: Settings, pushEnabled: bool, brief: DailyBrief) returns (r: Result<()>)
    ensures r == Delivery(svc, settings, pushEnabled, brief)
  {
    var markdown := Publisher.RenderMarkdown(brief);
    r := Ok(());
    if pushEnabled {
      r := Push(svc, settings, markdown);
    }
  }

  /**
   * Collection, normalization and, unless normalization raised, the
   * selection stages of one run.
   */
  method Gather(svc: Services, settings: Settings, sources: seq<SourceConfig>, seen: set<string>, runTime: int)
    returns (rawItems: seq<RawItem>, sourceErrors: map<string, string>, normalized: Result<seq<NormalizedItem>>,
             deduped: seq<NormalizedItem>, selected: seq<RankedItem>)
    ensures rawItems == CollectItems(sources, Fetcher(svc, settings))
    ensures sourceErrors == CollectErrors(sources, Fetcher(svc, settings))
    ensures normalized == Normalized(svc, rawItems, runTime)
    ensures normalized.Err? ==> deduped == [] && selected == []
    ensures normalized.Ok? ==> deduped == Deduper.Dedupe(DedupeOracle(svc), Unseen(normalized.value, seen))
    ensures normalized.Ok? ==> MixSelection(settings, Ranked(svc, deduped, runTime), selected)
    ensures forall x :: x in selected ==> x.ItemId() !in seen
  {
    rawItems, sourceErrors := CollectAllSources(sources, Fetcher(svc, settings));
    normalized := Normalizer.NormalizeItems(rawItems, runTime - DayHours * 3600, runTime, svc.split, svc.sha256);
    if normalized.Err? {
      deduped, selected := [], [];
      return;
    }
    deduped, selected := Stages(svc, settings, normalized.value, seen, runTime);
  }

  /**
   * `run_daily_pipeline`.  `clock` is the wall clock the store and `created_at`
   * read, `runAt` the `now` argument, `localDate` the run time's date in the
   * configured time zone, and `push` the override of `push_enabled`.
   */
  method RunDailyPipeline(store: StateStore, settings: Settings, sources: seq<SourceConfig>, svc: Services,
                          push: Option<bool>, runAt: Option<int>, clock: int, localDate: Date)
    returns (outcome: Result<DailyBrief>, metrics: map<string, JsonValue>, alerts: seq<(string, string)>,
             ghost selected: seq<RankedItem>)
    requires ValidDate(localDate)
    modifies store
    ensures store.tablesReady
    ensures RunComputes(svc, settings, sources, SeenSince(old(store.seenItems), clock - SeenDays * 86400),
                        runAt.GetOr(clock), push.GetOr(settings.pushEnabled), metrics, selected)
    ensures RunOutcome(svc, settings, sources, runAt.GetOr(clock), push.GetOr(settings.pushEnabled), selected,
                       localDate, clock, outcome)
    ensures outcome.Ok? ==> store.seenItems == Upsert(old(store.seenItems), SeenRows(selected), clock)
    ensures outcome.Err? ==> store.seenItems == old(store.seenItems)
    ensures outcome.Err? && push.GetOr(settings.pushEnabled) ==> alerts == Alerts(svc, settings, outcome.error)
    ensures outcome.Ok? || !push.GetOr(settings.pushEnabled) ==> alerts == []
    ensures store.runLogs == old(store.runLogs) + [RunLog(clock, if outcome.Ok? then "success" else "failed",
      Some(metrics), if outcome.Ok? then None else Some(outcome.error))]
  {
    ghost var seen := SeenSince(store.seenItems, clock - SeenDays * 86400);
    store.InitDb();
    var seenIds := store.LoadSeenItemIds(SeenDays, clock);
    assert seenIds == Ok(seen);
    var chosen;
    metrics, chosen, outcome := Prepare(svc, settings, sources, seenIds.value, runAt.GetOr(clock), clock,
                                        localDate, push.GetOr(settings.pushEnabled));
    selected := chosen;
    alerts := [];
    if outcome.Err? && push.GetOr(settings.pushEnabled) {
      alerts := SendAlerts(svc, settings, outcome.error);
    }
    Record(store, metrics, chosen, outcome, clock);
  }

  /**
   * What one run selects and records, given the ids already seen: the metrics
   * count each stage, and the selection is what `select_items_with_mix`
   * promises of the ranked items not seen before. When normalization
   * raised, the metrics stop at the raw count and nothing is selected.
   */
  ghost predicate RunComputes(svc: Services, settings: Settings, sources: seq<SourceConfig>, seen: set<string>,
                              runTime: int, pushEnabled: bool, metrics: map<string, JsonValue>, selected: seq<RankedItem>)
  {
    var raw := CollectItems(sources, Fetcher(svc, settings));
    var errors := CollectErrors(sources, Fetcher(svc, settings));
    match Normalized(svc, raw, runTime)
    case Err(_) =>
      metrics == Metrics(|sources|, |raw|, errors, 0, 0, 0, pushEnabled) && selected == []
    case Ok(normalized) =>
      var deduped := Deduper.Dedupe(DedupeOracle(svc), Unseen(normalized, seen));
      && metrics == Metrics(|sources|, |raw|, errors, |normalized|, |deduped|, |selected|, pushEnabled)
      && MixSelection(settings, Ranked(svc, deduped, runTime), selected)
      && (forall x :: x in selected ==> x.ItemId() !in seen)
  }

  /**
   * What a run returns: the error of normalization when it raised, else its
   * brief when delivery succeeded, else the delivery error.
   */
  ghost predicate RunOutcome(svc: Services, settings: Settings, sources: seq<SourceConfig>, runTime: int,
                             pushEnabled: bool, selected: seq<RankedItem>, localDate: Date, clock: int,
                             outcome: Result<DailyBrief>)
    requires ValidDate(localDate)
  {
    match Normalized(svc, CollectItems(sources, Fetcher(svc, settings)), runTime)
    case Err(e) => outcome == Err(e)
    case Ok(_) =>
      var brief := Brief(svc.llm, selected, localDate, clock);
      var failure := Delivery(svc, settings, pushEnabled, brief);
      (failure.Ok? ==> outcome == Ok(brief)) && (failure.Err? ==> outcome == Err(failure.error))
  }

  /** The stages of one run between reading the seen ids and writing the outcome. */
  method Prepare(svc: Services, settings: Settings, sources: seq<SourceConfig>, seen: set<string>, runTime: int,
                 clock: int, localDate: Date, pushEnabled: bool)
    returns (metrics: map<string, JsonValue>, selected: seq<RankedItem>, outcome: Result<DailyBrief>)
    requires ValidDate(localDate)
    ensures RunComputes(svc, settings, sources, seen, runTime, pushEnabled, metrics, selected)
    ensures RunOutcome(svc, settings, sources, runTime, pushEnabled, selected, localDate, clock, outcome)
  {
    var rawItems, sourceErrors, normalized, deduped;
    rawItems, sourceErrors, normalized, deduped, selected := Gather(svc, settings, sources, seen, runTime);
    if normalized.Err? {
      metrics := Metrics(|sources|, |rawItems|, sourceErrors, 0, 0, 0, pushEnabled);
      outcome := Err(normalized.error);
      return;
    }
    metrics := Metrics(|sources|, |rawItems|, sourceErrors, |normalized.value|, |deduped|, |selected|, pushEnabled);
    var brief := BuildBrief(svc.llm, selected, localDate, clock);
    var failure := Publish(svc, settings, pushEnabled, brief);
    outcome := if failure.Ok? then Ok(brief) else Err(failure.error);
  }

  /** The seen rows after a run: the selection marked at `clock` when the run succeeded, else unchanged. */
  function SeenAfter<T>(seen: map<string, SeenRow>, selected: seq<RankedItem>, result: Result<T>, clock: int)
    : map<string, SeenRow>
  {
    if result.Ok? then Upsert(seen, SeenRows(selected), clock) else seen
  }

  /** Mark the selection seen when the run succeeded, and log the run either way. */
  method Record(store: StateStore, metrics: map<string, JsonValue>, selected: seq<RankedItem>,
                outcome: Result<DailyBrief>, clock: int)
    requires store.tablesReady
    modifies store
    ensures store.tablesReady
    ensures outcome.Ok? ==> store.seenItems == Upsert(old(store.seenItems), SeenRows(selected), clock)
    ensures outcome.Err? ==> store.seenItems == old(store.seenItems)
    ensures store.seenItems == SeenAfter(old(store.seenItems), selected, outcome, clock)
    ensures store.runLogs == old(store.runLogs) + [RunLog(clock, if outcome.Ok? then "success" else "failed",
      Some(metrics), if outcome.Ok? then None else Some(outcome.error))]
  {
    if outcome.Ok? {
      var marked := store.MarkSeen(SeenRows(selected), clock);
      var logged := store.LogRun("success", metrics, None, clock);
    } else {
      var logged := store.LogRun("failed", metrics, Some(outcome.error), clock);
    }
  }
}
