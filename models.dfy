/**
 * The records that flow through the digest pipeline.  Python's subclassing
 * (`ClassifiedItem(NormalizedItem)`, `RankedItem(ClassifiedItem)`) becomes
 * composition, with accessors for the inherited fields the pipeline reads.
 * Instants are UTC seconds (see `Calendar`); scores and weights are reals.
 */
module Models {
  import opened Wrappers

  datatype Perspective = Product | Technology | Industry

  /** The enum members in declaration order (`for p in Perspective`). */
  const AllPerspectives: seq<Perspective> := [Product, Technology, Industry]

  /** Position of each perspective in `AllPerspectives`. */
  function PerspectiveIndex(p: Perspective): (i: nat)
    ensures i < |AllPerspectives| && AllPerspectives[i] == p
  {
    match p
    case Product => 0
    case Technology => 1
    case Industry => 2
  }

  /** The `str` value of each enum member. */
  function PerspectiveValue(p: Perspective): string {
    match p
    case Product => "product"
    case Technology => "technology"
    case Industry => "industry"
  }

  /** `Perspective(value)`: the member whose value is `s`, if any. */
  function ParsePerspective(s: string): (r: Option<Perspective>)
    ensures r.Some? ==> PerspectiveValue(r.value) == s
    ensures r.None? ==> forall p :: PerspectiveValue(p) != s
  {
    if s == "product" then Some(Product)
    else if s == "technology" then Some(Technology)
    else if s == "industry" then Some(Industry)
    else None
  }

  /** The enum has exactly three members, with distinct values that round-trip. */
  lemma PerspectiveEnum()
    ensures forall p :: p in AllPerspectives
    ensures |AllPerspectives| == 3
    ensures forall p :: ParsePerspective(PerspectiveValue(p)) == Some(p)
  {
    forall p ensures p in AllPerspectives {
      match p
      case Product => assert AllPerspectives[0] == p;
      case Technology => assert AllPerspectives[1] == p;
      case Industry => assert AllPerspectives[2] == p;
    }
  }

  datatype Language = Zh | En | Mixed | Unknown

  datatype ClassificationSource = Rule | Llm | Fallback

  datatype RawItem = RawItem(
    sourceName: string,
    sourceWeight: real,
    url: string,
    title: string,
    content: string,
    publishedAt: Option<int>,
    discoveredAt: int,
    tags: seq<string>)

  /** A `RawItem` built with only its required fields, the others at their defaults. */
  function NewRawItem(sourceName: string, url: string, title: string, discoveredAt: int): (r: RawItem)
    ensures r.sourceName == sourceName && r.url == url && r.title == title && r.discoveredAt == discoveredAt
    ensures r.sourceWeight == 1.0 && r.content == "" && r.publishedAt == None && r.tags == []
  {
    RawItem(sourceName, 1.0, url, title, "", None, discoveredAt, [])
  }

  datatype NormalizedItem = NormalizedItem(
    itemId: string,
    sourceName: string,
    sourceWeight: real,
    url: string,
    canonicalUrl: string,
    title: string,
    content: string,
    publishedAt: Option<int>,
    discoveredAt: int,
    language: Language,
    tags: seq<string>)

  datatype ClassifiedItem = ClassifiedItem(
    base: NormalizedItem,
    perspective: Perspective,
    classificationSource: ClassificationSource)

  /** `ClassifiedItem(**item.model_dump(), perspective=p)`: the source field defaults to "rule". */
  function NewClassifiedItem(item: NormalizedItem, p: Perspective): (r: ClassifiedItem)
    ensures r.base == item && r.perspective == p && r.classificationSource == Rule
  {
    ClassifiedItem(item, p, Rule)
  }

  datatype RankedItem = RankedItem(
    classified: ClassifiedItem,
    score: real,
    rankReason: string)
  {
    function ItemId(): string { classified.base.itemId }
    function SourceName(): string { classified.base.sourceName }
    function Title(): string { classified.base.title }
    function Content(): string { classified.base.content }
    function Url(): string { classified.base.url }
    function PerspectiveOf(): Perspective { classified.perspective }
  }

  /**
   * A brief item with the two fields the renderer reads, `importance` and
   * `insight`.  `BriefItem` as declared has neither, so reading them raises
   * `AttributeError`; this is the declaration the renderer evidently
   * expects, with the defaults `BriefItemImportance` and `BriefItemInsight`
   * that `_build_brief` leaves in place.
   */
  datatype BriefItem = BriefItem(
    perspective: Perspective,
    title: string,
    keyPoints: seq<string>,
    sourceName: string,
    url: string,
    score: real,
    importance: string,
    insight: string)

  /** The importance a brief item has unless set: the renderer's own fallback, "medium". */
  const BriefItemImportance: string := "medium"

  /** The insight a brief item has unless set: empty, so the renderer shows its fixed sentence. */
  const BriefItemInsight: string := ""

  /** A calendar date, as `date.isoformat()` prints it. */
  datatype Date = Date(year: int, month: int, day: int)

  datatype DailyBrief = DailyBrief(
    date: Date,
    title: string,
    intro: string,
    items: seq<BriefItem>,
    observations: seq<string>,
    createdAt: int)

  datatype SourceKind = Rss | Html | WechatProfile

  /**
   * A configured source. The class in `app/models.py` declares only the
   * first eight fields and the types "rss" and "html"; the rest, and the
   * `WechatProfile` kind, are the fields the collectors read.
   */
  datatype SourceConfig = SourceConfig(
    name: string,
    kind: SourceKind,
    url: string,
    articleSelector: Option<string>,
    linkPattern: Option<string>,
    weight: real,
    enabled: bool,
    tags: seq<string>,
    dateSelector: Option<string>,
    dateAttr: Option<string>,
    dateRegex: Option<string>,
    authorSelector: Option<string>,
    itemContainerSelector: Option<string>,
    requiredKeywordsAny: seq<string>,
    requiredAuthorKeywordsAny: seq<string>,
    wechatBiz: Option<string>,
    resolveSogouRedirect: bool,
    splitSourceByPublisher: bool)

  datatype ReceiveIdType = ChatId | OpenId

  /**
   * The settings the modelled code reads. `httpProxy` is read by the run
   * but not declared by the class in `app/models.py`.
   */
  datatype Settings = Settings(
    itemMin: int,
    itemMax: int,
    mixMinEach: int,
    maxItemsPerSource: int,
    pushEnabled: bool,
    wechatWebhook: string,
    feishuEnabled: bool,
    feishuAppId: string,
    feishuAppSecret: string,
    feishuVerificationToken: string,
    feishuBaseUrl: string,
    feishuPushTargets: seq<string>,
    feishuReceiveIdType: ReceiveIdType,
    feishuAllowFrom: seq<string>,
    feishuRequireMention: bool,
    httpProxy: string,
    requestTimeoutSeconds: int)

  /** `Settings(...)` with every optional field at its declared default. */
  function DefaultSettings(): (s: Settings)
    ensures s.itemMin == 8 && s.itemMax == 12 && s.mixMinEach == 2 && s.maxItemsPerSource == 2
    ensures !s.pushEnabled && !s.feishuEnabled && s.feishuRequireMention
    ensures s.feishuReceiveIdType == ChatId && s.requestTimeoutSeconds == 15
    ensures s.feishuBaseUrl == "https://open.feishu.cn"
  {
    Settings(8, 12, 2, 2, false, "", false, "", "", "", "https://open.feishu.cn", [], ChatId, [], true, "", 15)
  }
}
