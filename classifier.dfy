/**
 * Perspective classification: keyword voting over the title and content,
 * then the item's tags, then (when enabled) a language model, then the
 * fixed default `Industry`.  The language model is a parameter.
 */
module Classifier {
  import opened Wrappers
  import opened Text
  import opened Order
  import opened Models

  /** `_RULES`: the keywords that vote for each perspective. */
  function Rules(p: Perspective): seq<string> {
    match p
    case Product => ["发布", "上线", "产品", "应用", "agent", "app", "launch", "release"]
    case Technology => ["论文", "算法", "架构", "benchmark", "推理", "训练", "模型", "research"]
    case Industry => ["融资", "估值", "政策", "合作", "并购", "市场", "生态", "监管"]
  }

  /** The score `_rule_classify` gives `p`: how many of its keywords, lower-cased, occur in the lower-cased text. */
  function RuleScore(text: string, p: Perspective): nat {
    |Hits(Lower(text), Rules(p), |Rules(p)|)|
  }

  /** The inner loop of `_rule_classify`: one vote for `p` per keyword found in `lowered`. */
  method Tally(scores: map<Perspective, int>, p: Perspective, lowered: string, keywords: seq<string>)
    returns (tallied: map<Perspective, int>)
    requires p in scores
    ensures tallied.Keys == scores.Keys
    ensures tallied[p] == scores[p] + |Hits(lowered, keywords, |keywords|)|
    ensures forall q :: q in scores && q != p ==> tallied[q] == scores[q]
  {
    tallied := scores;
    var j := 0;
    while j < |keywords|
      invariant 0 <= j <= |keywords|
      invariant tallied.Keys == scores.Keys
      invariant tallied[p] == scores[p] + |Hits(lowered, keywords, j)|
      invariant forall q :: q in scores && q != p ==> tallied[q] == scores[q]
    {
      HitsStep(lowered, keywords, j);
      if Contains(lowered, Lower(keywords[j])) {
        tallied := tallied[p := tallied[p] + 1];
      }
      j := j + 1;
    }
  }

  /** The scoring loops of `_rule_classify`: every perspective starts at 0 and gets one vote per keyword found. */
  method RuleScores(text: string) returns (scores: map<Perspective, int>)
    ensures forall p :: p in scores
    ensures forall p :: scores[p] == RuleScore(text, p)
  {
    var lowered := Lower(text);
    scores := map[Product := 0, Technology := 0, Industry := 0];
    assert forall q :: q in scores && scores[q] == 0 by {
      forall q ensures q in scores && scores[q] == 0 {
        match q
        case Product =>
        case Technology =>
        case Industry =>
      }
    }
    var i := 0;
    while i < |AllPerspectives|
      invariant 0 <= i <= |AllPerspectives|
      invariant forall q :: q in scores
      invariant forall q :: scores[q] == if PerspectiveIndex(q) < i then RuleScore(text, q) else 0
    {
      var p := AllPerspectives[i];
      assert PerspectiveIndex(p) == i;
      ghost var prev := scores;
      scores := Tally(scores, p, lowered, Rules(p));
      forall q ensures scores[q] == if PerspectiveIndex(q) < i + 1 then RuleScore(text, q) else 0 {
        if q != p {
          assert scores[q] == prev[q];
        }
      }
      i := i + 1;
    }
  }

  /** The three `(perspective, score)` pairs in declaration order. */
  function ScorePairs(scores: map<Perspective, int>): seq<(Perspective, int)>
    requires forall p :: p in scores
  {
    [(Product, scores[Product]), (Technology, scores[Technology]), (Industry, scores[Industry])]
  }

  predicate ScoreGe(x: (Perspective, int), y: (Perspective, int)) { x.1 >= y.1 }

  lemma ScoreGeTotalPreorder()
    ensures TotalPreorder(ScoreGe)
  {
  }

  /**
   * The decision of `_rule_classify`: sort the pairs by descending score
   * (stable), give up when the top score is 0 or the first two tie, else
   * take the top perspective.
   */
  function Decide(scores: map<Perspective, int>): Option<Perspective>
    requires forall p :: p in scores
  {
    var top := SortBy(ScorePairs(scores), ScoreGe);
    if top[0].1 == 0 then None
    else if top[0].1 == top[1].1 then None
    else Some(top[0].0)
  }

  /** The sort decides nothing itself: the rule picks the strict, positive maximum. */
  lemma DecideUniqueMaximum(scores: map<Perspective, int>, p: Perspective)
    requires forall q :: q in scores && scores[q] >= 0
    ensures Decide(scores) == Some(p) <==>
      scores[p] > 0 && forall q :: q != p ==> scores[q] < scores[p]
  {
    var top := SortBy(ScorePairs(scores), ScoreGe);
    ScoreGeTotalPreorder();
    SortBySorted(ScorePairs(scores), ScoreGe);
    TopPicksMaximum(scores, top, p);
  }

  /** Any descending arrangement of the three pairs has the strict, positive maximum on top, and only it. */
  /** The sorted pairs are the perspectives' scores, each perspective once. */
  lemma TopCovers(scores: map<Perspective, int>, top: seq<(Perspective, int)>)
    requires forall q :: q in scores
    requires |top| == 3 && multiset(top) == multiset(ScorePairs(scores))
    ensures forall k :: 0 <= k < 3 ==> top[k] == (top[k].0, scores[top[k].0])
    ensures forall q :: exists k :: 0 <= k < 3 && top[k] == (q, scores[q])
  {
    var pairs := ScorePairs(scores);
    forall k | 0 <= k < 3 ensures top[k] == (top[k].0, scores[top[k].0]) {
      assert top[k] in multiset(pairs);
    }
    forall q ensures exists k :: 0 <= k < 3 && top[k] == (q, scores[q]) {
      assert (q, scores[q]) in multiset(pairs) by {
        match q
        case Product => assert pairs[0] == (q, scores[q]);
        case Technology => assert pairs[1] == (q, scores[q]);
        case Industry => assert pairs[2] == (q, scores[q]);
      }
      assert (q, scores[q]) in top;
    }
  }

  lemma TopPicksMaximum(scores: map<Perspective, int>, top: seq<(Perspective, int)>, p: Perspective)
    requires forall q :: q in scores && scores[q] >= 0
    requires |top| == 3 && Sorted(top, ScoreGe) && multiset(top) == multiset(ScorePairs(scores))
    ensures (top[0].1 != 0 && top[0].1 != top[1].1 && top[0].0 == p) <==>
      scores[p] > 0 && forall q :: q != p ==> scores[q] < scores[p]
  {
    TopCovers(scores, top);
    assert ScoreGe(top[0], top[1]) && ScoreGe(top[1], top[2]);
    PairsDistinct(scores, top);
    if top[0].1 != 0 && top[0].1 != top[1].1 && top[0].0 == p {
      forall q | q != p ensures scores[q] < scores[p] {
        var k :| 0 <= k < 3 && top[k] == (q, scores[q]);
      }
    }
    if scores[p] > 0 && forall q :: q != p ==> scores[q] < scores[p] {
      var k :| 0 <= k < 3 && top[k] == (p, scores[p]);
      assert top[0].0 == p && top[1].0 != p;
      assert top[1].1 == scores[top[1].0] < scores[p];
    }
  }

  /** A sorted copy of the three pairs holds three different perspectives. */
  lemma PairsDistinct(scores: map<Perspective, int>, top: seq<(Perspective, int)>)
    requires forall q :: q in scores
    requires |top| == 3 && multiset(top) == multiset(ScorePairs(scores))
    ensures top[0].0 != top[1].0 && top[0].0 != top[2].0 && top[1].0 != top[2].0
  {
    var pairs := ScorePairs(scores);
    forall k | 0 <= k < 3 ensures top[k] == (top[k].0, scores[top[k].0]) && multiset(pairs)[top[k]] == 1 {
      assert top[k] in multiset(pairs);
    }
    assert top == [top[0]] + [top[1]] + [top[2]];
  }

  /** The scores `_rule_classify` computes for `text`. */
  function ScoresOf(text: string): (m: map<Perspective, int>)
    ensures forall p :: p in m && m[p] == RuleScore(text, p)
  {
    var m := map p | p in AllPerspectives :: RuleScore(text, p);
    assert forall p :: p in m by {
      forall p ensures p in m {
        assert AllPerspectives[PerspectiveIndex(p)] == p;
      }
    }
    m
  }

  /** The perspective whose score is positive and beats both others, if there is one. */
  function StrictLeader(scores: map<Perspective, int>): Option<Perspective>
    requires forall p :: p in scores
  {
    if scores[Product] > 0 && scores[Product] > scores[Technology] && scores[Product] > scores[Industry]
    then Some(Product)
    else if scores[Technology] > 0 && scores[Technology] > scores[Product] && scores[Technology] > scores[Industry]
    then Some(Technology)
    else if scores[Industry] > 0 && scores[Industry] > scores[Product] && scores[Industry] > scores[Technology]
    then Some(Industry)
    else None
  }

  /** The strict leader is the strict, positive maximum. */
  lemma StrictLeaderIsMaximum(scores: map<Perspective, int>, p: Perspective)
    requires forall q :: q in scores
    ensures StrictLeader(scores) == Some(p) <==>
      scores[p] > 0 && forall q :: q != p ==> scores[q] < scores[p]
  {
    if scores[p] > 0 && forall q :: q != p ==> scores[q] < scores[p] {
      match p
      case Product => assert scores[Technology] < scores[p] && scores[Industry] < scores[p];
      case Technology => assert scores[Product] < scores[p] && scores[Industry] < scores[p];
      case Industry => assert scores[Product] < scores[p] && scores[Technology] < scores[p];
    }
  }

  /** The sort and the strict leader pick `p` in the same scorings. */
  lemma DecideAt(scores: map<Perspective, int>, p: Perspective)
    requires forall q :: q in scores && scores[q] >= 0
    ensures Decide(scores) == Some(p) <==> StrictLeader(scores) == Some(p)
  {
    DecideUniqueMaximum(scores, p);
    StrictLeaderIsMaximum(scores, p);
  }

  /** The sorting decision and the strict leader agree on every nonnegative scoring. */
  lemma DecideIsStrictLeader(scores: map<Perspective, int>)
    requires forall q :: q in scores && scores[q] >= 0
    ensures Decide(scores) == StrictLeader(scores)
  {
    DecideAt(scores, Product);
    DecideAt(scores, Technology);
    DecideAt(scores, Industry);
  }

  /** What `_rule_classify(text)` returns. */
  function RuleDecision(text: string): Option<Perspective> {
    StrictLeader(ScoresOf(text))
  }

  /** The rule picks a perspective exactly when its keyword count is positive and beats the others. */
  lemma RuleDecisionMaximum(text: string, p: Perspective)
    ensures RuleDecision(text) == Some(p) <==>
      RuleScore(text, p) > 0 && forall q :: q != p ==> RuleScore(text, q) < RuleScore(text, p)
  {
    var scores := ScoresOf(text);
    StrictLeaderIsMaximum(scores, p);
    assert forall q :: scores[q] == RuleScore(text, q);
  }

  /** The leader depends only on the three scores. */
  lemma LeaderOfScores(scores: map<Perspective, int>, text: string)
    requires forall p :: p in scores && scores[p] == RuleScore(text, p)
    ensures StrictLeader(scores) == RuleDecision(text)
  {
    var m := ScoresOf(text);
    assert scores[Product] == m[Product] && scores[Technology] == m[Technology] && scores[Industry] == m[Industry];
  }

  /** `_rule_classify`: a perspective exactly when its keyword count is positive and beats the others. */
  method RuleClassify(text: string) returns (r: Option<Perspective>)
    ensures r == RuleDecision(text)
    ensures forall p :: r == Some(p) <==>
      RuleScore(text, p) > 0 && forall q :: q != p ==> RuleScore(text, q) < RuleScore(text, p)
  {
    var scores := RuleScores(text);
    r := Decide(scores);
    assert r == RuleDecision(text) by {
      DecideIsStrictLeader(scores);
      LeaderOfScores(scores, text);
    }
    forall p ensures r == Some(p) <==>
      RuleScore(text, p) > 0 && forall q :: q != p ==> RuleScore(text, q) < RuleScore(text, p)
    {
      RuleDecisionMaximum(text, p);
    }
  }

  const ProductTags: set<string> := {"product", "application", "app"}
  const TechnologyTags: set<string> := {"technology", "research", "model"}
  const IndustryTags: set<string> := {"industry", "policy", "market"}

  predicate HasTagIn(tags: seq<string>, group: set<string>) {
    exists k :: 0 <= k < |tags| && Lower(tags[k]) in group
  }

  lemma HasTagInMeets(tags: seq<string>, group: set<string>)
    ensures HasTagIn(tags, group) <==> group * LoweredTags(tags) != {}
  {
    if HasTagIn(tags, group) {
      var k :| 0 <= k < |tags| && Lower(tags[k]) in group;
      assert Lower(tags[k]) in group * LoweredTags(tags);
    }
  }

  /** `_tag_classify`: product tags win over technology tags, which win over industry tags. */
  function TagClassify(tags: seq<string>): (r: Option<Perspective>)
    ensures r == Some(Product) <==> HasTagIn(tags, ProductTags)
    ensures r == Some(Technology) <==> !HasTagIn(tags, ProductTags) && HasTagIn(tags, TechnologyTags)
    ensures r == Some(Industry) <==>
      !HasTagIn(tags, ProductTags) && !HasTagIn(tags, TechnologyTags) && HasTagIn(tags, IndustryTags)
    ensures r == None <==>
      !HasTagIn(tags, ProductTags) && !HasTagIn(tags, TechnologyTags) && !HasTagIn(tags, IndustryTags)
  {
    HasTagInMeets(tags, ProductTags);
    HasTagInMeets(tags, TechnologyTags);
    HasTagInMeets(tags, IndustryTags);
    var lowered := LoweredTags(tags);
    if ProductTags * lowered != {} then Some(Product)
    else if TechnologyTags * lowered != {} then Some(Technology)
    else if IndustryTags * lowered != {} then Some(Industry)
    else None
  }

  /**
   * A language model's `classify_perspective(title, content)`, present only
   * when a client is configured; `use_llm_fallback` is a separate switch.
   */
  datatype LlmFallback = LlmFallback(client: Option<(string, string) -> Option<Perspective>>, enabled: bool)

  /** The text `classify_items` scores: title, a space, content. */
  function ItemText(item: NormalizedItem): string { item.title + " " + item.content }

  /**
   * The fallback chain of `classify_items` once the rule classifier has
   * answered `byRule`: tags, then the language model when configured and
   * switched on, then `Industry`.
   */
  function Chain(item: NormalizedItem, byRule: Option<Perspective>, llm: LlmFallback): (r: ClassifiedItem)
    ensures r.base == item
    ensures r.classificationSource == Rule <==> byRule.Some? || TagClassify(item.tags).Some?
    ensures r.classificationSource == Llm <==>
      byRule.None? && TagClassify(item.tags).None?
      && llm.client.Some? && llm.enabled && llm.client.value(item.title, item.content).Some?
    ensures byRule.Some? ==> r.perspective == byRule.value
    ensures byRule.None? ==> r.classificationSource == Rule ==> r.perspective == TagClassify(item.tags).value
    ensures r.classificationSource == Llm ==> r.perspective == llm.client.value(item.title, item.content).value
    ensures r.classificationSource == Fallback ==> r.perspective == Industry
  {
    var perspective := if byRule.Some? then byRule else TagClassify(item.tags);
    var byLlm := if perspective.None? && llm.client.Some? && llm.enabled
                 then llm.client.value(item.title, item.content) else perspective;
    if perspective.Some? then ClassifiedItem(item, perspective.value, Rule)
    else if byLlm.Some? then ClassifiedItem(item, byLlm.value, Llm)
    else ClassifiedItem(item, Industry, Fallback)
  }

  /** One step of `classify_items`. */
  function ClassifyOne(item: NormalizedItem, llm: LlmFallback): ClassifiedItem {
    Chain(item, RuleDecision(ItemText(item)), llm)
  }

  /** The loop body of `classify_items`: the source is `rule` until a later stage answers. */
  method ClassifyStep(item: NormalizedItem, llm: LlmFallback) returns (c: ClassifiedItem)
    ensures c == ClassifyOne(item, llm)
  {
    var perspective := RuleClassify(ItemText(item));
    ChainCases(item, perspective, llm);
    var source := Rule;
    if perspective.None? {
      perspective := TagClassify(item.tags);
      if perspective.Some? {
        source := Rule;
      }
    }
    if perspective.None? && llm.client.Some? && llm.enabled {
      perspective := llm.client.value(item.title, item.content);
      source := Llm;
    }
    if perspective.None? {
      perspective := Some(Industry);
      source := Fallback;
    }
    c := ClassifiedItem(item, perspective.value, source);
  }

  /** The four outcomes of the fallback chain, one per stage. */
  lemma ChainCases(item: NormalizedItem, byRule: Option<Perspective>, llm: LlmFallback)
    ensures var byTag := TagClassify(item.tags);
      var asked := llm.client.Some? && llm.enabled;
      Chain(item, byRule, llm) ==
        if byRule.Some? then ClassifiedItem(item, byRule.value, Rule)
        else if byTag.Some? then ClassifiedItem(item, byTag.value, Rule)
        else if asked && llm.client.value(item.title, item.content).Some? then
          ClassifiedItem(item, llm.client.value(item.title, item.content).value, Llm)
        else ClassifiedItem(item, Industry, Fallback)
  {
  }

  /** What `classify_items` returns: the items classified one by one, in order. */
  function ClassifyAll(items: seq<NormalizedItem>, llm: LlmFallback): seq<ClassifiedItem> {
    Map((item: NormalizedItem) => ClassifyOne(item, llm), items)
  }

  /** Classification is item by item: one output per input, the `i`-th from the `i`-th item alone. */
  lemma ClassifyAllAt(items: seq<NormalizedItem>, llm: LlmFallback, i: int)
    requires 0 <= i < |items|
    ensures |ClassifyAll(items, llm)| == |items|
    ensures ClassifyAll(items, llm)[i] == ClassifyOne(items[i], llm)
  {
    MapAt((item: NormalizedItem) => ClassifyOne(item, llm), items, i);
  }

  /** Every classified item wraps one of the items it was given. */
  lemma ClassifyAllFrom(items: seq<NormalizedItem>, llm: LlmFallback, c: ClassifiedItem)
    requires c in ClassifyAll(items, llm)
    ensures c.base in items
  {
    var j :| 0 <= j < |items| && ClassifyAll(items, llm)[j] == c;
    ClassifyAllAt(items, llm, j);
  }

  /** `classify_items`: one classified item per input, in order, every other field copied. */
  method ClassifyItems(items: seq<NormalizedItem>, llm: LlmFallback) returns (classified: seq<ClassifiedItem>)
    ensures classified == ClassifyAll(items, llm)
    ensures |classified| == |items|
  {
    classified := [];
    var i := 0;
    while i < |items|
      invariant 0 <= i <= |items|
      invariant classified == ClassifyAll(items[..i], llm)
    {
      var c := ClassifyStep(items[i], llm);
      assert items[..i + 1][..i] == items[..i];
      classified := classified + [c];
      i := i + 1;
    }
    assert items[..i] == items;
  }

  // ---------------------------------------------------------------------------
  // The three sample titles

  /** Each `cs[k]` is a character of `keys[k]` that `lowered` lacks, so no keyword hits. */
  lemma NoHits(lowered: string, keys: seq<string>, cs: seq<char>)
    requires |cs| == |keys|
    requires forall k :: 0 <= k < |keys| ==> cs[k] in keys[k] && !('A' <= cs[k] <= 'Z') && cs[k] !in lowered
    ensures |Hits(lowered, keys, |keys|)| == 0
  {
    forall k | 0 <= k < |keys| ensures !Contains(lowered, Lower(keys[k])) {
      LowerKeeps(keys[k], cs[k]);
      var key := Lower(keys[k]);
      var j :| 0 <= j < |key| && key[j] == cs[k];
      forall i | 0 <= i <= |lowered| - |key| ensures !OccursAt(lowered, key, i) {
        assert lowered[i..i + |key|][j] == lowered[i + j];
      }
    }
    assert Hits(lowered, keys, |keys|) == {};
  }

  /** A keyword occurring in the lowered text is a hit. */
  lemma SomeHit(lowered: string, keys: seq<string>, k: int, i: int)
    requires 0 <= k < |keys| && OccursAt(lowered, Lower(keys[k]), i)
    ensures |Hits(lowered, keys, |keys|)| > 0
  {
    assert k in Hits(lowered, keys, |keys|);
  }

  /** The text of an item whose content repeats its title `t`, lower-cased. */
  lemma LowerRepeated(t: string, l: string)
    requires Lower(t) == l
    ensures Lower(t + " " + t) == l + " " + l
  {
    LowerAppend(t + " ", t);
    LowerAppend(t, " ");
    assert Lower(" ") == " ";
  }

  lemma LowerSample1() ensures Lower("某公司发布 AI 应用新版本") == "某公司发布 ai 应用新版本" { }
  lemma LowerSample2() ensures Lower("新论文提出高效推理架构") == "新论文提出高效推理架构" { }
  lemma LowerSample3() ensures Lower("AI 初创公司完成新一轮融资") == "ai 初创公司完成新一轮融资" { }
  lemma LowerFaBu() ensures Lower("发布") == "发布" { }
  lemma LowerLunWen() ensures Lower("论文") == "论文" { }
  lemma LowerRongZi() ensures Lower("融资") == "融资" { }

  /** Characters of each keyword that none of the sample texts below contains. */
  const ProductMarks := "发上产应gplr"
  const TechnologyMarks := "论算架b推训模r"
  const IndustryMarks := "融估政合并市生监"

  lemma Sample1Scores(l: string)
    requires l == "某公司发布 ai 应用新版本" + " " + "某公司发布 ai 应用新版本"
    ensures |Hits(l, Rules(Product), 8)| > 0
    ensures |Hits(l, Rules(Technology), 8)| == 0 && |Hits(l, Rules(Industry), 8)| == 0
  {
    LowerFaBu();
    assert OccursAt(l, Lower(Rules(Product)[0]), 3);
    SomeHit(l, Rules(Product), 0, 3);
    NoHits(l, Rules(Technology), TechnologyMarks);
    NoHits(l, Rules(Industry), IndustryMarks);
  }

  lemma Sample2Scores(l: string)
    requires l == "新论文提出高效推理架构" + " " + "新论文提出高效推理架构"
    ensures |Hits(l, Rules(Technology), 8)| > 0
    ensures |Hits(l, Rules(Product), 8)| == 0 && |Hits(l, Rules(Industry), 8)| == 0
  {
    LowerLunWen();
    assert OccursAt(l, Lower(Rules(Technology)[0]), 1);
    SomeHit(l, Rules(Technology), 0, 1);
    NoHits(l, Rules(Product), ProductMarks);
    NoHits(l, Rules(Industry), IndustryMarks);
  }

  lemma Sample3Scores(l: string)
    requires l == "ai 初创公司完成新一轮融资" + " " + "ai 初创公司完成新一轮融资"
    ensures |Hits(l, Rules(Industry), 8)| > 0
    ensures |Hits(l, Rules(Product), 8)| == 0 && |Hits(l, Rules(Technology), 8)| == 0
  {
    Sample3Industry(l);
    NoHits(l, Rules(Product), ProductMarks);
    NoHits(l, Rules(Technology), TechnologyMarks);
  }

  lemma Sample3Industry(l: string)
    requires l == "ai 初创公司完成新一轮融资" + " " + "ai 初创公司完成新一轮融资"
    ensures |Hits(l, Rules(Industry), 8)| > 0
  {
    LowerRongZi();
    assert OccursAt(l, Lower(Rules(Industry)[0]), 12);
    SomeHit(l, Rules(Industry), 0, 12);
  }

  /** Only `p`'s keywords occur: the rule decides `p`. */
  lemma OnlyOneVotes(text: string, p: Perspective)
    requires RuleScore(text, p) > 0
    requires forall q :: q != p ==> RuleScore(text, q) == 0
    ensures RuleDecision(text) == Some(p)
  {
    var scores := ScoresOf(text);
    match p
    case Product => assert scores[Technology] == 0 && scores[Industry] == 0;
    case Technology => assert scores[Product] == 0 && scores[Industry] == 0;
    case Industry => assert scores[Product] == 0 && scores[Technology] == 0;
  }

  /** An item whose content repeats its title `t`, with no tags. */
  function SampleItem(t: string): NormalizedItem {
    NormalizedItem(t, "s", 1.0, "https://x.com", "https://x.com", t, t, Some(0), 0, Zh, [])
  }

  /** A title whose lower-cased, doubled text hits only `p`'s keywords is classified `p` by rule. */
  lemma SampleByRule(t: string, l: string, p: Perspective, llm: LlmFallback)
    requires Lower(t) == l
    requires |Hits(l + " " + l, Rules(p), 8)| > 0
    requires forall q :: q != p ==> |Hits(l + " " + l, Rules(q), 8)| == 0
    ensures ClassifyOne(SampleItem(t), llm).perspective == p
    ensures ClassifyOne(SampleItem(t), llm).classificationSource == Rule
  {
    LowerRepeated(t, l);
    assert ItemText(SampleItem(t)) == t + " " + t;
    OnlyOneVotes(t + " " + t, p);
  }

  /** The three sample titles are a product, a technology and an industry item, by rule. */
  lemma ClassifySamples(llm: LlmFallback)
    ensures ClassifyOne(SampleItem("某公司发布 AI 应用新版本"), llm).perspective == Product
    ensures ClassifyOne(SampleItem("新论文提出高效推理架构"), llm).perspective == Technology
    ensures ClassifyOne(SampleItem("AI 初创公司完成新一轮融资"), llm).perspective == Industry
  {
    LowerSample1();
    Sample1Scores("某公司发布 ai 应用新版本" + " " + "某公司发布 ai 应用新版本");
    SampleByRule("某公司发布 AI 应用新版本", "某公司发布 ai 应用新版本", Product, llm);
    LowerSample2();
    Sample2Scores("新论文提出高效推理架构" + " " + "新论文提出高效推理架构");
    SampleByRule("新论文提出高效推理架构", "新论文提出高效推理架构", Technology, llm);
    LowerSample3();
    Sample3Scores("ai 初创公司完成新一轮融资" + " " + "ai 初创公司完成新一轮融资");
    SampleByRule("AI 初创公司完成新一轮融资", "ai 初创公司完成新一轮融资", Industry, llm);
  }
}
