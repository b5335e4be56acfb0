/**
 * The publisher: the label tables, the markdown rendering of a daily brief,
 * the WeCom webhook push with its retry schedule, and the failure alert.  The
 * HTTP client is a parameter giving the reply to each post; the archive
 * writer is not part of this model.
 */
module Publisher {
  import opened Wrappers
  import opened Text
  import opened Order
  import opened Models

  // ---------------------------------------------------------------------------
  // Label tables

  const DefaultPerspectiveLabel: string := "综合视角"

  /** `_perspective_label`: one label per perspective value, the combined view for anything else. */
  function PerspectiveLabel(value: string): (r: string)
    ensures r == DefaultPerspectiveLabel <==> value != "product" && value != "technology" && value != "industry"
  {
    if value == "product" then "产品视角"
    else if value == "technology" then "技术视角"
    else if value == "industry" then "行业视角"
    else DefaultPerspectiveLabel
  }

  /** The three perspectives get three different labels, none of them the default. */
  lemma PerspectiveLabelsDistinct(p: Perspective, q: Perspective)
    ensures PerspectiveLabel(PerspectiveValue(p)) != DefaultPerspectiveLabel
    ensures PerspectiveLabel(PerspectiveValue(p)) == PerspectiveLabel(PerspectiveValue(q)) ==> p == q
  {
  }

  const DefaultImportanceLabel: string := "关注"

  /** `_importance_label`: unknown importances read as "medium". */
  function ImportanceLabel(value: string): (r: string)
    ensures r == DefaultImportanceLabel <==> value != "high" && value != "low"
  {
    if value == "high" then "重要"
    else if value == "low" then "速览"
    else DefaultImportanceLabel
  }

  /** `_key_point_limit`: high 4, low 2, anything else 3. */
  function KeyPointLimit(value: string): (n: nat)
    ensures 2 <= n <= 4
    ensures n == 4 <==> value == "high"
    ensures n == 2 <==> value == "low"
  {
    if value == "high" then 4
    else if value == "low" then 2
    else 3
  }

  /** Both tables fall back together: an importance reads as medium exactly when it gets three points. */
  lemma ImportanceTablesAgree(value: string)
    ensures ImportanceLabel(value) == DefaultImportanceLabel <==> KeyPointLimit(value) == 3
    ensures ImportanceLabel(value) == ImportanceLabel("medium") <==> KeyPointLimit(value) == KeyPointLimit("medium")
  {
  }

  // ---------------------------------------------------------------------------
  // Markdown

  const FallbackInsight: string := "该信息可能影响后续选题优先级与资源投入，建议结合业务目标跟踪。"

  /** The insight shown for an item: its stripped insight, or a fixed sentence when that is blank. */
  function Insight(item: BriefItem): (r: string)
    ensures r != ""
    ensures Strip(item.insight) != "" ==> r == Strip(item.insight)
  {
    var s := Strip(item.insight);
    if s != "" then s else FallbackInsight
  }

  function Heading(idx: nat, item: BriefItem): string {
    "## " + ShowNat(idx) + "、【" + ImportanceLabel(item.importance) + "】【"
      + PerspectiveLabel(PerspectiveValue(item.perspective)) + "】" + item.title
  }

  const PointMark: string := "  - "

  function PointLines(points: seq<string>): (r: seq<string>)
    ensures |r| == |points|
  {
    seq(|points|, i requires 0 <= i < |points| => PointMark + points[i])
  }

  /** The lines of the `idx`-th item: heading, source, link, key points up to the limit, insight, a blank. */
  function ItemBlock(idx: nat, item: BriefItem): seq<string> {
    [Heading(idx, item), "- 来源：" + item.sourceName, "- 原文链接：" + item.url, "- 关键信息："]
      + PointLines(Take(item.keyPoints, KeyPointLimit(item.importance)))
      + ["- insight：" + Insight(item), ""]
  }

  /** The blocks of all items, numbered from 1 in input order. */
  function ItemLines(items: seq<BriefItem>): seq<string> {
    if items == [] then []
    else ItemLines(items[..|items| - 1]) + ItemBlock(|items|, items[|items| - 1])
  }

  function ObservationLines(observations: seq<string>): (r: seq<string>)
    ensures |r| == |observations|
  {
    seq(|observations|, i requires 0 <= i < |observations| => "- " + observations[i])
  }

  const ObservationHeading: string := "## 跨条观察"

  /** The lines `render_markdown` joins. */
  function MarkdownLines(brief: DailyBrief): seq<string> {
    ["# " + brief.title, "", "**导语**：" + brief.intro, ""]
      + ItemLines(brief.items)
      + [ObservationHeading] + ObservationLines(brief.observations)
  }

  /** `render_markdown(brief)`. */
  function Markdown(brief: DailyBrief): string {
    Strip(Join(MarkdownLines(brief), "\n"))
  }

  predicate IsPointLine(line: string) { StartsWith(line, PointMark) }

  /** The point lines of a list of points: one per point. */
  lemma {:induction false} PointLinesCount(points: seq<string>)
    ensures Count(PointLines(points), IsPointLine) == |points|
  {
    if points != [] {
      var lines := PointLines(points);
      assert lines[1..] == PointLines(points[1..]);
      assert lines[0][..|PointMark|] == PointMark;
      PointLinesCount(points[1..]);
    }
  }

  /** Each item shows `min(len(key_points), limit)` points: never more than its importance allows. */
  lemma ItemBlockPoints(idx: nat, item: BriefItem)
    ensures Count(ItemBlock(idx, item), IsPointLine) == |Take(item.keyPoints, KeyPointLimit(item.importance))|
    ensures Count(ItemBlock(idx, item), IsPointLine) <= KeyPointLimit(item.importance)
  {
    var head := [Heading(idx, item), "- 来源：" + item.sourceName, "- 原文链接：" + item.url, "- 关键信息："];
    var points := PointLines(Take(item.keyPoints, KeyPointLimit(item.importance)));
    var tail := ["- insight：" + Insight(item), ""];
    HeadNoPoints(idx, item);
    TailNoPoints(item);
    PointLinesCount(Take(item.keyPoints, KeyPointLimit(item.importance)));
    CountAppend(head, points, IsPointLine);
    CountAppend(head + points, tail, IsPointLine);
  }

  /** The lines above the points are not point lines ... */
  lemma HeadNoPoints(idx: nat, item: BriefItem)
    ensures Count([Heading(idx, item), "- 来源：" + item.sourceName, "- 原文链接：" + item.url, "- 关键信息："],
      IsPointLine) == 0
  {
    var head := [Heading(idx, item), "- 来源：" + item.sourceName, "- 原文链接：" + item.url, "- 关键信息："];
    assert PointMark[0] == ' ';
    assert head[0][0] == '#' && head[1][0] == '-' && head[2][0] == '-' && head[3][0] == '-';
    CountNone(head, IsPointLine);
  }

  /** ... and neither are the lines below them. */
  lemma TailNoPoints(item: BriefItem)
    ensures Count(["- insight：" + Insight(item), ""], IsPointLine) == 0
  {
    var tail := ["- insight：" + Insight(item), ""];
    assert PointMark[0] == ' ';
    assert tail[0][0] == '-' && |tail[1]| < |PointMark|;
    CountNone(tail, IsPointLine);
  }

  /** Rendering more items only appends: the earlier blocks are unchanged. */
  lemma {:induction false} ItemLinesPrefix(items: seq<BriefItem>, k: nat)
    requires k <= |items|
    ensures ItemLines(items[..k]) <= ItemLines(items)
    decreases |items|
  {
    if k < |items| {
      var init := items[..|items| - 1];
      assert items[..k] == init[..k];
      ItemLinesPrefix(init, k);
    } else {
      assert items[..k] == items;
    }
  }

  /** The heading of the item at position `k` carries the number `k + 1`. */
  lemma ItemNumbered(items: seq<BriefItem>, k: nat)
    requires k < |items|
    ensures |ItemLines(items[..k])| < |ItemLines(items)|
    ensures ItemLines(items)[|ItemLines(items[..k])|] == Heading(k + 1, items[k])
  {
    var before := ItemLines(items[..k]);
    var upTo := ItemLines(items[..k + 1]);
    ItemLinesSnoc(items, k);
    assert upTo[|before|] == Heading(k + 1, items[k]) by {
      assert upTo[|before|] == ItemBlock(k + 1, items[k])[0];
    }
    ItemLinesPrefix(items, k + 1);
  }

  /** One more item appends its block. */
  lemma ItemLinesSnoc(items: seq<BriefItem>, k: nat)
    requires k < |items|
    ensures ItemLines(items[..k + 1]) == ItemLines(items[..k]) + ItemBlock(k + 1, items[k])
  {
    assert items[..k + 1][..k] == items[..k];
  }

  /** The document opens with the title and ends with the observation section, one line per observation. */
  lemma MarkdownShape(brief: DailyBrief)
    ensures MarkdownLines(brief)[0] == "# " + brief.title
    ensures var lines := MarkdownLines(brief); var n := |brief.observations|;
      |lines| == 5 + |ItemLines(brief.items)| + n && lines[|lines| - n - 1] == ObservationHeading
      && forall i :: 0 <= i < n ==> lines[|lines| - n + i] == "- " + brief.observations[i]
  {
  }

  /** The lines of one item, its key points appended one by one. */
  method RenderItem(idx: nat, item: BriefItem) returns (block: seq<string>)
    ensures block == ItemBlock(idx, item)
  {
    block := [Heading(idx, item), "- 来源：" + item.sourceName, "- 原文链接：" + item.url, "- 关键信息："];
    ghost var head := block;
    var points := Take(item.keyPoints, KeyPointLimit(item.importance));
    var j := 0;
    while j < |points|
      invariant 0 <= j <= |points|
      invariant block == head + PointLines(points[..j])
    {
      assert PointLines(points[..j + 1]) == PointLines(points[..j]) + [PointMark + points[j]];
      block := block + [PointMark + points[j]];
      j := j + 1;
    }
    assert points[..j] == points;
    block := block + ["- insight：" + Insight(item), ""];
  }

  /** The item blocks, one per item in order. */
  method RenderItems(items: seq<BriefItem>) returns (lines: seq<string>)
    ensures lines == ItemLines(items)
  {
    lines := [];
    var idx := 0;
    while idx < |items|
      invariant 0 <= idx <= |items|
      invariant lines == ItemLines(items[..idx])
    {
      var block := RenderItem(idx + 1, items[idx]);
      ItemLinesSnoc(items, idx);
      lines := lines + block;
      idx := idx + 1;
    }
    assert items[..idx] == items;
  }

  /** The observation lines, one per observation in order. */
  method RenderObservations(observations: seq<string>) returns (lines: seq<string>)
    ensures lines == ObservationLines(observations)
  {
    lines := [];
    var k := 0;
    while k < |observations|
      invariant 0 <= k <= |observations|
      invariant lines == ObservationLines(observations[..k])
    {
      assert ObservationLines(observations[..k + 1]) == ObservationLines(observations[..k]) + ["- " + observations[k]];
      lines := lines + ["- " + observations[k]];
      k := k + 1;
    }
    assert observations[..k] == observations;
  }

  /** `render_markdown`: the lines appended in document order, joined and stripped. */
  method RenderMarkdown(brief: DailyBrief) returns (markdown: string)
    ensures markdown == Markdown(brief)
  {
    var itemLines := RenderItems(brief.items);
    var observationLines := RenderObservations(brief.observations);
    var lines := ["# " + brief.title, "", "**导语**：" + brief.intro, ""] + itemLines + [ObservationHeading] + observationLines;
    markdown := Strip(Join(lines, "\n"));
  }

  // ---------------------------------------------------------------------------
  // Webhook push with retries

  /** A webhook reply: the HTTP status and the `errcode` of its body (-1 when absent). */
  datatype PostReply = PostReply(status: int, errcode: int)

  predicate Accepted(r: PostReply) { r.status == 200 && r.errcode == 0 }

  /** The waits of `attempts = (0,) + retries` that make `sleep_fn` run. */
  function PositiveWaits(waits: seq<int>): (r: seq<int>)
    ensures forall w :: w in r ==> w > 0
  {
    if waits == [] then [] else (if waits[0] > 0 then [waits[0]] else []) + PositiveWaits(waits[1..])
  }

  /**
   * The attempts from the `i`-th wait on, where `reply(k)` is what the `k`-th
   * post gets (an `Err` is an exception the client raises): the outcome, the
   * number of posts made and the sleeps taken.
   */
  function PushFrom(waits: seq<int>, i: nat, reply: nat -> Result<PostReply>): (r: (Result<bool>, nat, seq<int>))
    requires i <= |waits|
    decreases |waits| - i
  {
    if i == |waits| then (Ok(false), 0, [])
    else
      var slept := if waits[i] > 0 then [waits[i]] else [];
      match reply(i)
      case Err(e) => (Err(e), 1, slept)
      case Ok(rep) =>
        if Accepted(rep) then (Ok(true), 1, slept)
        else
          var rest := PushFrom(waits, i + 1, reply);
          (rest.0, rest.1 + 1, slept + rest.2)
  }

  /** The loop state of `PostAttempts` after a refused post. */
  lemma AttemptRefused(waits: seq<int>, i: nat, reply: nat -> Result<PostReply>, whole: (Result<bool>, nat, seq<int>), posts: nat, sleeps: seq<int>)
    requires i < |waits| && reply(i).Ok? && !Accepted(reply(i).value)
    requires var rest := PushFrom(waits, i, reply);
      whole.0 == rest.0 && whole.1 == rest.1 + posts && whole.2 == sleeps + rest.2
    ensures var rest := PushFrom(waits, i + 1, reply);
      whole.0 == rest.0 && whole.1 == rest.1 + posts + 1
      && whole.2 == (sleeps + if waits[i] > 0 then [waits[i]] else []) + rest.2
  {
    PushFromStep(waits, i, reply);
  }

  /** The loop state of `PostAttempts` when a post ends the attempts. */
  lemma AttemptStops(waits: seq<int>, i: nat, reply: nat -> Result<PostReply>, whole: (Result<bool>, nat, seq<int>), posts: nat, sleeps: seq<int>)
    requires i < |waits| && (reply(i).Err? || Accepted(reply(i).value))
    requires var rest := PushFrom(waits, i, reply);
      whole.0 == rest.0 && whole.1 == rest.1 + posts && whole.2 == sleeps + rest.2
    ensures whole == (if reply(i).Err? then Err(reply(i).error) else Ok(true), posts + 1,
      sleeps + if waits[i] > 0 then [waits[i]] else [])
  {
    PushFromStop(waits, i, reply);
  }

  /** An error or an accepted post ends the attempts. */
  lemma PushFromStop(waits: seq<int>, i: nat, reply: nat -> Result<PostReply>)
    requires i < |waits| && (reply(i).Err? || Accepted(reply(i).value))
    ensures PushFrom(waits, i, reply) ==
      (if reply(i).Err? then Err(reply(i).error) else Ok(true), 1, if waits[i] > 0 then [waits[i]] else [])
  {
  }

  /** A refused post is followed by the remaining attempts. */
  lemma PushFromStep(waits: seq<int>, i: nat, reply: nat -> Result<PostReply>)
    requires i < |waits| && reply(i).Ok? && !Accepted(reply(i).value)
    ensures var r, rest := PushFrom(waits, i, reply), PushFrom(waits, i + 1, reply);
      r.0 == rest.0 && r.1 == rest.1 + 1 && r.2 == (if waits[i] > 0 then [waits[i]] else []) + rest.2
  {
  }

  /** At most one post per wait, and a sleep exactly before the attempts whose wait is positive. */
  lemma {:induction false} PushFromBounds(waits: seq<int>, i: nat, reply: nat -> Result<PostReply>)
    requires i <= |waits|
    ensures var r := PushFrom(waits, i, reply);
      i + r.1 <= |waits| && (i < |waits| ==> r.1 >= 1) && r.2 == PositiveWaits(waits[i..i + r.1])
    decreases |waits| - i
  {
    if i < |waits| {
      var r := PushFrom(waits, i, reply);
      assert waits[i..i + 1][1..] == [];
      if reply(i).Ok? && !Accepted(reply(i).value) {
        PushFromBounds(waits, i + 1, reply);
        var rest := PushFrom(waits, i + 1, reply);
        assert waits[i..i + r.1][1..] == waits[i + 1..i + 1 + rest.1];
      }
    }
  }

  /** The push reports success exactly when some post is accepted and every earlier post was answered. */
  lemma {:induction false} PushFromSucceeds(waits: seq<int>, i: nat, reply: nat -> Result<PostReply>)
    requires i <= |waits|
    ensures PushFrom(waits, i, reply).0 == Ok(true) <==>
      exists k :: i <= k < |waits| && reply(k).Ok? && Accepted(reply(k).value)
        && forall j :: i <= j < k ==> reply(j).Ok? && !Accepted(reply(j).value)
    decreases |waits| - i
  {
    if i < |waits| {
      PushFromSucceeds(waits, i + 1, reply);
      if reply(i).Ok? && Accepted(reply(i).value) {
      } else if reply(i).Ok? {
        if exists k :: (i <= k < |waits| && reply(k).Ok? && Accepted(reply(k).value)
          && forall j :: i <= j < k ==> reply(j).Ok? && !Accepted(reply(j).value))
        {
          var k :| i <= k < |waits| && reply(k).Ok? && Accepted(reply(k).value)
            && forall j :: i <= j < k ==> reply(j).Ok? && !Accepted(reply(j).value);
          assert k != i;
        }
      } else {
        forall k | i <= k < |waits| && reply(k).Ok? && Accepted(reply(k).value)
          ensures !(forall j :: i <= j < k ==> reply(j).Ok? && !Accepted(reply(j).value))
        {
          assert k != i;
        }
      }
    }
  }

  /** The body `_build_wecom_payload` posts: `{"msgtype": "markdown", "markdown": {"content": content}}`. */
  datatype WecomPayload = WecomPayload(msgtype: string, content: string)

  function WecomMarkdown(content: string): (p: WecomPayload)
    ensures p.msgtype == "markdown" && p.content == content
  {
    WecomPayload("markdown", content)
  }

  /** The replies to the posts of `payload` to `webhook`, attempt by attempt; `reply` answers a post. */
  function Posts(webhook: string, payload: WecomPayload, reply: (string, WecomPayload, nat) -> Result<PostReply>)
    : nat -> Result<PostReply>
  {
    (i: nat) => reply(webhook, payload, i)
  }

  /**
   * `push_markdown`: every attempt posts the markdown payload of `content`
   * to `webhook`, until one is accepted; an empty webhook raises first.
   */
  method PushMarkdown(webhook: string, content: string, retries: seq<int>,
                      reply: (string, WecomPayload, nat) -> Result<PostReply>)
    returns (r: Result<bool>, posts: nat, sleeps: seq<int>)
    ensures webhook == "" ==> r == Err("Missing wechat webhook URL") && posts == 0 && sleeps == []
    ensures webhook != "" ==> var run := PushFrom([0] + retries, 0, Posts(webhook, WecomMarkdown(content), reply));
      r == run.0 && posts == run.1 && sleeps == run.2
  {
    if webhook == "" {
      return Err("Missing wechat webhook URL"), 0, [];
    }
    r, posts, sleeps := PostAttempts([0] + retries, Posts(webhook, WecomMarkdown(content), reply));
  }

  /** The retry loop of `push_markdown` over the waits before each attempt. */
  method PostAttempts(attempts: seq<int>, reply: nat -> Result<PostReply>) returns (r: Result<bool>, posts: nat, sleeps: seq<int>)
    ensures (r, posts, sleeps) == PushFrom(attempts, 0, reply)
  {
    posts := 0;
    sleeps := [];
    var i := 0;
    ghost var whole := PushFrom(attempts, 0, reply);
    while i < |attempts|
      invariant 0 <= i <= |attempts| && posts == i
      invariant whole.0 == PushFrom(attempts, i, reply).0
      invariant whole.1 == PushFrom(attempts, i, reply).1 + posts
      invariant whole.2 == sleeps + PushFrom(attempts, i, reply).2
    {
      var wait := attempts[i];
      var slept := if wait > 0 then [wait] else [];
      var answer := reply(i);
      if answer.Err? || Accepted(answer.value) {
        r := if answer.Err? then Err(answer.error) else Ok(true);
        AttemptStops(attempts, i, reply, whole, posts, sleeps);
        return r, posts + 1, sleeps + slept;
      }
      AttemptRefused(attempts, i, reply, whole, posts, sleeps);
      sleeps := sleeps + slept;
      posts := posts + 1;
      i := i + 1;
    }
    assert sleeps + [] == sleeps;
    r := Ok(false);
  }

  /** The retry example: a 500, then errcode 1, then success, with waits 1 and 2. */
  lemma PushExample(reply: nat -> Result<PostReply>)
    requires reply(0) == Ok(PostReply(500, -1)) && reply(1) == Ok(PostReply(200, 1)) && reply(2) == Ok(PostReply(200, 0))
    ensures var run := PushFrom([0] + [1, 2], 0, reply); run.0 == Ok(true) && run.1 == 3 && run.2 == [1, 2]
  {
    var waits := [0] + [1, 2];
    assert waits == [0, 1, 2];
    var last := PushFrom(waits, 2, reply);
    assert last.0 == Ok(true) && last.1 == 1 && last.2 == [2];
    var second := PushFrom(waits, 1, reply);
    assert second.0 == Ok(true) && second.1 == 2 && second.2 == [1] + [2];
  }

  // ---------------------------------------------------------------------------
  // Failure alert

  const AlertPrefix: string := "[AI日报告警] 当日任务失败："

  /** The alert text: a fixed prefix and the first 500 characters of the error. */
  function AlertText(errorMessage: string): (r: string)
    ensures StartsWith(r, AlertPrefix) && |r| <= |AlertPrefix| + 500
    ensures r[|AlertPrefix|..] <= errorMessage
  {
    AlertPrefix + Take(errorMessage, 500)
  }

  /**
   * `send_failure_alert`: the outcome and the text posted, if any; `reply`
   * answers the post of a text.
   */
  function SendFailureAlert(webhook: string, errorMessage: string, reply: string -> Result<PostReply>)
    : (r: (Result<bool>, Option<string>))
    ensures webhook == "" ==> r == (Ok(false), None)
    ensures webhook != "" ==> r.1 == Some(AlertText(errorMessage))
    ensures r.0 == Ok(true) <==> webhook != "" && reply(AlertText(errorMessage)).Ok? && Accepted(reply(AlertText(errorMessage)).value)
  {
    if webhook == "" then (Ok(false), None)
    else
      var text := AlertText(errorMessage);
      match reply(text)
      case Err(e) => (Err(e), Some(text))
      case Ok(rep) => (Ok(Accepted(rep)), Some(text))
  }
}
