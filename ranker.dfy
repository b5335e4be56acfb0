/**
 * Scoring, ranking and the three-phase selection of the digest's items.
 * Scores are reals; instants are UTC seconds.
 */
module Ranker {
  import opened Wrappers
  import opened Text
  import opened Order
  import opened Models

  // ---------------------------------------------------------------------------
  // Score components

  /** The words whose presence counts as "heat". */
  const SignalWords: seq<string> := ["发布", "开源", "融资", "上线", "breakthrough", "launch", "benchmark"]

  /** How many distinct signal words occur in the lower-cased text. */
  function SignalHits(text: string): nat {
    |Hits(Lower(text), SignalWords, |SignalWords|)|
  }

  /** `_calc_heat_score`: 0.4 per signal word found, capped at 2.0. */
  function HeatScore(text: string): (r: real)
    ensures 0.0 <= r <= 2.0
    ensures r == 2.0 <==> SignalHits(text) >= 5
    ensures SignalHits(text) < 5 ==> r == 0.4 * SignalHits(text) as real
  {
    var hits := SignalHits(text) as real * 0.4;
    if 2.0 <= hits then 2.0 else hits
  }

  /** More signal words never lower the heat. */
  lemma HeatMonotone(a: string, b: string)
    requires Hits(Lower(a), SignalWords, |SignalWords|) <= Hits(Lower(b), SignalWords, |SignalWords|)
    ensures HeatScore(a) <= HeatScore(b)
  {
    SubsetCardinality(Hits(Lower(a), SignalWords, |SignalWords|), Hits(Lower(b), SignalWords, |SignalWords|));
  }

  lemma SubsetCardinality(a: set<int>, b: set<int>)
    requires a <= b
    ensures |a| <= |b|
  {
    assert b == a + (b - a);
  }

  /** The tags `_calc_tag_bonus` looks at. */
  const BonusTags: set<string> := {"priority_top", "self_media", "personal", "creator", "wechat", "official"}

  /** `_calc_tag_bonus`: a sum of fixed bonuses keyed on the lower-cased tag set. */
  function TagBonus(tags: seq<string>): (r: real)
    ensures -0.2 <= r <= 5.4
    ensures "priority_top" in LoweredTags(tags) ==> r >= 2.8
    ensures "priority_top" !in LoweredTags(tags) ==> r <= 2.4
    ensures (forall t :: t in BonusTags ==> t !in LoweredTags(tags)) ==> r == 0.0
  {
    var tagSet := LoweredTags(tags);
    assert "priority_top" in BonusTags && "self_media" in BonusTags && "personal" in BonusTags;
    assert "creator" in BonusTags && "wechat" in BonusTags && "official" in BonusTags;
    var top := if "priority_top" in tagSet then 3.0 else 0.0;
    var selfMedia := if "self_media" in tagSet then 1.0 else 0.0;
    var personal := if "personal" in tagSet then 0.8 else 0.0;
    var creator := if "creator" in tagSet then 0.4 else 0.0;
    var wechat := if "wechat" in tagSet && "official" !in tagSet then 0.2 else 0.0;
    var official := if "official" in tagSet then -0.2 else 0.0;
    top + selfMedia + personal + creator + wechat + official
  }

  const SecondsPerDay := 86400

  /**
   * `_calc_recency_score`: 5.0 for an item no older than now, falling
   * linearly to 0.0 at 24 hours; the publish time is used when known.
   */
  function RecencyScore(publishedAt: Option<int>, discoveredAt: int, now: int): (r: real)
    ensures 0.0 <= r <= 5.0
    ensures r == 5.0 <==> publishedAt.GetOr(discoveredAt) >= now
    ensures r == 0.0 <==> now - publishedAt.GetOr(discoveredAt) >= SecondsPerDay
  {
    var base := publishedAt.GetOr(discoveredAt);
    var age := if now - base < 0 then 0 else now - base;
    var capped := if age < SecondsPerDay then age else SecondsPerDay;
    5.0 * (1.0 - capped as real / SecondsPerDay as real)
  }

  /** A more recent base time never scores lower. */
  lemma RecencyMonotone(older: int, newer: int, discoveredAt: int, now: int)
    requires older <= newer
    ensures RecencyScore(Some(older), discoveredAt, now) <= RecencyScore(Some(newer), discoveredAt, now)
  {
  }

  /** The score `rank_items` gives an item: recency + authority + heat + tag bonus. */
  function Score(item: ClassifiedItem, now: int): real {
    RecencyScore(item.base.publishedAt, item.base.discoveredAt, now)
    + item.base.sourceWeight * 2.5
    + HeatScore(item.base.title + " " + item.base.content)
    + TagBonus(item.base.tags)
  }

  /** One `RankedItem` of `rank_items`, every classified field copied. */
  function RankOne(item: ClassifiedItem, now: int): (r: RankedItem)
    ensures r.classified == item
  {
    RankedItem(item, Score(item, now), "")
  }

  /**
   * An item tagged `priority_top` outranks one with no bonus tags that was
   * published at the same time with the same text, unless the other's source
   * weight exceeds its own by more than 1.12.
   */
  lemma PriorityTopWins(top: ClassifiedItem, other: ClassifiedItem, now: int)
    requires "priority_top" in LoweredTags(top.base.tags)
    requires forall t :: t in BonusTags ==> t !in LoweredTags(other.base.tags)
    requires top.base.publishedAt.GetOr(top.base.discoveredAt) == other.base.publishedAt.GetOr(other.base.discoveredAt)
    requires top.base.title == other.base.title && top.base.content == other.base.content
    requires other.base.sourceWeight - top.base.sourceWeight < 1.12
    ensures Score(top, now) > Score(other, now)
  {
  }

  // ---------------------------------------------------------------------------
  // rank_items

  predicate ScoreGe(a: RankedItem, b: RankedItem) { a.score >= b.score }

  lemma ScoreGeTotalPreorder()
    ensures TotalPreorder(ScoreGe)
  {
  }

  /** Under `ScoreGe` the items tied with `x` are exactly those with its score. */
  lemma ScoreTies(x: RankedItem, y: RankedItem)
    ensures Ties(ScoreGe, x)(y) <==> y.score == x.score
  {
    assert Ties(ScoreGe, x)(y) == (ScoreGe(x, y) && ScoreGe(y, x));
  }

  /** Every item scored, in input order. */
  function Scored(items: seq<ClassifiedItem>, now: int): (r: seq<RankedItem>)
    ensures |r| == |items|
    ensures forall i :: 0 <= i < |items| ==> r[i] == RankOne(items[i], now)
  {
    seq(|items|, i requires 0 <= i < |items| => RankOne(items[i], now))
  }

  /** Every scored item wraps one of the classified items it was given. */
  lemma ScoredFrom(items: seq<ClassifiedItem>, now: int, x: RankedItem)
    requires x in Scored(items, now)
    ensures x.classified in items
  {
    var j :| 0 <= j < |items| && Scored(items, now)[j] == x;
  }

  /**
   * `rank_items`: score every item, then sort by descending score; the sort
   * is stable, so equal scores keep their input order.
   */
  method RankItems(items: seq<ClassifiedItem>, now: int) returns (ranked: seq<RankedItem>)
    ensures ranked == SortBy(Scored(items, now), ScoreGe)
    ensures Sorted(ranked, ScoreGe)
    ensures multiset(ranked) == multiset(Scored(items, now))
    ensures forall x :: Filter(ranked, Ties(ScoreGe, x)) == Filter(Scored(items, now), Ties(ScoreGe, x))
  {
    ranked := [];
    var i := 0;
    while i < |items|
      invariant 0 <= i <= |items|
      invariant ranked == Scored(items[..i], now)
    {
      ranked := ranked + [RankOne(items[i], now)];
      i := i + 1;
    }
    assert items[..i] == items;
    ranked := SortBy(ranked, ScoreGe);
    ScoreGeTotalPreorder();
    SortBySorted(Scored(items, now), ScoreGe);
    forall x ensures Filter(ranked, Ties(ScoreGe, x)) == Filter(Scored(items, now), Ties(ScoreGe, x)) {
      SortByStable(Scored(items, now), ScoreGe, x);
    }
  }

  /** Of two ranked items, the strictly higher-scored one comes first, whatever the input order. */
  lemma HigherFirst(x: RankedItem, y: RankedItem)
    requires x.score > y.score
    ensures SortBy([y, x], ScoreGe) == [x, y] && SortBy([x, y], ScoreGe) == [x, y]
  {
    assert [y, x][1..] == [x] && [x, y][1..] == [y];
    assert [x][1..] == [] && [y][1..] == [];
  }

  /** `rank_items([b, a])` and `rank_items([a, b])` both put the higher-scored `a` first. */
  lemma HigherRanksFirst(a: ClassifiedItem, b: ClassifiedItem, now: int)
    requires Score(a, now) > Score(b, now)
    ensures SortBy(Scored([b, a], now), ScoreGe) == [RankOne(a, now), RankOne(b, now)]
    ensures SortBy(Scored([a, b], now), ScoreGe) == [RankOne(a, now), RankOne(b, now)]
  {
    var ra, rb := RankOne(a, now), RankOne(b, now);
    assert Scored([b, a], now) == [rb, ra];
    assert Scored([a, b], now) == [ra, rb];
    HigherFirst(ra, rb);
  }

  // ---------------------------------------------------------------------------
  // select_items_with_mix

  function IdOf(x: RankedItem): string { x.ItemId() }

  /** `selected_ids` as a function of `selected`. */
  function Ids(s: seq<RankedItem>): set<string> {
    set i | 0 <= i < |s| :: s[i].ItemId()
  }

  function SourceCount(s: seq<RankedItem>, src: string): nat {
    Count(s, (x: RankedItem) => x.SourceName() == src)
  }

  function PerspectiveCount(s: seq<RankedItem>, p: Perspective): nat {
    Count(s, (x: RankedItem) => x.PerspectiveOf() == p)
  }

  /** `max_items_per_source` limits anything: it is given and positive. */
  predicate CapOn(cap: Option<int>) { cap.Some? && cap.value > 0 }

  /** `dict.get(key, 0)`. */
  function Get(m: map<string, int>, key: string): int {
    if key in m then m[key] else 0
  }

  /** The mutable state `_can_add` reads and `_add_item` updates. */
  datatype Picks = Picks(selected: seq<RankedItem>, selectedIds: set<string>, sourceCounts: map<string, int>)

  const NoPicks := Picks([], {}, map[])

  /** `_can_add(item)` (the source cap is enforced at every call). */
  function CanAdd(st: Picks, item: RankedItem, cap: Option<int>): bool {
    item.ItemId() !in st.selectedIds && (!CapOn(cap) || Get(st.sourceCounts, item.SourceName()) < cap.value)
  }

  /** `_add_item(item)`. */
  function AddItem(st: Picks, item: RankedItem): Picks {
    Picks(st.selected + [item], st.selectedIds + {item.ItemId()},
          st.sourceCounts[item.SourceName() := Get(st.sourceCounts, item.SourceName()) + 1])
  }

  /** The id set and per-source counters agree with `selected`, whose ids are distinct. */
  ghost predicate Tracks(st: Picks) {
    && st.selectedIds == Ids(st.selected)
    && (forall src :: Get(st.sourceCounts, src) == SourceCount(st.selected, src))
    && DistinctBy(st.selected, IdOf)
  }

  /** The selection invariant: consistent bookkeeping, items from the input, no source over the cap. */
  ghost predicate Sound(st: Picks, items: seq<RankedItem>, cap: Option<int>) {
    && Tracks(st)
    && (forall k :: 0 <= k < |st.selected| ==> st.selected[k] in items)
    && (CapOn(cap) ==> forall src :: SourceCount(st.selected, src) <= cap.value)
  }

  /** `item` could not be added to `s`: its id is taken or its source is full. */
  predicate Blocked(item: RankedItem, s: seq<RankedItem>, cap: Option<int>) {
    item.ItemId() in Ids(s) || (CapOn(cap) && SourceCount(s, item.SourceName()) >= cap.value)
  }

  /** Phase 1's promise for `p`: `mix` items of `p`, or none of `p` left that could be added. */
  predicate QuotaMet(s: seq<RankedItem>, p: Perspective, items: seq<RankedItem>, mix: int, cap: Option<int>) {
    PerspectiveCount(s, p) >= mix ||
    forall k :: 0 <= k < |items| && items[k].PerspectiveOf() == p ==> Blocked(items[k], s, cap)
  }

  lemma CountSnoc(s: seq<RankedItem>, x: RankedItem, P: RankedItem -> bool)
    ensures Count(s + [x], P) == Count(s, P) + (if P(x) then 1 else 0)
  {
    CountAppend(s, [x], P);
    assert [x][1..] == [];
  }

  lemma IdsSnoc(s: seq<RankedItem>, x: RankedItem)
    ensures Ids(s + [x]) == Ids(s) + {x.ItemId()}
  {
    var t := s + [x];
    assert t[|s|] == x;
    forall id | id in Ids(s) ensures id in Ids(t) {
      var i :| 0 <= i < |s| && s[i].ItemId() == id;
      assert t[i] == s[i];
    }
  }

  /** With the bookkeeping in order, `_can_add` is exactly "not blocked". */
  lemma CanAddIffNotBlocked(st: Picks, item: RankedItem, cap: Option<int>)
    requires Tracks(st)
    ensures CanAdd(st, item, cap) <==> !Blocked(item, st.selected, cap)
  {
  }

  /** `_add_item` after a successful `_can_add` keeps the selection invariant. */
  lemma AddItemSound(st: Picks, item: RankedItem, items: seq<RankedItem>, cap: Option<int>)
    requires Sound(st, items, cap) && CanAdd(st, item, cap) && item in items
    ensures Sound(AddItem(st, item), items, cap)
    ensures AddItem(st, item).selected[..|st.selected|] == st.selected
  {
    var s := st.selected;
    var t := AddItem(st, item).selected;
    IdsSnoc(s, item);
    forall src ensures SourceCount(t, src) == SourceCount(s, src) + (if item.SourceName() == src then 1 else 0) {
      CountSnoc(s, item, (x: RankedItem) => x.SourceName() == src);
    }
    forall i, j | 0 <= i < j < |t| ensures IdOf(t[i]) != IdOf(t[j]) {
      if j == |s| {
        assert t[i] == s[i] && IdOf(s[i]) in Ids(s);
      } else {
        assert t[i] == s[i] && t[j] == s[j];
      }
    }
    assert t[..|s|] == s;
  }

  /** `_add_item` counts one more item of the added item's perspective. */
  lemma AddItemCounts(st: Picks, item: RankedItem, p: Perspective)
    ensures PerspectiveCount(AddItem(st, item).selected, p)
         == PerspectiveCount(st.selected, p) + (if item.PerspectiveOf() == p then 1 else 0)
  {
    CountSnoc(st.selected, item, (x: RankedItem) => x.PerspectiveOf() == p);
  }

  /** Selecting more never unblocks an item. */
  lemma BlockedGrows(item: RankedItem, s: seq<RankedItem>, t: seq<RankedItem>, cap: Option<int>)
    requires |s| <= |t| && t[..|s|] == s
    requires Blocked(item, s, cap)
    ensures Blocked(item, t, cap)
  {
    if item.ItemId() in Ids(s) {
      var i :| 0 <= i < |s| && s[i].ItemId() == item.ItemId();
      assert t[i] == s[i];
    } else {
      PrefixCount(t, |s|, (x: RankedItem) => x.SourceName() == item.SourceName());
    }
  }

  /** Selecting more never breaks a met quota. */
  lemma QuotaMetGrows(s: seq<RankedItem>, t: seq<RankedItem>, p: Perspective, items: seq<RankedItem>, mix: int,
                      cap: Option<int>)
    requires |s| <= |t| && t[..|s|] == s
    requires QuotaMet(s, p, items, mix, cap)
    ensures QuotaMet(t, p, items, mix, cap)
  {
    PrefixCount(t, |s|, (x: RankedItem) => x.PerspectiveOf() == p);
    if PerspectiveCount(s, p) < mix {
      forall k | 0 <= k < |items| && items[k].PerspectiveOf() == p ensures Blocked(items[k], t, cap) {
        BlockedGrows(items[k], s, t, cap);
      }
    }
  }

  /** `grouped[p]`: the items of perspective `p`, in input order. */
  function OfPerspective(items: seq<RankedItem>, p: Perspective): seq<RankedItem> {
    if items == [] then []
    else
      var last := items[|items| - 1];
      OfPerspective(items[..|items| - 1], p) + (if last.PerspectiveOf() == p then [last] else [])
  }

  /** `grouped[p]` holds exactly the input items of perspective `p`. */
  lemma {:induction false} OfPerspectiveMembers(items: seq<RankedItem>, p: Perspective, x: RankedItem)
    ensures x in OfPerspective(items, p) <==> x in items && x.PerspectiveOf() == p
  {
    if items != [] {
      var init := items[..|items| - 1];
      OfPerspectiveMembers(init, p, x);
      assert items == init + [items[|items| - 1]];
    }
  }

  /** The grouping loop of `select_items_with_mix`. */
  method Group(items: seq<RankedItem>) returns (grouped: map<Perspective, seq<RankedItem>>)
    ensures forall p :: p in grouped && grouped[p] == OfPerspective(items, p)
  {
    grouped := map[Product := [], Technology := [], Industry := []];
    forall p ensures p in grouped && grouped[p] == OfPerspective(items[..0], p) {
      match p
      case Product =>
      case Technology =>
      case Industry =>
    }
    var i := 0;
    while i < |items|
      invariant 0 <= i <= |items|
      invariant forall p :: p in grouped && grouped[p] == OfPerspective(items[..i], p)
    {
      assert items[..i + 1][..i] == items[..i];
      var p := items[i].PerspectiveOf();
      grouped := grouped[p := grouped[p] + [items[i]]];
      i := i + 1;
    }
    assert items[..i] == items;
  }

  /**
   * The inner loop of phase 1 for perspective `p`: walk `grouped[p]` in rank
   * order, adding each item `_can_add` accepts, until `mix` have been added.
   */
  method TakeQuota(st0: Picks, items: seq<RankedItem>, group: seq<RankedItem>, p: Perspective, mix: int,
                   cap: Option<int>)
    returns (st: Picks)
    requires Sound(st0, items, cap)
    requires group == OfPerspective(items, p)
    ensures Sound(st, items, cap)
    ensures |st0.selected| <= |st.selected| && st.selected[..|st0.selected|] == st0.selected
    ensures |st.selected| <= |st0.selected| + (if mix > 0 then mix else 0)
    ensures QuotaMet(st.selected, p, items, mix, cap)
  {
    st := st0;
    var limit := if mix > 0 then mix else 0;
    var added := 0;
    var j := 0;
    while j < |group|
      invariant 0 <= j <= |group|
      invariant Sound(st, items, cap)
      invariant |st0.selected| <= |st.selected| && st.selected[..|st0.selected|] == st0.selected
      invariant 0 <= added <= limit && |st.selected| == |st0.selected| + added
      invariant PerspectiveCount(st.selected, p) >= added
      invariant added < mix ==> forall j' :: 0 <= j' < j ==> Blocked(group[j'], st.selected, cap)
    {
      if added >= mix {
        break;
      }
      CanAddIffNotBlocked(st, group[j], cap);
      if !CanAdd(st, group[j], cap) {
        j := j + 1;
        continue;
      }
      ghost var before := st;
      OfPerspectiveMembers(items, p, group[j]);
      AddItemSound(st, group[j], items, cap);
      AddItemCounts(st, group[j], p);
      st := AddItem(st, group[j]);
      forall j' | 0 <= j' < j ensures Blocked(group[j'], st.selected, cap) {
        if added < mix - 1 {
          BlockedGrows(group[j'], before.selected, st.selected, cap);
        }
      }
      assert st.selected[..|st0.selected|] == before.selected[..|st0.selected|];
      added := added + 1;
      j := j + 1;
    }
    if added < mix {
      GroupBlocked(items, p, st.selected, cap);
    }
  }

  /** When every item of `grouped[p]` is blocked, so is every input item of perspective `p`. */
  lemma GroupBlocked(items: seq<RankedItem>, p: Perspective, s: seq<RankedItem>, cap: Option<int>)
    requires forall j :: 0 <= j < |OfPerspective(items, p)| ==> Blocked(OfPerspective(items, p)[j], s, cap)
    ensures forall k :: 0 <= k < |items| && items[k].PerspectiveOf() == p ==> Blocked(items[k], s, cap)
  {
    var group := OfPerspective(items, p);
    forall k | 0 <= k < |items| && items[k].PerspectiveOf() == p ensures Blocked(items[k], s, cap) {
      OfPerspectiveMembers(items, p, items[k]);
      var j :| 0 <= j < |group| && group[j] == items[k];
    }
  }

  /** Phase 1: up to `mix` items of each perspective, taken in rank order. */
  method Quota(items: seq<RankedItem>, grouped: map<Perspective, seq<RankedItem>>, mix: int, cap: Option<int>)
    returns (st: Picks)
    requires forall p :: p in grouped && grouped[p] == OfPerspective(items, p)
    ensures Sound(st, items, cap)
    ensures |st.selected| <= 3 * (if mix > 0 then mix else 0)
    ensures forall p :: QuotaMet(st.selected, p, items, mix, cap)
  {
    st := NoPicks;
    var limit := if mix > 0 then mix else 0;
    var pi := 0;
    while pi < |AllPerspectives|
      invariant 0 <= pi <= |AllPerspectives|
      invariant Sound(st, items, cap)
      invariant |st.selected| <= pi * limit
      invariant forall q :: PerspectiveIndex(q) < pi ==> QuotaMet(st.selected, q, items, mix, cap)
    {
      var p := AllPerspectives[pi];
      assert PerspectiveIndex(p) == pi;
      ghost var start := st;
      st := TakeQuota(st, items, grouped[p], p, mix, cap);
      assert (pi + 1) * limit == pi * limit + limit;
      forall q | PerspectiveIndex(q) < pi ensures QuotaMet(st.selected, q, items, mix, cap) {
        QuotaMetGrows(start.selected, st.selected, q, items, mix, cap);
      }
      pi := pi + 1;
    }
  }

  /**
   * Phases 2 and 3: walk the ranked items, adding each that `_can_add`
   * accepts, until `bound` items are selected.
   */
  method Fill(st0: Picks, items: seq<RankedItem>, bound: int, cap: Option<int>) returns (st: Picks)
    requires Sound(st0, items, cap)
    ensures Sound(st, items, cap)
    ensures |st0.selected| <= |st.selected| && st.selected[..|st0.selected|] == st0.selected
    ensures |st.selected| <= |st0.selected| || |st.selected| <= bound
    ensures |st.selected| >= bound || forall k :: 0 <= k < |items| ==> Blocked(items[k], st.selected, cap)
    ensures (forall k :: 0 <= k < |items| ==> Blocked(items[k], st0.selected, cap)) ==> st == st0
  {
    st := st0;
    var i := 0;
    while i < |items|
      invariant 0 <= i <= |items|
      invariant Sound(st, items, cap)
      invariant |st0.selected| <= |st.selected| && st.selected[..|st0.selected|] == st0.selected
      invariant |st.selected| <= |st0.selected| || |st.selected| <= bound
      invariant |st.selected| >= bound || forall k :: 0 <= k < i ==> Blocked(items[k], st.selected, cap)
      invariant (forall k :: 0 <= k < |items| ==> Blocked(items[k], st0.selected, cap)) ==> st == st0
    {
      if |st.selected| >= bound {
        break;
      }
      CanAddIffNotBlocked(st, items[i], cap);
      if !CanAdd(st, items[i], cap) {
        i := i + 1;
        continue;
      }
      ghost var before := st;
      AddItemSound(st, items[i], items, cap);
      st := AddItem(st, items[i]);
      IdsSnoc(before.selected, items[i]);
      forall k | 0 <= k < i ensures Blocked(items[k], st.selected, cap) {
        if |before.selected| < bound {
          BlockedGrows(items[k], before.selected, st.selected, cap);
        }
      }
      assert st.selected[..|st0.selected|] == before.selected[..|st0.selected|];
      i := i + 1;
    }
  }

  /** Sorting keeps what `Blocked` and `QuotaMet` read. */
  lemma SortKeepsSelection(s: seq<RankedItem>, items: seq<RankedItem>, mix: int, cap: Option<int>)
    ensures Ids(SortBy(s, ScoreGe)) == Ids(s)
    ensures forall src :: SourceCount(SortBy(s, ScoreGe), src) == SourceCount(s, src)
    ensures forall p :: PerspectiveCount(SortBy(s, ScoreGe), p) == PerspectiveCount(s, p)
    ensures forall item :: Blocked(item, SortBy(s, ScoreGe), cap) == Blocked(item, s, cap)
    ensures forall p :: QuotaMet(SortBy(s, ScoreGe), p, items, mix, cap) == QuotaMet(s, p, items, mix, cap)
  {
    SortKeepsIds(s);
    var t := SortBy(s, ScoreGe);
    forall src ensures SourceCount(t, src) == SourceCount(s, src) {
      SortByCount(s, ScoreGe, (x: RankedItem) => x.SourceName() == src);
    }
    forall p ensures PerspectiveCount(t, p) == PerspectiveCount(s, p) {
      SortByCount(s, ScoreGe, (x: RankedItem) => x.PerspectiveOf() == p);
    }
  }

  /** Sorting keeps the set of selected ids. */
  lemma SortKeepsIds(s: seq<RankedItem>)
    ensures Ids(SortBy(s, ScoreGe)) == Ids(s)
  {
    var t := SortBy(s, ScoreGe);
    IdsWithin(t, s);
    IdsWithin(s, t);
  }

  /** Every id of `a` is an id of `b` when `b` holds every element of `a`. */
  lemma IdsWithin(a: seq<RankedItem>, b: seq<RankedItem>)
    requires multiset(a) == multiset(b)
    ensures Ids(a) <= Ids(b)
  {
    forall id | id in Ids(a) ensures id in Ids(b) {
      var i :| 0 <= i < |a| && a[i].ItemId() == id;
      assert a[i] in multiset(b);
      var j :| 0 <= j < |b| && b[j] == a[i];
    }
  }

  /** `item_max`, raised to `item_min` when smaller. */
  function Limit(itemMin: int, itemMax: int): int {
    if itemMax < itemMin then itemMin else itemMax
  }

  /**
   * After the fill up to `item_max` (raised to `item_min`), a selection
   * still below `item_min` has every ranked item blocked, so the top-up,
   * which applies the same capped test, adds nothing.
   */
  lemma TopUpIdle(st: Picks, ranked: seq<RankedItem>, itemMin: int, itemMax: int, cap: Option<int>)
    requires |st.selected| >= Limit(itemMin, itemMax) || forall k :: 0 <= k < |ranked| ==> Blocked(ranked[k], st.selected, cap)
    ensures |st.selected| < itemMin ==> forall k :: 0 <= k < |ranked| ==> Blocked(ranked[k], st.selected, cap)
  {
    if |st.selected| < itemMin {
      assert |st.selected| < Limit(itemMin, itemMax);
    }
  }

  /** The final `sort` and `[:item_max]` keep every property of the selection the phases built. */
  lemma Finish(s: seq<RankedItem>, ranked: seq<RankedItem>, limit: int, mix: int, cap: Option<int>)
    requires DistinctBy(s, IdOf) && (forall k :: 0 <= k < |s| ==> s[k] in ranked)
    requires CapOn(cap) ==> forall src :: SourceCount(s, src) <= cap.value
    requires limit >= 0 ==> |s| >= limit || forall k :: 0 <= k < |ranked| ==> Blocked(ranked[k], s, cap)
    requires 0 <= 3 * mix <= limit ==> |s| <= limit && forall p :: QuotaMet(s, p, ranked, mix, cap)
    ensures var result := Take(SortBy(s, ScoreGe), limit);
      && (limit >= 0 ==> |result| <= limit)
      && DistinctBy(result, IdOf)
      && (forall k :: 0 <= k < |result| ==> result[k] in ranked)
      && Sorted(result, ScoreGe)
      && (CapOn(cap) ==> forall src :: SourceCount(result, src) <= cap.value)
      && (limit >= 0 ==> |result| == limit || forall k :: 0 <= k < |ranked| ==> Blocked(ranked[k], result, cap))
      && (0 <= 3 * mix <= limit ==> forall p :: QuotaMet(result, p, ranked, mix, cap))
  {
    FinishOrder(s, ranked, limit);
    FinishCounts(s, ranked, limit, mix, cap);
  }

  /** The cut keeps the sorted order, distinct ids and membership of `ranked`. */
  lemma FinishOrder(s: seq<RankedItem>, ranked: seq<RankedItem>, limit: int)
    requires DistinctBy(s, IdOf) && (forall k :: 0 <= k < |s| ==> s[k] in ranked)
    ensures var result := Take(SortBy(s, ScoreGe), limit);
      && DistinctBy(result, IdOf)
      && (forall k :: 0 <= k < |result| ==> result[k] in ranked)
      && Sorted(result, ScoreGe)
  {
    var sorted := SortBy(s, ScoreGe);
    var result := Take(sorted, limit);
    ScoreGeTotalPreorder();
    SortBySorted(s, ScoreGe);
    SortByDistinct(s, ScoreGe, IdOf);
    forall k | 0 <= k < |result| ensures result[k] in ranked {
      assert result[k] in multiset(s);
      var j :| 0 <= j < |s| && s[j] == result[k];
    }
  }

  /** The cut keeps the per-source cap, and loses nothing when the selection already fits. */
  lemma FinishCounts(s: seq<RankedItem>, ranked: seq<RankedItem>, limit: int, mix: int, cap: Option<int>)
    requires CapOn(cap) ==> forall src :: SourceCount(s, src) <= cap.value
    requires limit >= 0 ==> |s| >= limit || forall k :: 0 <= k < |ranked| ==> Blocked(ranked[k], s, cap)
    requires 0 <= 3 * mix <= limit ==> |s| <= limit && forall p :: QuotaMet(s, p, ranked, mix, cap)
    ensures var result := Take(SortBy(s, ScoreGe), limit);
      && (CapOn(cap) ==> forall src :: SourceCount(result, src) <= cap.value)
      && (limit >= 0 ==> |result| == limit || forall k :: 0 <= k < |ranked| ==> Blocked(ranked[k], result, cap))
      && (0 <= 3 * mix <= limit ==> forall p :: QuotaMet(result, p, ranked, mix, cap))
  {
    var sorted := SortBy(s, ScoreGe);
    var result := Take(sorted, limit);
    SortKeepsSelection(s, ranked, mix, cap);
    forall src ensures SourceCount(result, src) <= SourceCount(sorted, src) {
      PrefixCount(sorted, |result|, (x: RankedItem) => x.SourceName() == src);
    }
    if limit >= 0 && |result| < limit {
      assert result == sorted;
    }
    if 0 <= 3 * mix <= limit {
      assert result == sorted;
    }
  }

  /**
   * `select_items_with_mix`: per-perspective quotas, then fill in rank order,
   * then top up to `item_min`; every phase honours the per-source cap; the
   * result is sorted by descending score and cut to the limit.
   */
  method SelectItemsWithMix(ranked: seq<RankedItem>, itemMin: int, itemMax: int, mix: int, cap: Option<int>)
    returns (result: seq<RankedItem>)
    ensures Limit(itemMin, itemMax) >= 0 ==> |result| <= Limit(itemMin, itemMax)
    ensures DistinctBy(result, IdOf)
    ensures forall k :: 0 <= k < |result| ==> result[k] in ranked
    ensures Sorted(result, ScoreGe)
    ensures CapOn(cap) ==> forall src :: SourceCount(result, src) <= cap.value
    ensures Limit(itemMin, itemMax) >= 0 ==>
      |result| == Limit(itemMin, itemMax) || forall k :: 0 <= k < |ranked| ==> Blocked(ranked[k], result, cap)
    ensures 0 <= 3 * mix <= Limit(itemMin, itemMax) ==> forall p :: QuotaMet(result, p, ranked, mix, cap)
  {
    var limit := Limit(itemMin, itemMax);
    var grouped := Group(ranked);
    var st := Quota(ranked, grouped, mix, cap);
    ghost var afterQuota := st;
    st := Fill(st, ranked, limit, cap);
    ghost var afterFill := st;
    if |st.selected| < itemMin {
      TopUpIdle(st, ranked, itemMin, itemMax, cap);
      st := Fill(st, ranked, itemMin, cap);
    }
    assert st == afterFill;
    forall p ensures QuotaMet(st.selected, p, ranked, mix, cap) {
      QuotaMetGrows(afterQuota.selected, st.selected, p, ranked, mix, cap);
    }
    Finish(st.selected, ranked, limit, mix, cap);
    result := Take(SortBy(st.selected, ScoreGe), limit);
  }
}
