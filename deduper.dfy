/**
 * Duplicate removal: candidates are visited from the highest
 * (source weight, discovery time) down, and each is kept unless an item kept
 * before it has the same canonical URL, the same content fingerprint, or a
 * title similar enough.  MD5 and `SequenceMatcher.ratio` are parameters.
 */
module Deduper {
  import opened Text
  import opened Order
  import opened Models
  import Normalizer

  /** `SequenceMatcher(...).ratio()` values. */
  type Ratio = r: real | 0.0 <= r <= 1.0

  const FingerprintPrefix: nat := 800

  /** `_content_fingerprint`: digest of the stripped, lower-cased first 800 characters. */
  function ContentFingerprint(md5: string -> string, content: string): string {
    md5(Lower(Strip(if |content| > FingerprintPrefix then content[..FingerprintPrefix] else content)))
  }

  /** `\w` as the model reads it: ASCII letters and digits, `_`, and CJK ideographs. */
  predicate IsWordChar(c: char) {
    IsAsciiLetter(c) || IsDigit(c) || c == '_' || Normalizer.IsCjk(c)
  }

  /** The characters of `s` that satisfy `keep`, in order. */
  function Filter(s: string, keep: char -> bool): (r: string)
    ensures |r| <= |s|
    ensures forall i :: 0 <= i < |r| ==> keep(r[i])
  {
    if s == [] then [] else (if keep(s[0]) then [s[0]] else []) + Filter(s[1..], keep)
  }

  /** A string whose every character is kept filters to itself. */
  lemma {:induction false} FilterAllKept(s: string, keep: char -> bool)
    requires forall i :: 0 <= i < |s| ==> keep(s[i])
    ensures Filter(s, keep) == s
  {
    if s != [] {
      FilterAllKept(s[1..], keep);
    }
  }

  lemma {:induction false} FilterAppend(s: string, t: string, keep: char -> bool)
    ensures Filter(s + t, keep) == Filter(s, keep) + Filter(t, keep)
  {
    if s == [] {
      assert s + t == t;
    } else {
      assert (s + t)[0] == s[0] && (s + t)[1..] == s[1..] + t;
      FilterAppend(s[1..], t, keep);
    }
  }

  function NotSpace(c: char): bool { !IsSpace(c) }

  function WordOrCjk(c: char): bool { IsWordChar(c) || Normalizer.IsCjk(c) }

  /**
   * `_normalize_title`: lower-case, spell 人工智能 as ai and 大模型 as 模型,
   * then drop whitespace and every character that is neither `\w` nor CJK.
   */
  function NormalizeTitle(title: string): (r: string)
    ensures forall i :: 0 <= i < |r| ==> IsWordChar(r[i]) && !IsSpace(r[i])
  {
    var lowered := Lower(title);
    var lowered := Replace(lowered, "人工智能", "ai");
    var lowered := Replace(lowered, "大模型", "模型");
    var lowered := Filter(lowered, NotSpace);
    Filter(lowered, WordOrCjk)
  }

  /** Letter case never separates two titles: a title and its lower-cased form normalise alike. */
  lemma TitleCaseBlind(t: string)
    ensures NormalizeTitle(Lower(t)) == NormalizeTitle(t)
  {
    LowerIdempotent(t);
  }

  /** `_title_similarity`. */
  function TitleSimilarity(ratio: (string, string) -> Ratio, a: string, b: string): Ratio {
    ratio(NormalizeTitle(a), NormalizeTitle(b))
  }

  /** The visiting order: descending `(source_weight, discovered_at)`, stable. */
  predicate KeyGe(x: NormalizedItem, y: NormalizedItem) {
    x.sourceWeight > y.sourceWeight || (x.sourceWeight == y.sourceWeight && x.discoveredAt >= y.discoveredAt)
  }

  lemma KeyGeTotalPreorder()
    ensures TotalPreorder(KeyGe)
  {
  }

  /** `sorted(items, key=lambda x: (x.source_weight, x.discovered_at), reverse=True)`. */
  function SortForDedupe(items: seq<NormalizedItem>): (r: seq<NormalizedItem>)
    ensures Sorted(r, KeyGe) && multiset(r) == multiset(items)
  {
    KeyGeTotalPreorder();
    SortBySorted(items, KeyGe);
    SortBy(items, KeyGe)
  }

  /** The parameters every decision of the walk depends on. */
  datatype Oracle = Oracle(md5: string -> string, ratio: (string, string) -> Ratio, threshold: real)

  predicate SameUrl(x: NormalizedItem, y: NormalizedItem) { x.canonicalUrl == y.canonicalUrl }

  predicate SameFingerprint(o: Oracle, x: NormalizedItem, y: NormalizedItem) {
    x.content != [] && y.content != [] && ContentFingerprint(o.md5, x.content) == ContentFingerprint(o.md5, y.content)
  }

  predicate SimilarTitle(o: Oracle, later: NormalizedItem, earlier: NormalizedItem) {
    TitleSimilarity(o.ratio, later.title, earlier.title) >= o.threshold
  }

  /** `item` duplicates the already kept `earlier`. */
  predicate Duplicates(o: Oracle, item: NormalizedItem, earlier: NormalizedItem) {
    SameUrl(item, earlier) || SameFingerprint(o, item, earlier) || SimilarTitle(o, item, earlier)
  }

  /** The duplicate relation the walk uses, as a value. */
  function DupOf(o: Oracle): (NormalizedItem, NormalizedItem) -> bool {
    (x, y) => Duplicates(o, x, y)
  }

  /** The walk's test: `item` duplicates some kept item. */
  predicate Collides<T>(dup: (T, T) -> bool, kept: seq<T>, item: T) {
    exists k :: 0 <= k < |kept| && dup(item, kept[k])
  }

  /** The first-wins walk over `s[i..]`, extending `kept`. */
  function WalkFrom<T>(dup: (T, T) -> bool, s: seq<T>, i: nat, kept: seq<T>): seq<T>
    requires i <= |s|
    decreases |s| - i
  {
    if i == |s| then kept
    else WalkFrom(dup, s, i + 1, if Collides(dup, kept, s[i]) then kept else kept + [s[i]])
  }

  /** What `dedupe_items` returns. */
  function Dedupe(o: Oracle, items: seq<NormalizedItem>): seq<NormalizedItem> {
    WalkFrom(DupOf(o), SortForDedupe(items), 0, [])
  }

  /** No kept item duplicates an item kept before it. */
  ghost predicate DuplicateFree<T>(dup: (T, T) -> bool, kept: seq<T>) {
    forall i, j :: 0 <= i < j < |kept| ==> !dup(kept[j], kept[i])
  }

  /** `idx` lists, in increasing order, the positions of `b` that `a` was taken from. */
  ghost predicate Embeds<T>(a: seq<T>, b: seq<T>, idx: seq<int>) {
    |idx| == |a|
    && (forall k :: 0 <= k < |idx| ==> 0 <= idx[k] < |b| && a[k] == b[idx[k]])
    && (forall k, l :: 0 <= k < l < |idx| ==> idx[k] < idx[l])
  }

  ghost predicate IsSubsequence<T>(a: seq<T>, b: seq<T>) {
    exists idx :: Embeds(a, b, idx)
  }

  /** The walk only appends to what was kept. */
  lemma {:induction false} WalkFromPrefix<T>(dup: (T, T) -> bool, s: seq<T>, i: nat, kept: seq<T>)
    requires i <= |s|
    ensures var r := WalkFrom(dup, s, i, kept); |kept| <= |r| && r[..|kept|] == kept
    decreases |s| - i
  {
    if i < |s| {
      var kept' := if Collides(dup, kept, s[i]) then kept else kept + [s[i]];
      WalkFromPrefix(dup, s, i + 1, kept');
      var r := WalkFrom(dup, s, i, kept);
      assert r[..|kept|] == r[..|kept'|][..|kept|];
    }
  }

  /** The walk keeps nothing that duplicates an earlier keep. */
  lemma {:induction false} WalkFromDuplicateFree<T>(dup: (T, T) -> bool, s: seq<T>, i: nat, kept: seq<T>)
    requires i <= |s| && DuplicateFree(dup, kept)
    ensures DuplicateFree(dup, WalkFrom(dup, s, i, kept))
    decreases |s| - i
  {
    if i < |s| {
      if Collides(dup, kept, s[i]) {
        WalkFromDuplicateFree(dup, s, i + 1, kept);
      } else {
        var kept' := kept + [s[i]];
        forall a, b | 0 <= a < b < |kept'| ensures !dup(kept'[b], kept'[a]) {
          if b == |kept| {
            assert kept'[b] == s[i] && kept'[a] == kept[a];
          } else {
            assert kept'[b] == kept[b] && kept'[a] == kept[a];
          }
        }
        WalkFromDuplicateFree(dup, s, i + 1, kept');
      }
    }
  }

  /** The walk's result is a subsequence of its input. */
  lemma {:induction false} WalkFromSubsequence<T>(dup: (T, T) -> bool, s: seq<T>, i: nat, kept: seq<T>, idx: seq<int>)
    requires i <= |s|
    requires Embeds(kept, s, idx) && forall k :: 0 <= k < |idx| ==> idx[k] < i
    ensures IsSubsequence(WalkFrom(dup, s, i, kept), s)
    decreases |s| - i
  {
    if i == |s| {
      assert Embeds(kept, s, idx);
    } else if Collides(dup, kept, s[i]) {
      WalkFromSubsequence(dup, s, i + 1, kept, idx);
    } else {
      EmbedsAppend(kept, s, idx, i);
      WalkFromSubsequence(dup, s, i + 1, kept + [s[i]], idx + [i]);
    }
  }

  lemma EmbedsAppend<T>(a: seq<T>, b: seq<T>, idx: seq<int>, i: nat)
    requires Embeds(a, b, idx) && i < |b| && forall k :: 0 <= k < |idx| ==> idx[k] < i
    ensures Embeds(a + [b[i]], b, idx + [i])
    ensures forall k :: 0 <= k < |idx + [i]| ==> (idx + [i])[k] < i + 1
  {
  }

  lemma CollidesExtends<T>(dup: (T, T) -> bool, kept: seq<T>, r: seq<T>, x: T)
    requires Collides(dup, kept, x) && |kept| <= |r| && r[..|kept|] == kept
    ensures Collides(dup, r, x)
  {
    var k :| 0 <= k < |kept| && dup(x, kept[k]);
    assert r[k] == kept[k];
  }

  /** Every item the walk visits is kept or duplicates a kept item. */
  lemma {:induction false} WalkFromMaximal<T>(dup: (T, T) -> bool, s: seq<T>, i: nat, kept: seq<T>)
    requires i <= |s|
    ensures var r := WalkFrom(dup, s, i, kept);
      forall k :: i <= k < |s| ==> s[k] in r || Collides(dup, r, s[k])
    decreases |s| - i
  {
    if i < |s| {
      var r := WalkFrom(dup, s, i, kept);
      var kept' := if Collides(dup, kept, s[i]) then kept else kept + [s[i]];
      WalkFromMaximal(dup, s, i + 1, kept');
      WalkFromPrefix(dup, s, i + 1, kept');
      if Collides(dup, kept, s[i]) {
        CollidesExtends(dup, kept, r, s[i]);
      } else {
        assert r[|kept|] == s[i];
      }
    }
  }

  /**
   * `dedupe_items` keeps a subsequence of the visiting order in which no
   * item duplicates an earlier one (distinct URLs, distinct fingerprints of
   * non-empty contents, titles less similar than the threshold), and every
   * candidate is either kept or duplicates a kept item.
   */
  lemma DedupeProperties(o: Oracle, items: seq<NormalizedItem>)
    ensures var r := Dedupe(o, items);
      IsSubsequence(r, SortForDedupe(items))
      && (forall x :: x in items ==> x in r || exists k :: 0 <= k < |r| && Duplicates(o, x, r[k]))
    ensures var r := Dedupe(o, items);
      forall i, j :: 0 <= i < j < |r| ==>
        r[i].canonicalUrl != r[j].canonicalUrl
        && (r[i].content != [] && r[j].content != [] ==>
              ContentFingerprint(o.md5, r[i].content) != ContentFingerprint(o.md5, r[j].content))
        && TitleSimilarity(o.ratio, r[j].title, r[i].title) < o.threshold
  {
    var sorted := SortForDedupe(items);
    var r := Dedupe(o, items);
    WalkFromDuplicateFree(DupOf(o), sorted, 0, []);
    WalkFromSubsequence(DupOf(o), sorted, 0, [], []);
    WalkFromMaximal(DupOf(o), sorted, 0, []);
    forall x | x in items ensures x in r || exists k :: 0 <= k < |r| && Duplicates(o, x, r[k]) {
      assert x in multiset(sorted);
      var k :| 0 <= k < |sorted| && sorted[k] == x;
    }
    forall i, j | 0 <= i < j < |r| ensures !Duplicates(o, r[j], r[i]) {
      assert !DupOf(o)(r[j], r[i]);
    }
  }

  function Urls(s: seq<NormalizedItem>): set<string> {
    set k | 0 <= k < |s| :: s[k].canonicalUrl
  }

  function Fingerprints(md5: string -> string, s: seq<NormalizedItem>): set<string> {
    set k | 0 <= k < |s| && s[k].content != [] :: ContentFingerprint(md5, s[k].content)
  }

  lemma RunningSetsAppend(md5: string -> string, s: seq<NormalizedItem>, x: NormalizedItem)
    ensures Urls(s + [x]) == Urls(s) + {x.canonicalUrl}
    ensures Fingerprints(md5, s + [x]) ==
      Fingerprints(md5, s) + (if x.content != [] then {ContentFingerprint(md5, x.content)} else {})
  {
    UrlsAppend(s, x);
    FingerprintsAppend(md5, s, x);
  }

  lemma UrlsAppend(s: seq<NormalizedItem>, x: NormalizedItem)
    ensures Urls(s + [x]) == Urls(s) + {x.canonicalUrl}
  {
    var t := s + [x];
    assert forall k :: 0 <= k < |s| ==> t[k] == s[k];
    assert t[|s|] == x;
  }

  lemma FingerprintsAppend(md5: string -> string, s: seq<NormalizedItem>, x: NormalizedItem)
    ensures Fingerprints(md5, s + [x]) ==
      Fingerprints(md5, s) + (if x.content != [] then {ContentFingerprint(md5, x.content)} else {})
  {
    var t := s + [x];
    assert forall k :: 0 <= k < |s| ==> t[k] == s[k];
    assert t[|s|] == x;
  }

  /** The inner loop of `dedupe_items`: does `item`'s title come too close to a kept title? */
  method SimilarToKept(o: Oracle, selected: seq<NormalizedItem>, item: NormalizedItem)
    returns (duplicateByTitle: bool)
    ensures duplicateByTitle <==> exists k :: 0 <= k < |selected| && SimilarTitle(o, item, selected[k])
  {
    duplicateByTitle := false;
    var j := 0;
    while j < |selected|
      invariant 0 <= j <= |selected|
      invariant forall k :: 0 <= k < j ==> !SimilarTitle(o, item, selected[k])
    {
      if SimilarTitle(o, item, selected[j]) {
        duplicateByTitle := true;
        return;
      }
      j := j + 1;
    }
  }

  lemma WalkStep<T>(dup: (T, T) -> bool, s: seq<T>, i: nat, kept: seq<T>)
    requires i < |s|
    ensures Collides(dup, kept, s[i]) ==> WalkFrom(dup, s, i, kept) == WalkFrom(dup, s, i + 1, kept)
    ensures !Collides(dup, kept, s[i]) ==> WalkFrom(dup, s, i, kept) == WalkFrom(dup, s, i + 1, kept + [s[i]])
  {
  }

  lemma CollidesWitness(o: Oracle, kept: seq<NormalizedItem>, item: NormalizedItem, k: int)
    requires 0 <= k < |kept| && Duplicates(o, item, kept[k])
    ensures Collides(DupOf(o), kept, item)
  {
    assert DupOf(o)(item, kept[k]);
  }

  lemma NotCollides(o: Oracle, kept: seq<NormalizedItem>, item: NormalizedItem)
    requires item.canonicalUrl !in Urls(kept)
    requires item.content != [] ==> ContentFingerprint(o.md5, item.content) !in Fingerprints(o.md5, kept)
    requires forall k :: 0 <= k < |kept| ==> !SimilarTitle(o, item, kept[k])
    ensures !Collides(DupOf(o), kept, item)
  {
    forall k | 0 <= k < |kept| ensures !DupOf(o)(item, kept[k]) {
      assert kept[k].canonicalUrl in Urls(kept);
      assert !SameUrl(item, kept[k]);
      if kept[k].content != [] {
        assert ContentFingerprint(o.md5, kept[k].content) in Fingerprints(o.md5, kept);
      }
      assert !SameFingerprint(o, item, kept[k]);
    }
  }

  /** The three tests `dedupe_items` makes, against its running sets, decide `Collides`. */
  lemma CollidesByRunningSets(o: Oracle, kept: seq<NormalizedItem>, item: NormalizedItem, similar: bool)
    requires similar <==> exists k :: 0 <= k < |kept| && SimilarTitle(o, item, kept[k])
    ensures Collides(DupOf(o), kept, item) <==>
      item.canonicalUrl in Urls(kept)
      || (item.content != [] && ContentFingerprint(o.md5, item.content) in Fingerprints(o.md5, kept))
      || similar
  {
    if item.canonicalUrl in Urls(kept) {
      var k :| 0 <= k < |kept| && kept[k].canonicalUrl == item.canonicalUrl;
      CollidesWitness(o, kept, item, k);
    } else if item.content != [] && ContentFingerprint(o.md5, item.content) in Fingerprints(o.md5, kept) {
      var k :| 0 <= k < |kept| && kept[k].content != []
        && ContentFingerprint(o.md5, kept[k].content) == ContentFingerprint(o.md5, item.content);
      CollidesWitness(o, kept, item, k);
    } else if similar {
      var k :| 0 <= k < |kept| && SimilarTitle(o, item, kept[k]);
      CollidesWitness(o, kept, item, k);
    } else {
      NotCollides(o, kept, item);
    }
  }

  /** `dedupe_items`: the walk with `seen_urls` and `seen_fingerprints` as running sets. */
  method DedupeItems(items: seq<NormalizedItem>, threshold: real,
                     md5: string -> string, ratio: (string, string) -> Ratio)
    returns (selected: seq<NormalizedItem>)
    ensures selected == Dedupe(Oracle(md5, ratio, threshold), items)
  {
    var o := Oracle(md5, ratio, threshold);
    var sortedItems := SortForDedupe(items);
    selected := [];
    var seenUrls: set<string> := {};
    var seenFingerprints: set<string> := {};
    var i := 0;
    while i < |sortedItems|
      invariant 0 <= i <= |sortedItems|
      invariant WalkFrom(DupOf(o), sortedItems, i, selected) == Dedupe(o, items)
      invariant seenUrls == Urls(selected)
      invariant seenFingerprints == Fingerprints(md5, selected)
    {
      var item := sortedItems[i];
      var fp := ContentFingerprint(md5, item.content);
      var duplicateByTitle := SimilarToKept(o, selected, item);
      CollidesByRunningSets(o, selected, item, duplicateByTitle);
      WalkStep(DupOf(o), sortedItems, i, selected);
      if item.canonicalUrl in seenUrls {
      } else if item.content != [] && fp in seenFingerprints {
      } else if duplicateByTitle {
      } else {
        RunningSetsAppend(md5, selected, item);
        selected := selected + [item];
        seenUrls := seenUrls + {item.canonicalUrl};
        if item.content != [] {
          seenFingerprints := seenFingerprints + {fp};
        }
      }
      i := i + 1;
    }
  }

  /** The five stages of `NormalizeTitle`, given one at a time. */
  lemma TitleStages(t: string, a: string, b: string, c: string, d: string, e: string)
    requires Lower(t) == a && Replace(a, "人工智能", "ai") == b && Replace(b, "大模型", "模型") == c
    requires Filter(c, NotSpace) == d && Filter(d, WordOrCjk) == e
    ensures NormalizeTitle(t) == e
  {
  }

  lemma LowerExample1() ensures Lower("AI 模型发布") == "ai 模型发布" { }
  lemma LowerExample3() ensures Lower("AI 模型发布 重复") == "ai 模型发布 重复" { }
  lemma LowerExample2() ensures Lower("人工智能模型发布") == "人工智能模型发布" { }
  lemma ReplaceExample2() ensures Replace("人工智能模型发布", "人工智能", "ai") == "ai模型发布" {
    assert StartsWith("人工智能模型发布", "人工智能");
    assert "人工智能模型发布"[4..] == "模型发布";
    ReplaceAbsent("模型发布", "人工智能", "ai");
  }
  /** Filtering the spaces out of two space-free words around one space joins them. */
  lemma FilterSpaceBetween(x: string, z: string)
    requires forall i :: 0 <= i < |x| ==> NotSpace(x[i])
    requires forall i :: 0 <= i < |z| ==> NotSpace(z[i])
    ensures Filter(x + " " + z, NotSpace) == x + z
  {
    FilterAllKept(x, NotSpace);
    FilterAllKept(z, NotSpace);
    assert Filter(" ", NotSpace) == [] by {
      assert " "[1..] == [];
    }
    FilterAppend(x, " ", NotSpace);
    assert Filter(x + " ", NotSpace) == x by {
      assert x + [] == x;
    }
    FilterAppend(x + " ", z, NotSpace);
  }

  lemma SpacesExample1() ensures Filter("ai 模型发布", NotSpace) == "ai模型发布" {
    var x, z := "ai", "模型发布";
    FilterSpaceBetween(x, z);
    assert x + " " + z == "ai 模型发布";
    assert x + z == "ai模型发布";
  }
  lemma SpaceExample() ensures Filter(" 重复", NotSpace) == "重复" {
    FilterAllKept("重复", NotSpace);
    assert " 重复"[1..] == "重复";
  }
  lemma SpacesExampleParts(x: string, y: string)
    requires x == "ai 模型发布" && y == " 重复"
    ensures Filter(x + y, NotSpace) == "ai模型发布重复"
  {
    FilterAppend(x, y, NotSpace);
    SpacesExample1();
    SpaceExample();
  }
  lemma SpacesExample3() ensures Filter("ai 模型发布 重复", NotSpace) == "ai模型发布重复" {
    SpacesExampleParts("ai 模型发布", " 重复");
    assert "ai 模型发布" + " 重复" == "ai 模型发布 重复";
  }
  lemma WordsExample1() ensures Filter("ai模型发布", WordOrCjk) == "ai模型发布" {
    FilterAllKept("ai模型发布", WordOrCjk);
  }
  lemma WordsExample3() ensures Filter("ai模型发布重复", WordOrCjk) == "ai模型发布重复" {
    FilterAllKept("ai模型发布重复", WordOrCjk);
  }
  lemma KeepExample1() ensures Filter("ai模型发布", NotSpace) == "ai模型发布" {
    FilterAllKept("ai模型发布", NotSpace);
  }

  /** Neither replacement applies to a title that spells out neither phrase. */
  lemma NothingToReplace(s: string)
    requires '人' !in s && '大' !in s
    ensures Replace(s, "人工智能", "ai") == s && Replace(s, "大模型", "模型") == s
  {
    ReplaceAbsent(s, "人工智能", "ai");
    ReplaceAbsent(s, "大模型", "模型");
  }

  lemma ReplaceExample1()
    ensures Replace("ai 模型发布", "人工智能", "ai") == "ai 模型发布" && Replace("ai 模型发布", "大模型", "模型") == "ai 模型发布"
  {
    NothingToReplace("ai 模型发布");
  }

  lemma ReplaceExample3()
    ensures Replace("ai 模型发布 重复", "人工智能", "ai") == "ai 模型发布 重复"
      && Replace("ai 模型发布 重复", "大模型", "模型") == "ai 模型发布 重复"
  {
    NothingToReplace("ai 模型发布 重复");
  }

  lemma NormalizeTitleExample1()
    ensures NormalizeTitle("AI 模型发布") == "ai模型发布"
  {
    LowerExample1();
    ReplaceExample1();
    SpacesExample1();
    WordsExample1();
    TitleStages("AI 模型发布", "ai 模型发布", "ai 模型发布", "ai 模型发布", "ai模型发布", "ai模型发布");
  }

  /** 人工智能 is read as ai, so this title normalises like the first. */
  lemma NormalizeTitleExample2()
    ensures NormalizeTitle("人工智能模型发布") == "ai模型发布"
  {
    LowerExample2();
    ReplaceExample2();
    ReplaceAbsent("ai模型发布", "大模型", "模型");
    KeepExample1();
    WordsExample1();
    TitleStages("人工智能模型发布", "人工智能模型发布", "ai模型发布", "ai模型发布", "ai模型发布", "ai模型发布");
  }

  lemma NormalizeTitleExample3()
    ensures NormalizeTitle("AI 模型发布 重复") == "ai模型发布重复"
  {
    LowerExample3();
    ReplaceExample3();
    SpacesExample3();
    WordsExample3();
    TitleStages("AI 模型发布 重复", "ai 模型发布 重复", "ai 模型发布 重复", "ai 模型发布 重复", "ai模型发布重复", "ai模型发布重复");
  }

  /** Of two items of equal weight, the later discovery sorts first. */
  lemma SortPairExample(b: NormalizedItem, c: NormalizedItem)
    requires b.sourceWeight == c.sourceWeight && b.discoveredAt < c.discoveredAt
    ensures SortBy([b, c], KeyGe) == [c, b]
  {
    assert [b, c][1..] == [c] && [c][1..] == [];
    InsertLast(b, [c], KeyGe);
  }

  /** Equal weights: the latest discovery is visited first. */
  lemma SortExample(a: NormalizedItem, b: NormalizedItem, c: NormalizedItem)
    requires a.sourceWeight == b.sourceWeight == c.sourceWeight
    requires a.discoveredAt < b.discoveredAt < c.discoveredAt
    ensures SortForDedupe([a, b, c]) == [c, b, a]
  {
    SortPairExample(b, c);
    assert [a, b, c][1..] == [b, c];
    InsertLast(a, [c, b], KeyGe);
  }

  /**
   * The three-item case of `dedupe_items` with threshold 0.8: the latest
   * item, 人工智能模型发布, is visited first and kept; the repeat shares the
   * first item's URL and its normalised title is close enough to the kept
   * one, and the first item's normalised title equals the kept one's.
   */
  lemma DedupeExample(md5: string -> string, ratio: (string, string) -> Ratio,
                      a: NormalizedItem, b: NormalizedItem, c: NormalizedItem)
    requires a.title == "AI 模型发布" && b.title == "AI 模型发布 重复" && c.title == "人工智能模型发布"
    requires a.canonicalUrl == b.canonicalUrl && a.canonicalUrl != c.canonicalUrl
    requires a.sourceWeight == b.sourceWeight == c.sourceWeight
    requires a.discoveredAt < b.discoveredAt < c.discoveredAt
    requires ratio("ai模型发布", "ai模型发布") == 1.0
    requires ratio("ai模型发布重复", "ai模型发布") >= 0.8
    ensures Dedupe(Oracle(md5, ratio, 0.8), [a, b, c]) == [c]
  {
    var o := Oracle(md5, ratio, 0.8);
    TitlesExample(o, a.title, b.title, c.title);
    SortExample(a, b, c);
    WalkExample(o, a, b, c);
  }

  lemma TitlesExample(o: Oracle, ta: string, tb: string, tc: string)
    requires ta == "AI 模型发布" && tb == "AI 模型发布 重复" && tc == "人工智能模型发布"
    requires o.threshold == 0.8
    requires o.ratio("ai模型发布", "ai模型发布") == 1.0
    requires o.ratio("ai模型发布重复", "ai模型发布") >= 0.8
    ensures TitleSimilarity(o.ratio, tb, tc) >= o.threshold && TitleSimilarity(o.ratio, ta, tc) >= o.threshold
  {
    NormalizeTitleExample1();
    NormalizeTitleExample2();
    NormalizeTitleExample3();
  }

  /** A walk over `[c, b, a]` in which `b` and `a` both read as `c` keeps only `c`. */
  lemma WalkExample(o: Oracle, a: NormalizedItem, b: NormalizedItem, c: NormalizedItem)
    requires SimilarTitle(o, b, c) && SimilarTitle(o, a, c)
    ensures WalkFrom(DupOf(o), [c, b, a], 0, []) == [c]
  {
    var s := [c, b, a];
    assert s[0] == c && s[1] == b && s[2] == a;
    assert !Collides(DupOf(o), [], c);
    WalkStep(DupOf(o), s, 0, []);
    assert [] + [c] == [c];
    CollidesWitness(o, [c], b, 0);
    WalkStep(DupOf(o), s, 1, [c]);
    CollidesWitness(o, [c], a, 0);
    WalkStep(DupOf(o), s, 2, [c]);
    assert WalkFrom(DupOf(o), s, 3, [c]) == [c];
  }
}
