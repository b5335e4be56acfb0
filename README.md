# info_thief in Dafny

info_thief builds a daily digest of AI news. Each run does the following:

- It collects items from RSS feeds, HTML listing pages and WeChat official-account profiles.
- It recovers each item's publication time and normalizes the items: cleaned text, a canonical URL, a content-derived id and a language tag.
- It keeps the AI-related items of the last 24 hours and drops items already sent in the last seven days.
- It deduplicates, classifies each item into a perspective (product, technology, industry), scores and ranks them, and selects a mix.
- It builds a brief with the help of a language model, renders it as markdown and pushes it to WeCom and Feishu.
- It records the run in a ledger.

Two chat bots, on Feishu and WeCom, answer `/run`, `/latest`, `/status` and `/help`.

This project models that core in Dafny and proves properties of the model:

| Dafny module | models |
|---|---|
| `Collector`, `TimeParse`, `Regex` | the collectors and the date recovery of `app/collector.py`, with the backtracking order of Python's `re` for the patterns they use |
| `Normalizer`, `Deduper`, `Classifier`, `Ranker` | the selection stages |
| `Storage` | the ledger: a class whose seen-items map and run log the methods update |
| `Pipeline` | `collect_all_sources`, `_build_brief`, the channel truncation and `run_daily_pipeline` |
| `Publisher`, `Llm` | the markdown brief, the webhook push with retries, the failure alert, and the language-model clients |
| `Chat`, `Feishu`, `Wecom` | the chat bots: command resolution, chunking, the event and token caches, reply routing, mention stripping, PKCS #7 padding, the signature and message framing |
| `Config`, `EnvUtils`, `Rsshub` | configuration: `${NAME:-default}` substitution, `.env` loading, and local RSSHub detection |
| `Text`, `Order`, `Calendar`, `Models`, `Wrappers` | Python's string functions, stable sorting, `datetime` arithmetic, and the record types |

Conventions used throughout the model:

- Instants are whole seconds since 1970-01-01 UTC, and scores are reals.
- Python's exceptions become `Result` errors. The error text is the exception's message where the code composes it; where a library raises, a fixed text stands for the library's message.
- Anything the code reaches through I/O or a library is a function-valued parameter. That covers HTTP, hashing, AES, base64, XML and JSON decoding, `urljoin`, `dateutil`, the language models and the file system.
- Where the code updates state in place, the model is a class with `modifies` clauses. This applies to the ledger, the event cache and the token cache.
- Loops become methods whose invariants tie them to a specification function. Properties of that function are proved as lemmas.

## Model

| member | source | states |
|---|---|---|
| Models.PerspectiveEnum | app/models.py:10-13 | the perspective enum has exactly three members, whose values are distinct and parse back to the member |
| Models.ParsePerspective | app/models.py:10-13 | parsing a value gives the member with that value, and nothing exactly when no member has it |
| Models.NewRawItem | app/models.py:16-24 | a raw item built from its required fields has weight 1.0, empty content, no publish time and no tags |
| Models.NewClassifiedItem | app/models.py:41-43 | a classified item keeps the normalized item and its perspective, with classification source "rule" by default |
| Models.DefaultSettings | app/models.py:80-110 | the declared defaults: 8 to 12 items, two per perspective, two per source, push and Feishu off, mentions required, replies by chat id, a 15-second timeout |
| Text.Lower | app/normalizer.py:73 | lower-casing keeps the length and folds each ASCII upper-case letter, leaving every other character |
| Text.LowerIdempotent | app/ranker.py:10 | lower-casing twice is lower-casing once |
| Text.LoweredTags | app/ranker.py:17 | the lowered tag set holds exactly the lower-cased tags |
| Text.StripBy | app/collector.py:323 | stripping removes a run of class characters from each end and nothing else, leaves no class character at either end, and empties a string made only of them |
| Text.StripIdempotent | app/pipeline.py:161 | stripping twice is stripping once |
| Text.NonEmpty | app/pipeline.py:82 | exactly the non-empty strings, in order, and all of them when none is empty |
| Text.RStripChar | app/normalizer.py:68 | stripping one character from the right leaves a prefix that does not end with it, and removes only that character |
| Text.Words | app/feishu.py:241 | `split()` gives non-empty words without whitespace |
| Text.WordsOfJoin | app/feishu.py:241 | splitting space-joined words gives the words back |
| Text.CollapseSpacesKeepsWords | app/feishu.py:241 | collapsing whitespace keeps the words and is idempotent |
| Text.CollapseSpacesNormalForm | app/feishu.py:241 | collapsed text has no leading, trailing, doubled or non-blank whitespace |
| Text.Contains | app/collector.py:306 | substring membership holds exactly when the pattern occurs at some index |
| Text.Find | app/collector.py:291 | -1 exactly when the pattern does not occur; otherwise its first occurrence |
| Text.Replace | app/deduper.py:17-18 | text without the pattern is left unchanged |
| Text.ReplaceCharByNothing | app/collector.py:333 | replacing one character by nothing removes exactly that character |
| Text.RFindChar | app/feishu.py:286 | the last index before the end holding the character, or -1 when there is none |
| Text.ShowNat | app/wecom.py:354 | the decimal rendering of a number is a non-empty digit string that reads back as the number |
| Text.ParseIntShowInt | app/wecom.py:354 | reading back a rendered integer gives the integer |
| Order.Insert | app/ranker.py:67 | inserting adds exactly the one element |
| Order.SortBy | app/ranker.py:67 | sorting keeps the multiset of elements |
| Order.SortBySorted | app/ranker.py:67 | the sort is sorted by the order and a permutation of its input |
| Order.SortedPermutationUnique | app/ranker.py:67 | under an antisymmetric order there is only one sorted arrangement of a multiset |
| Order.SortByStable | app/ranker.py:67 | the sort is stable: the elements tied with any element keep their input order |
| Order.StableSortUnique | app/ranker.py:67 | under a total preorder, two sorted arrangements of one multiset that keep every tie class in the same order are equal, so any stable sort gives the same list |
| Order.SortByCount | app/ranker.py:131 | sorting keeps how many elements satisfy any predicate |
| Order.SortByDistinct | app/ranker.py:131 | sorting keeps keys distinct |
| Order.Take | app/ranker.py:132 | Python's `s[:n]`: a prefix of n elements, or for negative n all but the last -n, clamped to the sequence |
| Order.StrLeTotalOrder | app/normalizer.py:67 | Python's string comparison is a total order |
| Calendar.DaysInMonth | app/collector.py:129 | every month has 28 to 31 days |
| Calendar.YearOf | app/collector.py:135 | the year of an instant is the one whose span holds it |
| Calendar.YearOfUnique | app/collector.py:135 | only one year's span holds an instant |
| Calendar.YearOfInstant | app/collector.py:141 | a valid datetime's instant is in range and has that datetime's year |
| Regex.RunLength | app/collector.py:25-27 | a greedy character run stays inside the text, within its bound, and stops where the class stops holding |
| Regex.Search | app/collector.py:193 | the leftmost match, and at that position the first alternative the backtracking engine tries; none exactly when no position matches |
| Regex.FindAllEmpty | app/collector.py:330-332 | `findall` finds nothing exactly when `search` finds nothing |
| Regex.RunFirstIsLongest | app/collector.py:25-27 | a greedy run's first try takes the whole run |
| Normalizer.StripTags | app/normalizer.py:45 | a `>` survives tag stripping only if the text had one |
| Normalizer.StripTagsLeavesNoTag | app/normalizer.py:45 | no `<...>` run is left once tags are replaced by spaces |
| Normalizer.StripTagsIdentity | app/normalizer.py:45 | text without a `<...>` run is left alone |
| Normalizer.CleanTextOfWords | app/normalizer.py:44-47 | words joined by single spaces, with no `<`, are already clean |
| Normalizer.CountCjkPositive | app/normalizer.py:53 | the CJK count is positive exactly when the text holds a character in U+4E00..U+9FFF |
| Normalizer.CountLatinPositive | app/normalizer.py:54 | the Latin count is positive exactly when the text holds an ASCII letter |
| Normalizer.DetectLanguage | app/normalizer.py:50-61 | `zh`, `en`, `mixed`, `unknown` exactly when the text holds CJK only, Latin only, both, neither |
| Normalizer.DropTracking | app/normalizer.py:66 | a query pair is kept, as often as it occurred, exactly when its key is not a tracking key |
| Normalizer.Canonicalize | app/normalizer.py:64-69 | lower-case scheme and host, path without trailing `/`, no fragment, the non-tracking query pairs kept with multiplicity and sorted |
| Normalizer.UnsplitAuthority | app/normalizer.py:68 | after a scheme, `urlunsplit` writes the `//` marker exactly when there is a network location, the path starts with `//`, or the scheme is one of `uses_netloc` and the path is empty or absolute |
| Normalizer.UnsplitEmptyNetloc | app/normalizer.py:68 | `http` with an empty network location and path `/a` gives `http:///a`, with an empty path `http://`, while `mailto:x@y` keeps no marker |
| Normalizer.CanonicalizeUrl | app/normalizer.py:64-69 | `canonicalize_url` succeeds exactly when `urlsplit` does, and otherwise raises the splitter's own error |
| Normalizer.CanonicalizeIgnoresOrderAndTracking | app/normalizer.py:64-69 | URLs that differ only in query order, tracking pairs or fragment canonicalise identically |
| Normalizer.CanonicalizeIdempotent | app/normalizer.py:64-69 | canonicalising twice is canonicalising once |
| Normalizer.ItemIdIgnoresTracking | app/normalizer.py:89-91 | items whose URLs split and differ only in tracking pairs, fragment or query order both canonicalise and get the same id |
| Normalizer.KeptOrRaiseSound | app/normalizer.py:97-127 | a loop that appends what its body keeps finishes exactly when no body raises, and then holds every kept value from some element and every value an element keeps; otherwise its error is that of the first element that raises |
| Normalizer.NormalizeAllSound | app/normalizer.py:94-128 | `normalize_items` succeeds exactly when no item raises; then the output is no longer than the input, each item comes from a raw item and each accepted raw item is there; otherwise the error is that of the first raw item that raises |
| Normalizer.NormalizeOneShape | app/normalizer.py:98-127 | an accepted item has a non-empty cleaned title, a date inside the window, content of at most 5000 characters, the canonical URL of its address and the id made of both |
| Normalizer.NormalizeOneKept | app/normalizer.py:98-110 | a raw item is kept exactly when its cleaned title is non-empty, it is AI-related, it has a date inside the window and its URL splits; it raises, with `urlsplit`'s error, exactly when it passes those filters and its URL does not split |
| Normalizer.NormalizeStep | app/normalizer.py:98-127 | one loop iteration yields what `NormalizeOne` gives for the item: continue, the item, or the error |
| Normalizer.NormalizeAllShape | app/normalizer.py:94-128 | when `normalize_items` returns, every item has a title, a date inside the window and bounded content |
| Normalizer.NormalizeItems | app/normalizer.py:94-128 | the loop returns `NormalizeAll` of the raw items, stopping with the first URL that fails to split; each returned item has a title, a date in the window and bounded content |
| Normalizer.NormalizeAllPrefix | app/normalizer.py:97-127 | one more raw item appends exactly what `NormalizeOne` makes of it, or ends the loop with its error |
| Normalizer.NormalizeAllRaised | app/normalizer.py:97-110 | once an item has raised, the items after it change nothing: its error is the result |
| Normalizer.NormalizeSkipsBeforeSplit | app/normalizer.py:105-110 | an item dated outside the window is dropped before its URL is split, so an unsplittable URL there does not raise |
| Normalizer.NormalizeRaisesOnAccepted | app/normalizer.py:98-110 | an accepted AI item whose URL does not split makes `normalize_items` raise with that error |
| Normalizer.CanonicalExampleUrl | tests/test_normalizer.py:34 | `https://a.com/post1` splits to its own canonical form |
| Normalizer.NormalizeWindowExample | tests/test_normalizer.py:7-34 | of items 2 and 30 hours old, a 24-hour window keeps only the first, under `https://a.com/post1` |
| Normalizer.NormalizeTagFallbackExample | tests/test_normalizer.py:37-55 | a title without keywords is kept through an `ai` tag |
| Deduper.NormalizeTitle | app/deduper.py:15-21 | the normalised title holds only word or CJK characters and no whitespace |
| Deduper.TitleCaseBlind | app/deduper.py:17 | letter case never separates titles: a title and its lower-cased form normalise to the same text |
| Deduper.SortForDedupe | app/deduper.py:30 | the visiting order is sorted by (weight, discovery time) descending and is a permutation of the items |
| Deduper.WalkFromPrefix | app/deduper.py:36-55 | the walk only appends to what was already selected |
| Deduper.WalkFromDuplicateFree | app/deduper.py:36-55 | the walk never selects an item that duplicates an earlier selected one |
| Deduper.WalkFromSubsequence | app/deduper.py:36-55 | what the walk selects is a subsequence of the visiting order |
| Deduper.WalkFromMaximal | app/deduper.py:36-55 | every visited item is selected or duplicates a selected item |
| Deduper.DedupeProperties | app/deduper.py:28-57 | the result is a subsequence of the visiting order; every input is kept or duplicates a kept item; kept items have distinct URLs, distinct non-empty content fingerprints, and no later title reaches the threshold against an earlier one |
| Deduper.RunningSetsAppend | app/deduper.py:52-55 | appending an item adds its URL to `seen_urls`, and its fingerprint to `seen_fingerprints` exactly when its content is non-empty |
| Deduper.SimilarToKept | app/deduper.py:44-48 | the inner loop reports a title duplicate exactly when some selected title reaches the threshold |
| Deduper.CollidesByRunningSets | app/deduper.py:37-50 | the three tests against the running sets skip an item exactly when it duplicates a selected item |
| Deduper.DedupeItems | app/deduper.py:28-57 | the loop with running sets returns `Dedupe` of the items |
| Deduper.NormalizeTitleExample1 | tests/test_deduper.py:25 | `AI 模型发布` normalises to `ai模型发布` |
| Deduper.NormalizeTitleExample2 | tests/test_deduper.py:27 | `人工智能模型发布` normalises to `ai模型发布` too |
| Deduper.NormalizeTitleExample3 | tests/test_deduper.py:26 | `AI 模型发布 重复` normalises to `ai模型发布重复` |
| Deduper.SortExample | app/deduper.py:29-30 | among equal weights the latest discovery is visited first |
| Deduper.DedupeExample | tests/test_deduper.py:24-31 | the three test items at threshold 0.8 dedupe to the single item `人工智能模型发布` |
| Classifier.Tally | app/classifier.py:19-21 | the inner loop adds to `p` the number of its keywords found in the lowered text and leaves the other scores alone |
| Classifier.RuleScores | app/classifier.py:16-21 | every perspective is scored, and its score is its count of keywords found in the lowered text |
| Classifier.DecideUniqueMaximum | app/classifier.py:23-28 | the sorted decision picks `p` exactly when `p`'s score is positive and strictly above the others' |
| Classifier.TopPicksMaximum | app/classifier.py:23-28 | for any sorted arrangement of the three scores, the head is picked exactly when it is the strict positive maximum |
| Classifier.PairsDistinct | app/classifier.py:23 | the sorted pairs name three different perspectives |
| Classifier.ScoresOf | app/classifier.py:17-21 | the score map holds every perspective's keyword count |
| Classifier.StrictLeaderIsMaximum | app/classifier.py:23-28 | the reference decision (strict leader) picks `p` exactly when `p` is the strict positive maximum |
| Classifier.DecideIsStrictLeader | app/classifier.py:23-28 | the sort-based decision and the strict leader agree on every non-negative scoring |
| Classifier.RuleDecisionMaximum | app/classifier.py:15-28 | the rule picks `p` exactly when `p`'s keyword count is positive and beats the others |
| Classifier.RuleClassify | app/classifier.py:15-28 | the method returns the rule decision: a perspective exactly when its count is positive and beats the others |
| Classifier.HasTagInMeets | app/classifier.py:32-37 | a tag group applies exactly when it meets the lower-cased tag set |
| Classifier.TagClassify | app/classifier.py:31-39 | product tags win over technology tags, which win over industry tags; none of them gives none |
| Classifier.Chain | app/classifier.py:51-65 | the source is `rule` exactly when rule or tags answered, `llm` exactly when only an enabled client answered, else the item falls back to industry; the perspective comes from the stage that answered |
| Classifier.ClassifyStep | app/classifier.py:50-73 | one loop iteration yields `ClassifyOne` of the item |
| Classifier.ClassifyAllAt | app/classifier.py:49-73 | one output per input, the `i`-th from the `i`-th item alone |
| Classifier.ClassifyAllFrom | app/classifier.py:67-73 | every classified item wraps an input item with its fields copied |
| Classifier.ClassifyItems | app/classifier.py:42-75 | the loop returns `ClassifyAll` of the items, one per input |
| Classifier.OnlyOneVotes | app/classifier.py:23-28 | when only `p`'s keywords occur, the rule picks `p` |
| Classifier.SampleByRule | app/classifier.py:50-57 | a title whose text hits only `p`'s keywords is classified `p` with source `rule` |
| Classifier.ClassifySamples | tests/test_classifier.py:24-34 | the three test titles are a product, a technology and an industry item |
| Ranker.HeatScore | app/ranker.py:9-13 | between 0 and 2; 0.4 per signal word found below five words, 2.0 exactly from five on |
| Ranker.HeatMonotone | app/ranker.py:9-13 | more signal words never lower the heat |
| Ranker.TagBonus | app/ranker.py:16-33 | between -0.2 and 5.4; at least 2.8 with `priority_top`, at most 2.4 without it, 0 without any bonus tag |
| Ranker.RecencyScore | app/ranker.py:36-42 | between 0 and 5; 5 exactly when the base time (publish time, else discovery) is not in the past; 0 exactly when it is 24 hours old or more |
| Ranker.RecencyMonotone | app/ranker.py:36-42 | a more recent base time never scores lower |
| Ranker.RankOne | app/ranker.py:50-65 | a ranked item keeps every classified field |
| Ranker.PriorityTopWins | tests/test_ranker.py:138-172 | an item tagged `priority_top` outranks an otherwise equal item without bonus tags unless the other's source weight is at least 1.12 higher |
| Ranker.Scored | app/ranker.py:49-65 | one ranked item per input, the `i`-th from the `i`-th input |
| Ranker.ScoredFrom | app/ranker.py:56-58 | every scored item wraps one of the inputs |
| Ranker.RankItems | app/ranker.py:45-68 | the result is the scored items sorted by descending score: sorted, a permutation of the scored items, and the items of any one score in their input order |
| Ranker.ScoreTies | app/ranker.py:67 | two ranked items tie under the sort's key exactly when their scores are equal |
| Ranker.HigherFirst | app/ranker.py:67 | of two items the strictly higher score comes first, whatever the input order |
| Ranker.HigherRanksFirst | app/ranker.py:45-68 | `rank_items` puts the higher-scored of two items first in either input order |
| Ranker.CanAddIffNotBlocked | app/ranker.py:89-96 | with the bookkeeping in order, `_can_add` accepts exactly the items that are not blocked (already selected, or source at its cap) |
| Ranker.AddItemSound | app/ranker.py:98-101 | adding an accepted item keeps ids distinct, items from the input, sources under the cap, and only appends |
| Ranker.AddItemCounts | app/ranker.py:98-101 | adding an item counts one more of its perspective |
| Ranker.BlockedGrows | app/ranker.py:89-96 | selecting more never unblocks an item |
| Ranker.QuotaMetGrows | app/ranker.py:104-112 | selecting more never breaks a met quota |
| Ranker.OfPerspectiveMembers | app/ranker.py:81-83 | `grouped[p]` holds exactly the input items of perspective `p` |
| Ranker.Group | app/ranker.py:81-83 | the grouping loop builds `grouped[p]` for every perspective, in rank order |
| Ranker.TakeQuota | app/ranker.py:105-112 | the quota loop for `p` adds at most `mix_min_each` items, only appends, keeps the selection sound and meets the quota for `p` |
| Ranker.GroupBlocked | app/ranker.py:106-110 | when every item of `grouped[p]` is blocked so is every input item of perspective `p` |
| Ranker.Quota | app/ranker.py:104-112 | phase 1 selects at most three quotas' worth and meets every perspective's quota |
| Ranker.Fill | app/ranker.py:115-129 | a fill phase only appends, keeps the selection sound, stops at the bound or when every item is blocked, and changes nothing when every item already was |
| Ranker.SortKeepsSelection | app/ranker.py:131 | the final sort keeps ids, per-source and per-perspective counts, blocking and quotas |
| Ranker.FinishOrder | app/ranker.py:131-132 | sorting and cutting keep the order, distinct ids and membership of the input |
| Ranker.FinishCounts | app/ranker.py:131-132 | sorting and cutting keep the per-source cap and lose nothing when the selection already fits |
| Ranker.Finish | app/ranker.py:131-132 | sorting and cutting keep every property the phases established |
| Ranker.TopUpIdle | app/ranker.py:115-129 | after the fill to `item_max` (raised to `item_min`), a selection still short of `item_min` has every ranked item blocked, so the `item_min` top-up, which reuses the capped `_can_add`, adds nothing |
| Ranker.SelectItemsWithMix | app/ranker.py:71-132 | at most `max(item_min, item_max)` items, distinct ids, all from the input, sorted by score, each source under its cap, filled to the limit unless every item is blocked (the `item_min` top-up leaves the selection as the fill made it), and each perspective's quota met when the quotas fit the limit |
| Storage.IntOf | app/storage.py:77 | `int(v or 0)`: an integer is itself, a falsy value is 0 |
| Storage.LastRowOf | app/storage.py:52-58 | the position of the last batch row with the id, or -1 when no row has it |
| Storage.UpsertRow | app/storage.py:49-58 | after `mark_seen` an id is stored exactly when it was before or is in the batch; the batch's last row for it wins, and other ids keep their rows |
| Storage.SeenSince | app/storage.py:40-47 | the loaded ids are exactly the stored ids seen at or after the window start |
| Storage.MarkedAreSeen | app/storage.py:40-58 | ids just marked are loaded back by any window that reaches back to the marking |
| Storage.PushScanFinds | app/storage.py:60-79 | without unconvertible counts, the scan answers true exactly when some successful run in the window had pushing on and a positive selected count |
| Storage.LoggedPushIsFound | app/storage.py:60-94 | logging a successful run that pushed items makes the next check within the window answer true |
| Storage.ScanPushes | app/storage.py:72-79 | the newest-first loop returns `PushScan` of the rows |
| Storage.StateStore.constructor | app/storage.py:9-10 | a store over a database holding the given rows |
| Storage.StateStore.InitDb | app/storage.py:17-38 | the tables exist afterwards and no row changes |
| Storage.StateStore.LoadSeenItemIds | app/storage.py:40-47 | the ids seen within the last `days` days, or an error without tables |
| Storage.StateStore.MarkSeen | app/storage.py:49-58 | the seen table becomes the upsert of the batch with one timestamp; the run log is untouched |
| Storage.StateStore.HasRecentSuccessfulPushRun | app/storage.py:60-79 | the scan over the run log within the last `hours` hours, or an error without tables |
| Storage.StateStore.LogRun | app/storage.py:81-94 | exactly one record is appended to the run log; the seen items are untouched |
| Publisher.PerspectiveLabel | app/publisher.py:14-20 | the combined-view label exactly for a value other than product, technology and industry |
| Publisher.PerspectiveLabelsDistinct | app/publisher.py:14-20 | the three perspectives get three different labels, none the default |
| Publisher.ImportanceLabel | app/publisher.py:23-29 | the medium label exactly for a value other than high and low |
| Publisher.KeyPointLimit | app/publisher.py:32-38 | between 2 and 4; 4 exactly for high, 2 exactly for low |
| Publisher.ImportanceTablesAgree | app/publisher.py:23-38 | an importance reads as medium exactly when it gets three key points |
| Publisher.Insight | app/publisher.py:57 | never empty; the stripped insight when that is not blank |
| Publisher.PointLinesCount | app/publisher.py:55-56 | one point line per shown key point |
| Publisher.ItemBlockPoints | app/publisher.py:51-59 | an item shows `min(len(key_points), limit)` point lines, never more than its importance allows |
| Publisher.ItemLinesPrefix | app/publisher.py:48-59 | rendering more items only appends: earlier blocks are unchanged |
| Publisher.ItemNumbered | app/publisher.py:48-51 | the heading of the item at position `k` carries the number `k + 1` |
| Publisher.ItemLinesSnoc | app/publisher.py:48-59 | one more item appends its block |
| Publisher.MarkdownShape | app/publisher.py:41-65 | the document opens with the title and ends with the observation heading and one line per observation |
| Publisher.RenderItem | app/publisher.py:49-59 | the loop over key points builds the item's block |
| Publisher.RenderItems | app/publisher.py:48-59 | the loop over items builds their blocks in order |
| Publisher.RenderObservations | app/publisher.py:62-63 | the loop over observations builds one line each in order |
| Publisher.RenderMarkdown | app/publisher.py:41-65 | the lines appended in document order, joined and stripped |
| Publisher.PositiveWaits | app/publisher.py:94-95 | only positive waits make the sleeper run |
| Publisher.PushFromStop | app/publisher.py:97-102 | an error or an accepted post ends the attempts |
| Publisher.PushFromStep | app/publisher.py:97-102 | a refused post is followed by the remaining attempts |
| Publisher.PushFromBounds | app/publisher.py:91-103 | at most one post per attempt, at least one, and a sleep exactly before each attempt whose wait is positive |
| Publisher.PushFromSucceeds | app/publisher.py:91-103 | the push reports success exactly when some post is accepted and every earlier post was refused |
| Publisher.PushMarkdown | app/publisher.py:68-106 | an empty webhook raises before any post or sleep; otherwise every attempt over `(0,) + retries` posts the markdown payload of the content to the webhook |
| Publisher.PostAttempts | app/publisher.py:93-103 | the retry loop returns the outcome, the number of posts and the sleeps that `PushFrom` gives |
| Publisher.PushExample | tests/test_publisher.py:29-49 | a 500, then errcode 1, then success with waits 1 and 2: success after 3 posts and sleeps `[1, 2]` |
| Publisher.AlertText | app/publisher.py:120 | the alert starts with the fixed prefix and carries a prefix of the error of at most 500 characters |
| Publisher.SendFailureAlert | app/publisher.py:109-129 | no post for an empty webhook; otherwise the alert text is posted, and success exactly when that post is accepted |
| Llm.PartTextsFromTextParts | app/llm.py:44-54 | every collected text comes from a part typed `output_text` or `text` with a truthy text, stripped |
| Llm.PartTextsNone | app/llm.py:44-54 | parts without a truthy text part contribute nothing |
| Llm.OutputTextFirst | app/llm.py:25-32 | a truthy `output_text` wins whatever the output items hold, stripped |
| Llm.ExtractResponseText | app/llm.py:24-56 | the nested loops return `ResponseText` of the response |
| Llm.CollectPartTexts | app/llm.py:44-54 | the inner loop collects `PartTexts` of one item's parts |
| Llm.TwoPartTexts | app/llm.py:44-54 | two stripped non-empty text parts each contribute their own text |
| Llm.TwoPartResponse | app/llm.py:38-56 | a response of two stripped non-empty text parts reads as the two joined by a newline |
| Llm.ExtractExample | tests/test_llm.py:13-24 | the parts `第一行` and `第二行` read as `第一行\n第二行` |
| Llm.OutputTextExample | tests/test_llm.py:6-10 | a response whose `output_text` is `连接成功` reads as that |
| Llm.FallbackClassify | app/llm.py:70-72 | the heuristic client never decides a perspective |
| Llm.SummarySource | app/llm.py:75-77 | the quoted text is the stripped content, else the stripped title, else the raw title |
| Llm.FallbackSummary | app/llm.py:74-83 | exactly three non-empty points |
| Llm.FallbackSummaryQuotes | app/llm.py:78-81 | the second point quotes a prefix of the source text of at most 120 characters |
| Llm.FallbackIntro | app/llm.py:85-87 | the introduction starts with the fixed lead |
| Llm.FallbackIntroFirstThree | app/llm.py:85-87 | the introduction reads no title after the third |
| Llm.FallbackObservations | app/llm.py:89-94 | two fixed non-empty sentences whatever the snippets |
| Llm.ParseLabel | app/llm.py:118-125 | product if the lowered reply contains `product`, else technology if it contains `technology`, else industry if it contains `industry`, else none |
| Llm.StrippedPoints | app/llm.py:135 | no more entries than given; each is non-empty and the strip of some entry |
| Llm.DecodedList | app/llm.py:133-152 | a decoded `points` or `observations` value that is present but not iterable is an error, an absent one reads as no entries, and a list gives its entries |
| Llm.SummaryPoints | app/llm.py:133-138 | one to four points: the first four non-blank decoded points, else the reply cut to 120 characters and a fixed hint |
| Llm.ObservationPoints | app/llm.py:150-155 | one or two non-blank observations: the first two decoded, else one fixed sentence |
| Llm.VolcengineAskReads | app/llm.py:163-180 | the Volcengine client reads the stripped response text of the merged prompt |
| Llm.ClassifyPerspective | app/llm.py:113-125 | the heuristic client answers none; a remote reply is read by `ParseLabel` |
| Llm.SummarizeItem | app/llm.py:127-138 | the heuristic summary; for a remote client, the transport error, a `TypeError` when `points` is not iterable, the reply cut to 120 characters with the hint when the reply is not an object, otherwise one to four points |
| Llm.ComposeIntro | app/llm.py:140-142 | the heuristic lead, or the remote reply to the first twelve titles |
| Llm.ComposeObservations | app/llm.py:144-155 | the heuristic sentences; for a remote client, the transport error, a `TypeError` when `observations` is not iterable, the fixed sentence when the reply is not an object, otherwise one or two non-blank observations |
| Pipeline.Truncate | app/pipeline.py:122-131 | text within the limit is unchanged; longer text keeps a prefix of the original, ends with the truncation notice, has exactly limit - 8 characters and never exceeds the limit |
| Pipeline.TruncateStable | app/pipeline.py:122-131 | truncating already truncated text changes nothing |
| Pipeline.ToWecomContent | app/pipeline.py:122-125 | at most 3800 characters, and equal to the input exactly when the input fits |
| Pipeline.ToFeishuContent | app/pipeline.py:128-131 | at most 6000 characters, and equal to the input exactly when the input fits |
| Pipeline.BriefKeyPoints | app/pipeline.py:82-84 | one to four non-empty points: the first four non-empty ones when there are at least two, else the non-empty ones followed by the read-the-original hint |
| Pipeline.BriefKeyPointsKeepsClean | app/pipeline.py:82-84 | two to four non-empty points are kept unchanged |
| Pipeline.BriefItemOf | app/pipeline.py:76-95 | a brief item copies the selected item's title, url, source name, perspective and score, its key points are the cleaned summary (one to four), and importance and insight keep their declared defaults |
| Pipeline.BriefItemsAt | app/pipeline.py:76-95 | one brief item per selected item, the k-th built from the k-th selected item |
| Pipeline.IsoDate | app/pipeline.py:110-111 | ten characters with dashes at positions 4 and 7 |
| Pipeline.BriefShape | app/pipeline.py:69-119 | the brief lists every selected item once and in order, with its title and url, one to four key points each, a title starting with the daily prefix and at most two observations |
| Pipeline.SummarizeStep | app/pipeline.py:77-95 | one loop step builds exactly the brief item of that selected item, falling back when the summarizer fails |
| Pipeline.NullPointsFallsBack | app/llm.py:132-135 | a remote summary whose `points` is not iterable raises, and the brief item then takes the heuristic summary |
| Pipeline.BriefItemsFrom | app/pipeline.py:76-95 | items built position by position from the selection are the brief items of the selection |
| Pipeline.SummarizeAll | app/pipeline.py:75-95 | the summarizing loop yields the brief items of the selection |
| Pipeline.BriefItemsSnoc | app/pipeline.py:76-95 | one more selected item appends exactly its brief item |
| Pipeline.BuildBrief | app/pipeline.py:69-119 | the brief built step by step equals the brief specification, whose shape BriefShape states |
| Pipeline.CollectItemsFrom | app/pipeline.py:57-61 | an item is collected exactly when some source that succeeded returned it; a failing source removes nothing |
| Pipeline.CollectErrorsFrom | app/pipeline.py:57-64 | a source name has an error entry exactly when a source of that name failed, and the entry is one of that name's errors |
| Pipeline.CollectAllSources | app/pipeline.py:40-66 | the collection loop extends the items of succeeding sources and records failures by name, as CollectItems and CollectErrors specify |
| Pipeline.Unseen | app/pipeline.py:176-177 | keeps exactly the items whose id is not among the seen ids, never adding any |
| Pipeline.UnseenTwice | app/pipeline.py:176-177 | filtering by two seen sets in turn equals filtering by their union |
| Pipeline.UnseenNothing | app/pipeline.py:176-177 | with no seen ids every item is kept in order |
| Pipeline.Proxy | app/pipeline.py:161 | a proxy, when present, is the non-empty stripped setting |
| Pipeline.RankedFrom | app/pipeline.py:182-183 | every ranked item is a deduplicated item, classified and scored |
| Pipeline.DedupedFrom | app/pipeline.py:179 | every deduplicated item is one of the items given |
| Pipeline.Stages | app/pipeline.py:176-190 | the deduplicated items are those of the unseen normalized items, and the selection is what `select_items_with_mix` promises of their ranking: distinct, sorted, capped per source, within the limit, filled to the limit unless every ranked item is blocked, and each perspective's quota met when the quotas fit |
| Pipeline.FeishuAll | app/pipeline.py:207-223 | all Feishu targets report success exactly when every target push succeeds |
| Pipeline.PushOutcomeCases | app/pipeline.py:197-228 | no configured channel is its own error; otherwise the push succeeds exactly when the WeCom push and every Feishu target push succeed |
| Pipeline.Push | app/pipeline.py:197-228 | the push block's result is the push outcome specification |
| Pipeline.AlertsShape | app/pipeline.py:236-251 | every failure alert carries the alert prefix and the error's first 500 characters |
| Pipeline.FeishuAlerts | app/pipeline.py:241-251 | one Feishu alert per target, in order, each with the alert text; fewer than the targets only when the last one sent raised |
| Pipeline.SendFeishuAlerts | app/pipeline.py:241-251 | the loop of single-attempt Feishu alerts sends exactly the specified alerts |
| Pipeline.SendAlerts | app/pipeline.py:236-253 | the alert block sends exactly the specified alerts: the WeCom alert when a webhook is set, then the Feishu ones, an exception ending the block |
| Pipeline.SeenRows | app/pipeline.py:230 | one seen row per selected item |
| Pipeline.MarkedNotRepeated | app/pipeline.py:176-177 | items a successful run marked seen are filtered out of any run within the following seven days |
| Pipeline.Publish | app/pipeline.py:196-228 | rendering and pushing gives the delivery specification, which is success when push is disabled |
| Pipeline.Gather | app/pipeline.py:161-191 | collection and normalization produce the specified raw items, errors and normalization result; when normalization succeeds, the deduplicated items and a selection of unseen items that is what `select_items_with_mix` promises of their ranking, and when it raises, nothing selected |
| Pipeline.RunDailyPipeline | app/pipeline.py:134-255 | one run creates the tables, computes the ranker's selection and the brief, or fails with the normalization error; it marks the selection seen only on success, leaves the seen items unchanged on failure, sends the failure alerts exactly when it fails with push enabled, and appends exactly one run log, success or failed with the error and the metrics counted so far |
| Pipeline.Prepare | app/pipeline.py:160-228 | the stages between reading the seen ids and recording the outcome: a normalization error ends the run with the metrics counted so far, otherwise the run computes the ranker's selection, its brief and the delivery result |
| Pipeline.Record | app/pipeline.py:230-254 | on success the selection is marked seen; on failure the seen items are untouched; one run log is appended either way, with the error on failure |
| Pipeline.ReadProxy | app/pipeline.py:161 | reading `http_proxy` succeeds exactly when the settings model declares the field, and then gives the proxy; otherwise it raises `AttributeError` naming the field |
| Pipeline.RenderAsWritten | app/publisher.py:41-51 | as written, rendering a brief with an item raises `AttributeError` on `importance`; a brief without items renders |
| Pipeline.AsWrittenRunFails | app/pipeline.py:160-254 | with `Settings` as declared, every run fails on its first statement, whatever it would have collected or selected: it marks nothing seen, and with push enabled it sends the alerts for the missing `http_proxy` |
| Pipeline.AsWrittenBriefFails | app/pipeline.py:193-254 | with `http_proxy` declared but `BriefItem` as declared, every run that selects an item fails on `importance`, pushed or not, marks nothing seen, and with push enabled sends the alerts for that message |
| Pipeline.AsWrittenAgreesWhenEmpty | app/pipeline.py:193-228 | once `http_proxy` is declared, a run that selects nothing delivers the same with the declared and the corrected `BriefItem` |
| Pipeline.CorrectedRunDelivers | app/pipeline.py:193-232 | with push off, the corrected brief of any selection renders and the delivery step succeeds |
| Pipeline.CorrectedItemRenders | app/publisher.py:48-59 | with the declared defaults every item renders with the medium label, up to three of its key points, and the fixed insight sentence |
| TimeParse.FirstMatch | app/collector.py:171-174 | none exactly when no pattern matches; otherwise the first matching pattern in list order with its leftmost match |
| TimeParse.UnixTimestamp | app/collector.py:150-163 | recognised exactly for 10 or 13 digits; 10 digits are seconds, 13 digits are integer-divided by 1000, and the result is a valid instant |
| TimeParse.MonthDay | app/collector.py:133-146 | a month-day date is a valid instant at most two days after the reference |
| TimeParse.LastYearBefore | app/collector.py:142-143 | a valid date in the previous year lies before the reference |
| TimeParse.MonthDayRolledBack | app/collector.py:140-146 | a date more than two days ahead in the reference year becomes last year's date, which lies before the reference, or nothing when that date does not exist |
| TimeParse.MonthDayKept | app/collector.py:133-146 | a month-day date stays in the reference year exactly when it exists there and is at most two days ahead; the answer is nothing exactly when neither year can hold it |
| TimeParse.ChineseDate | app/collector.py:119-147 | a recognised Chinese date is a valid instant; an impossible calendar date gives nothing rather than an error |
| TimeParse.ExtractDateSnippet | app/collector.py:166-175 | a source's own regex is tried first and its stripped match wins; otherwise none exactly when no built-in pattern matches |
| TimeParse.ParseHtmlDate | app/collector.py:178-209 | blank text gives nothing; a relative expression gives the reference less its delta unless that leaves the datetime range; without a relative expression or a snippet there is no date |
| TimeParse.RelativeAnswer | app/collector.py:191-196 | stripped short text reading as a relative expression is answered by it alone, the reference less the delta |
| TimeParse.RelativeOff | app/collector.py:191-209 | with relative parsing off or text over 80 characters only the snippet is read |
| TimeParse.BlankExample | app/collector.py:185-186 | empty and blank text give nothing |
| TimeParse.CountedDelta | app/collector.py:24-30 | "N小时前", "N分钟前" and "N天前" read N hours, minutes and days |
| TimeParse.FixedWords | app/collector.py:27-30 | text without digits reads "刚刚" as now, else "昨天" as one day back, else "今天" as now, in table order |
| TimeParse.HoursAgoExample | app/collector.py:25 | "3小时前" is three hours back |
| TimeParse.YesterdayExample | app/collector.py:28 | "昨天" is one day back |
| TimeParse.CountThenNeedsWord | app/collector.py:25-27 | a count pattern matches only text containing its word |
| TimeParse.CountThenNeedsDigit | app/collector.py:25-27 | a count pattern matches no text without digits |
| TimeParse.CountThenFound | app/collector.py:25-27 | digits followed by the word match, with the digits as group 1 |
| TimeParse.EarlierCountsMiss | app/collector.py:24-27 | the counted entries listed before a word's own entry do not match digits followed by that word |
| TimeParse.FirstParsed | app/collector.py:225-244 | nothing exactly when no value parses; otherwise the parse of the first value that parses |
| TimeParse.FirstParsedAt | app/collector.py:273-276 | the first value that parses is the answer |
| TimeParse.FirstParsedAppend | app/collector.py:273-298 | searching two lists one after the other is searching their concatenation |
| TimeParse.JsonLdDateIsFirst | app/collector.py:225-244 | the JSON-LD search answers with the first date string, in depth-first order, that parses |
| TimeParse.NonEmptyOnes | app/collector.py:262-271 | exactly the non-empty values, never more than given |
| TimeParse.Window | app/collector.py:293 | a slice of at most n characters starting at the index |
| TimeParse.MarkerSnippet | app/collector.py:290-293 | a snippet exists exactly when the marker occurs; it is the text of at most 120 characters from the first occurrence, and starts with the marker whenever the marker fits the window |
| TimeParse.ArticleDateIsFirst | app/collector.py:247-298 | the article date is the first probe that parses (meta and time candidates, then JSON-LD dates, then marker windows), else the body's first 4000 characters read without relative expressions |
| TimeParse.StructInstant | app/collector.py:405-408 | a time structure gives an instant exactly when it is a valid datetime, in its own year |
| TimeParse.StructDate | app/collector.py:402-408 | the first parsed structure that is a valid datetime, and none exactly when there is none |
| TimeParse.RssFetchLast | app/collector.py:396-418 | the linked article is fetched only when no date field, structure, summary, content or title gives a date |
| TimeParse.ExtractNearbyDate | app/collector.py:564-575 | the first of at most five ancestor texts, nearest first, that parses without relative expressions |
| TimeParse.MillionDaysExample | app/collector.py:191-196 | "1000000天前" at 2026-02-24 12:00 UTC reads a million days, which leaves the datetime range |
| Collector.RequiredKeywords | app/collector.py:302 | exactly the non-empty trimmed forms of the configured keywords |
| Collector.AnyKeyword | app/collector.py:305-306 | true exactly when some keyword, lower-cased, occurs in the lower-cased text |
| Collector.Allows | app/collector.py:301-314 | a list that is empty once trimmed accepts everything; otherwise the text passes exactly when some trimmed keyword occurs in it, case-insensitively |
| Collector.AuthorCaseBlind | app/collector.py:309-314 | an author and its lower-cased form pass or fail the author filter together |
| Collector.CleanPublisher | app/collector.py:323 | the cleaned capture is no longer than the capture and has no whitespace or listed punctuation at either end |
| Collector.Byline | app/collector.py:323-325 | a byline is kept only when it is 2 to 40 characters long after cleaning |
| Collector.FirstName | app/collector.py:319-326 | empty exactly when no pattern gives a name; otherwise the name of the first pattern that gives one |
| Collector.Bylines | app/collector.py:319-325 | one byline per pattern, in pattern order |
| Collector.FirstNameBounded | app/collector.py:319-326 | the first name present is one of the names present, so it shares their length bounds |
| Collector.PublisherShape | app/collector.py:317-326 | a publisher name is empty or 2 to 40 characters long |
| Collector.UnscrambleDrops | app/collector.py:333 | unscrambling removes exactly the newlines, spaces and at-signs and keeps the rest in order |
| Collector.SogouRedirectUrl | app/collector.py:329-334 | an address is returned only when it starts with http and has no newline, space or at-sign; none exactly when no chunk is found or the joined chunks do not start with http |
| Collector.NearestIn | app/collector.py:605-614 | the pick is among the first n candidates, no candidate is strictly closer, and every candidate before it is strictly farther |
| Collector.NearestDate | app/collector.py:585-614 | no candidate gives none; a single candidate, or an anchor that is not indexed, gives the first candidate |
| Collector.NearestPrefersFollowing | app/collector.py:605-609 | of two elements equally far from the anchor, one after and one before, the one before is never picked |
| Collector.NearestIsClosest | app/collector.py:600-614 | the pick is at least as close as every candidate and strictly closer than every candidate before it |
| Collector.PickNearestDateElem | app/collector.py:597-614 | the index-building loop with a running minimum returns the specified nearest element |
| Collector.ClimbFrom | app/collector.py:666-675 | the climb stops at most eight levels up, passes only ancestors that do not stop it, and ends below eight levels only at one that does |
| Collector.WalkToContainer | app/collector.py:666-675 | the climbing loop ends at the specified container |
| Collector.AnchorUrl | app/collector.py:617-634 | an anchor is accepted exactly when it has an href and text, a headline-like title, an article href, an http address after joining and a match of the link pattern when configured; the address is then the joined one |
| Collector.NearbyTexts | app/collector.py:564-575 | at most five ancestor texts are searched |
| Collector.LinkDate | app/collector.py:644-652 | no date means no nearby ancestor text gave one |
| Collector.CheckLink | app/collector.py:616-653 | a record is made exactly for an accepted anchor, with its text as title, the joined address and its date |
| Collector.BlockLinks | app/collector.py:655-662 | at most one link per item container |
| Collector.FirstLink | app/collector.py:657-661 | the first accepted anchor in a container, and none exactly when no anchor is accepted |
| Collector.AnchorLinks | app/collector.py:664-684 | at most one link per anchor |
| Collector.PageLinksAccepted | app/collector.py:578-684 | every link a page yields has an http address and a headline-like title |
| Collector.ResolveItemUrl | app/collector.py:359-373 | an address is kept unchanged unless resolving is configured and it is a Sogou link |
| Collector.HtmlSourceName | app/collector.py:712-718 | the source name, or it followed by `/` and the publisher, and the plain name when splitting by publisher is off |
| Collector.HtmlTake | app/collector.py:702-733 | a filtered, first-seen, dated link gives the next item and keeps the loop state |
| Collector.HtmlPass | app/collector.py:695-704 | a link that fails the filters or whose address was seen gives nothing and keeps the loop state |
| Collector.HtmlDateless | app/collector.py:702-710 | a filtered, first-seen link without a date marks its address seen and gives nothing |
| Collector.HtmlDone | app/collector.py:692-734 | when the loop ends, at the last link or at 30 items, its state is what the collector promises |
| Collector.CollectHtml | app/collector.py:692-734 | at most 30 items with distinct final addresses, dated and stamped with the run time, weight and tags; each from an eligible link (filtered, first to resolve to its address, dated) in link order; and every eligible link gives an item unless 30 were collected before it |
| Collector.CollectHtmlPage | app/collector.py:687-734 | the same promises over the links of the fetched page and the steps of the source: at most 30 dated items with distinct addresses, each from an eligible link in link order, and every eligible link collected unless the cap came first |
| Collector.Biz | app/collector.py:473-477 | the configured account id when non-blank, else the `__biz` parameter of the source address |
| Collector.ProfileItem | app/collector.py:534-558 | an article gives an item exactly when its trimmed title and address are non-empty and it passes the keyword filter, with the joined address, title, digest and message time |
| Collector.CollectWechatProfile | app/collector.py:471-561 | no account id is an error; no cookie, a failed reply or no message list gives no items; otherwise the result is Collector.ProfileResult of the reply's messages: the first item per address in message-then-article order, cut at 30, or the range error of a message dated outside `datetime`'s range met before 30 were found |
| Collector.ProfileItems | app/collector.py:518-561 | the loop computes exactly Collector.ProfileResult: in-range timestamps never fail and a result below the cap means all were in range; at most 30 items with distinct addresses, each made from an article of a dated message, and below the cap every acceptable article's address is present |
| Collector.ReadArticles | app/collector.py:533-559 | reading one message's articles extends the items to the first item per address of everything read so far, and stops early only on reaching 30 |
| Collector.ProfileResult | app/collector.py:518-561 | the reference result is at most 30 items, fails only with the range error, and never fails when every timestamp is in range |
| Collector.ScanMessages | app/collector.py:518-561 | the loop over the messages stops with the timestamp error at the first out-of-range message, stops early once 30 items are kept, and otherwise returns exactly Collector.ProfileResult |
| Collector.ProfileResultProperties | app/collector.py:518-561 | the reference result has distinct addresses, each item made from an article of a dated message; below 30 items every timestamp is in range and every acceptable article's address is present |
| Collector.FirstPerUrl | app/collector.py:543-545 | keeping the first item per address keeps every address, makes addresses distinct, and keeps only items no earlier item shares an address with |
| Collector.FirstPerUrlPrefix | app/collector.py:543-545 | reading more items only extends the first-per-address list, never changing what was kept earlier |
| Collector.DatedPrefix | app/collector.py:524-528 | the messages read before `datetime.fromtimestamp` raises: all of their timestamps are in range, and the next message's is not |
| Collector.FirstArticleWins | app/collector.py:533-546 | of two articles of one message with the same address, the first one's item is kept and the second skipped, whatever their titles |
| Collector.ArticleRunMembers | app/collector.py:533-546 | the items of a run of articles are exactly what the article reader makes of one of them |
| Collector.ArticleItemsSound | app/collector.py:521-546 | every item of the messages comes from an article of a dated message |
| Collector.ArticleItemsComplete | app/collector.py:521-546 | every article of a dated message that gives an item contributes it to the items of the messages |
| Collector.RssContentText | app/collector.py:434-442 | the summary when there is one |
| Collector.RssItem | app/collector.py:428-467 | a kept entry has a title, a link and a date, and carries the source name and run time |
| Collector.Kept | app/collector.py:428-468 | at most one item per entry |
| Collector.KeptFrom | app/collector.py:428-468 | every kept item is the item of some entry |
| Collector.KeptAll | app/collector.py:428-468 | every entry that gives an item is kept |
| Collector.KeptItems | app/collector.py:428-468 | the loop keeps exactly the items the entries give, in feed order |
| Collector.CollectRss | app/collector.py:421-468 | the RSS collector keeps, in feed order and without a cap, exactly the entries with a title and link that pass the filters and have a date |
| Chat.Named | app/feishu.py:250-270 | a word names run, latest, status or help exactly when it is in that command's word table |
| Chat.FirstWord | app/feishu.py:248 | the first word, when there is one, contains no whitespace |
| Chat.ResolveCommand | app/feishu.py:244-273 | empty text resolves to no command (the WeCom copy at app/wecom.py:208-237 is the same) |
| Chat.SingleWordResolves | app/feishu.py:255-273 | a single lower-case word resolves to the command it names, else to help when it starts with a slash, else to nothing |
| Chat.FirstWordDecides | app/feishu.py:247-262 | a command word followed by more text still resolves to that command |
| Chat.ResolveByFirstWord | app/feishu.py:247-262 | when the first word of the stripped lower-cased text names a command, that command is the answer |
| Chat.ResolveRun | app/feishu.py:250-256 | `/run` resolves to run |
| Chat.CaseBlind | app/feishu.py:247 | two texts with the same stripped lower-cased form resolve to the same command |
| Chat.CutPoint | app/feishu.py:286-288 | the cut lies between 1 and the limit: at the last newline before the limit unless that is in the first third |
| Chat.Cut | app/feishu.py:286-292 | one cut gives a stripped head and a strictly shorter stripped rest, split at the cut point |
| Chat.CutOnce | app/feishu.py:286-292 | the loop body computes exactly the cut |
| Chat.SplitText | app/feishu.py:276-295 | the split loop returns exactly the chunks specified by Chunks, whose properties ChunksProperties states (the WeCom copy at app/wecom.py:186-205 is the same) |
| Chat.ChunksOfStep | app/feishu.py:285-292 | one loop iteration keeps the non-empty head and continues with the rest |
| Chat.ChunksOfShape | app/feishu.py:283-295 | every chunk is non-empty, stripped and within the limit |
| Chat.LongTextSplits | app/feishu.py:283-295 | a text longer than the limit gives at least two chunks |
| Chat.ChunksOfKeepText | app/feishu.py:283-295 | the chunks, joined, hold all the text's non-whitespace characters in order |
| Chat.VisibleCut | app/feishu.py:289-292 | a cut loses only whitespace |
| Chat.ChunksProperties | app/feishu.py:276-295 | blank content gives no chunk, content that fits gives itself stripped, longer content at least two chunks, every chunk non-empty and within the limit, and no non-whitespace character lost or reordered |
| Chat.Evict | app/feishu.py:305-306 | at most 1000 keys remain after evicting the oldest |
| Chat.SeenStepBounded | app/feishu.py:298-307 | the event cache keeps at most 1000 distinct keys |
| Chat.SeenStepRecords | app/feishu.py:298-307 | an empty id is never seen nor recorded; a non-empty id is seen exactly when cached, and afterwards is cached so a repeat is seen |
| Chat.SeenStepEvictsOldest | app/feishu.py:304-306 | a full cache drops its oldest key to admit a new one |
| Chat.EventCache.Seen | app/feishu.py:298-307 | `_seen_event` updates the cache as SeenStep specifies and keeps it bounded and distinct (the WeCom copy at app/wecom.py:282-291 is the same) |
| Chat.ExpireAt | app/feishu.py:79-80 | a fetched token expires no earlier than 300 seconds from now and no earlier than its lifetime less 120 seconds |
| Chat.TokenReused | app/feishu.py:59-64 | a cached token with at least a minute left is returned without a request |
| Chat.FreshTokenLasts | app/feishu.py:49-85 | a freshly fetched token is reused without a request for at least the next 240 seconds |
| Chat.TokenFailureKeepsCache | app/feishu.py:66-85 | a failed fetch leaves the cache unchanged; a success leaves the returned token cached, and a fetched token is non-empty |
| Chat.TokenCache.Get | app/feishu.py:49-85 | the token lookup returns the answer and leaves the cache that TokenStep specifies (the WeCom copy at app/wecom.py:47-86 works the same way) |
| Chat.TokenCache.Clear | app/feishu.py:88-91 | clearing removes exactly the one key |
| Chat.SendOnce | app/feishu.py:135-178 | one send gets a token, posts, and forgets the token when the post is not accepted, as SendStep specifies |
| Chat.FailedSendClearsToken | app/feishu.py:156-177 | after a rejected post the token is no longer cached, so the next attempt fetches a new one |
| Chat.SendFromBounds | app/feishu.py:115-128 | at most one attempt per wait, at least one, and a sleep exactly before each attempt whose wait is positive |
| Chat.SendFromStops | app/feishu.py:117-127 | an attempt that succeeds or raises ends the send loop |
| Chat.SendFromGoesOn | app/feishu.py:117-128 | an attempt that fails quietly moves on to the next wait |
| Chat.Send | app/feishu.py:94-132 | the send loop over the initial attempt and the retries gives the result, attempt count, sleeps and token cache that SendFrom specifies |
| Feishu.FindChar | app/feishu.py:22 | a found index lies inside the text |
| Feishu.FindClose | app/feishu.py:22 | a found closing tag lies wholly inside the text |
| Feishu.MentionLength | app/feishu.py:22 | a mention tag at the start of the text is at least nine characters and fits in the text |
| Feishu.RemoveMentions | app/feishu.py:239-240 | removing mention tags never lengthens the text |
| Feishu.RemoveMentionsPlain | app/feishu.py:239-240 | text without `<` passes through the tag removal unchanged |
| Feishu.FindCloseFirst | app/feishu.py:22 | the closing-tag search finds the first `</at>`, as the non-greedy `.*?` does |
| Feishu.MentionTagLength | app/feishu.py:22 | the tag pattern matches a well-formed mention tag exactly, no more and no less |
| Feishu.MentionRemoved | app/feishu.py:239-240 | a well-formed mention tag after tag-free text is removed and the text around it is kept |
| Feishu.MentionDropped | app/feishu.py:239-240 | a well-formed mention tag at the start is dropped whole |
| Feishu.MentionThenWord | app/feishu.py:239-241 | a mention followed by a space and a word leaves just the word |
| Feishu.MentionThenCommand | app/feishu.py:239-273 | a mention followed by a command word resolves to that command |
| Feishu.ElementPart | app/feishu.py:190-200 | one post element contributes at most one part, and every part is non-empty and stripped |
| Feishu.ContentParts | app/feishu.py:183-200 | every part gathered from a post content is non-empty and stripped |
| Feishu.ExtractContent | app/feishu.py:182-201 | the extracted text of a post content is stripped |
| Feishu.JoinOfParts | app/feishu.py:201 | non-empty stripped parts joined by single spaces have no outer whitespace and are non-empty when there are parts |
| Feishu.ContentIsJoinedParts | app/feishu.py:182-201 | the post content's text is exactly its parts joined by single spaces, and empty exactly when there are no parts |
| Feishu.FirstNonEmpty | app/feishu.py:203-214 | empty exactly when every candidate text is empty |
| Feishu.FirstNonEmptyIsFirst | app/feishu.py:203-214 | a non-empty answer is one of the candidate texts and every candidate before it is empty |
| Feishu.PostText | app/feishu.py:181-214 | the text of a post is stripped |
| Feishu.PostTextIsFirstCandidate | app/feishu.py:203-214 | the text of a post is the first non-empty text among its own content (when it has a `content` key) and then its zh_cn, en_us and ja_jp contents |
| Feishu.MessageText | app/feishu.py:217-236 | extracted message text is stripped; an error arises only for a text message whose content is JSON but not an object |
| Feishu.TextContent | app/feishu.py:223-227 | the text of a text message's content is stripped |
| Feishu.PostContent | app/feishu.py:229-236 | the text of a post message's content is stripped |
| Feishu.TextOfTextMessage | app/feishu.py:223-225 | a text message whose content is a JSON object yields its stripped `text` field |
| Feishu.MentionedWordExtracted | app/feishu.py:490 | a text message `<at …>name</at> word` reads as the word alone |
| Feishu.ReplyTargets | app/feishu.py:361-366 | one or two targets: the chat under the configured id type and, when known, the sender's open id; the sender's open id comes first in a one-to-one chat, the chat first otherwise, and no target is repeated |
| Feishu.FirstDelivered | app/feishu.py:368-398 | the index found is that of the first target delivered to, and none means no target was delivered to |
| Feishu.SendReply | app/feishu.py:352-398 | the reply succeeds exactly when some target accepts it, and the targets tried are those up to and including the first that accepts, or all of them |
| Feishu.TryInOrder | app/feishu.py:368-398 | the loop stops at the first target that accepts, having tried exactly the targets before it |
| Feishu.FirstDeliveredAt | app/feishu.py:368-380 | a target that accepts after only refusals is the one the reply stops at |
| Feishu.PushText | app/feishu.py:94-132 | missing credentials, then a missing receive id, are refused before any attempt, sleep or token change; otherwise the send loop runs over the first attempt and the retries |
| Feishu.FirstTruthy | app/feishu.py:471 | the sender id is the first truthy of open_id, user_id and union_id, or empty |
| Feishu.Deliver | app/feishu.py:469-567 | a delivered message gives at most one reply and at most one pipeline run, a run always with the run acknowledgement, and the response is accepted |
| Feishu.Respond | app/feishu.py:490-567 | an error extracting the text is raised with no reply or run; otherwise at most one reply and at most one run |
| Feishu.Answer | app/feishu.py:491-567 | the response is accepted; a run is requested exactly for the run command; an unknown command gets the hint only in a one-to-one chat with non-empty text; a known command gets exactly one reply through the reply targets |
| Feishu.Handle | app/feishu.py:438-567 | URL verification echoes the challenge, a bad token is rejected, the event cache changes only by recording the event id, and at most one reply and one run result |
| Feishu.HandleEvent | app/feishu.py:438-567 | the handler against the shared event cache computes Handle and keeps the cache bounded |
| Feishu.NewEventDelivered | app/feishu.py:464-467 | a new event id that passes the checks is delivered |
| Feishu.AddressedMessageAnswered | app/feishu.py:472-491 | a message from an allowed sender, with a chat id and addressed to the bot, is answered from its extracted text |
| Feishu.MentionedCommandAnswered | app/feishu.py:438-567 | a new authentic message `<at …>name</at> word` from an allowed sender is answered as the word alone would be |
| Feishu.GroupRunAcknowledged | app/feishu.py:484-565 | `<at …>bot</at> /run` in a group gives one acknowledgement through the reply targets and one background run for that chat |
| Feishu.RunAnswered | app/feishu.py:547-565 | the run command gives the acknowledgement and one run request |
| Feishu.GroupWithoutMentionIgnored | app/feishu.py:484-488 | when mentions are required, a group message without mentions or an `<at` tag gets no reply and no run |
| Feishu.RedeliveryIgnored | app/feishu.py:464-467 | a redelivered event with a recorded non-empty id is a duplicate, with no reply, no run and no cache change |
| Wecom.Repeat | app/wecom.py:315 | n copies of the byte |
| Wecom.Pad | app/wecom.py:310-315 | the padded data is a whole number of 32-byte blocks, starts with the data, adds 1 to 32 bytes, each equal to the number added |
| Wecom.Unpad | app/wecom.py:299-307 | succeeds exactly on well-padded data and then returns the data without its padding; empty data is refused as invalid |
| Wecom.UnpadPad | app/wecom.py:299-315 | unpadding undoes padding |
| Wecom.BigEndian32 | app/wecom.py:348 | a length packs to four bytes |
| Wecom.ReadBigEndian32 | app/wecom.py:337 | four bytes read back as a number below 2^32 |
| Wecom.ReadBigEndian32Packed | app/wecom.py:337-348 | reading back a packed length gives the length |
| Wecom.Unframe | app/wecom.py:337-339 | unframing succeeds exactly when there are at least 20 bytes, and the message and receiver are what follows the length |
| Wecom.UnframeFrame | app/wecom.py:337-351 | unframing a frame with a 16-byte random prefix gives back the message and the receiver |
| Wecom.SignatureSymmetric | app/wecom.py:294-296 | the signature does not depend on the order of its four arguments, since they are sorted first |
| Wecom.NewCrypto | app/wecom.py:319-325 | a missing token, key or corp id is refused; otherwise the token and corp id are kept and the IV is the key's first 16 bytes |
| Wecom.Decrypt | app/wecom.py:327-342 | a wrong signature is refused before anything is decrypted, and a success implies the signature matched |
| Wecom.OtherReceiverRejected | app/wecom.py:339-341 | a message framed for another receiver is refused as a corp id mismatch |
| Wecom.Seals | app/wecom.py:344-363 | the envelope carries the nonce, the given timestamp or the clock's when none is given, and the signature of the token, timestamp, nonce and ciphertext |
| Wecom.Encrypt | app/wecom.py:344-363 | encryption succeeds exactly when the envelope can be sealed |
| Wecom.OpenedSealed | app/wecom.py:336-351 | opening what was padded and framed for the corp gives the plain text back |
| Wecom.DecryptEncrypted | app/wecom.py:332-363 | decrypting the fields of an envelope made by encrypt gives the plain text back, whatever the random prefix, nonce and timestamp |
| Wecom.Pushing | app/wecom.py:95-144 | an empty recipient is refused before any attempt; missing credentials are refused on the first attempt |
| Wecom.PushingBounds | app/wecom.py:126-141 | at most one attempt per wait and a sleep exactly before each attempt whose wait is positive |
| Wecom.PushMessage | app/wecom.py:95-183 | the push against the shared token cache gives the result, attempts, sleeps and cache that Pushing specifies |
| Wecom.SendReply | app/wecom.py:394-414 | the reply is one push without retries, delivered exactly when that push succeeds, an exception counting as not delivered |
| Wecom.EncryptedOf | app/wecom.py:386-391 | the encrypted field, when accepted, is non-empty |
| Wecom.UrlVerification | app/wecom.py:366-374 | the echo string is decrypted only with complete crypto settings |
| Wecom.EventIdOf | app/wecom.py:469 | a non-empty message id is the event id |
| Wecom.Respond | app/wecom.py:474-554 | the answer is always success, with at most one reply, to the sender, and at most one run, a run always with the acknowledgement |
| Wecom.React | app/wecom.py:479-554 | the answer is success with at most one reply, to the sender, and at most one run, a run always with the acknowledgement |
| Wecom.OnEvent | app/wecom.py:479-488 | an event gets at most one reply, to its sender, and starts no run |
| Wecom.Answer | app/wecom.py:493-554 | a text gets exactly one reply to its sender; a run exactly for the run command, then with the acknowledgement; the hint for text naming no command |
| Wecom.Dispatch | app/wecom.py:469-554 | a decrypted message gives at most one reply and at most one run |
| Wecom.Handle | app/wecom.py:449-554 | a callback that cannot be opened raises, with no reply, no run and no change to the event cache; otherwise at most one reply and one run |
| Wecom.HandleEvent | app/wecom.py:449-554 | the handler against the shared event cache computes Handle and keeps the cache bounded |
| Wecom.SealedCallbackReceived | app/wecom.py:464-467 | a callback sealed by encrypt for this corp under the configured token and key is opened to the message it carries |
| Wecom.RedeliveryIgnored | app/wecom.py:469-472 | a message whose id was already recorded is acknowledged with no reply and no run |
| Wecom.NonTextIgnored | app/wecom.py:490-491 | messages other than events and text get no reply |
| Wecom.TextAnswered | app/wecom.py:493-554 | a text from a user is answered from its stripped content with exactly one reply |
| Wecom.EnterAgentHelped | app/wecom.py:479-488 | an enter_agent event from a user gets the help text |
| Wecom.UnknownTextHinted | app/wecom.py:494-502 | text naming no command gets the hint and nothing runs |
| Wecom.RunAcknowledged | app/wecom.py:538-552 | a text naming the run command gives one acknowledgement to the user and one background run for them |
| Config.MatchAt | app/config.py:13 | a reference found at the start of a text spans at least one character and no more than the text |
| Config.ResolveNoDollar | app/config.py:16-25 | a string without `$` resolves to itself |
| Config.MatchPlain | app/config.py:13 | `${NAME}` at the start of a text is a reference to NAME without a default, three characters longer than NAME |
| Config.MatchDefault | app/config.py:13 | `${NAME:-default}` at the start of a text is a reference to NAME with that default |
| Config.ResolvePlain | app/config.py:16-25 | `${NAME}` becomes the variable's value, or "" when it is unset or empty, and the rest is resolved on |
| Config.ResolveWithDefault | app/config.py:16-25 | `${NAME:-default}` becomes the value when it is set and non-empty, else the default |
| Config.NotANameVerbatim | app/config.py:13-25 | `${` followed by a character that cannot start a name is copied as it is |
| Config.MatchUnclosed | app/config.py:13 | `${NAME:-default` with no closing brace is not a reference |
| Config.UnclosedVerbatim | app/config.py:16-25 | an unclosed reference without `$` in it is copied as it is |
| Config.InlineVariableExample | tests/test_config.py:6-26 | `${RSSHUB_BASE_URL}/huxiu/search/AI` with the variable set to `http://127.0.0.1:1200` resolves to `http://127.0.0.1:1200/huxiu/search/AI` |
| Config.DefaultValueExample | tests/test_config.py:29-49 | with the variable unset, `${RSSHUB_BASE_URL:-http://0.0.0.0:1200}/huxiu/search/AI` resolves to `http://0.0.0.0:1200/huxiu/search/AI` |
| Config.ResolveKeepsShape | app/config.py:28-35 | resolving a document keeps its shape: same keys in the same order, same list lengths, same scalars other than strings |
| Config.ResolveDollarFree | app/config.py:28-35 | a document without `$` in any string is left exactly as it is |
| Config.GetFinds | app/config.py:56 | `raw.get` finds a key exactly when some entry has it, with that entry's value |
| Config.EnabledFails | app/config.py:57 | filtering fails exactly when some listed entry is not a mapping (`item.get` raises) |
| Config.EnabledExactly | app/config.py:57 | otherwise an entry is kept exactly when it is a mapping whose `enabled` is missing or truthy |
| Config.EnabledAppend | app/config.py:57 | the filter keeps the entries' order: filtering a concatenation concatenates the results |
| Config.NoSourcesKey | app/config.py:53-57 | an empty document, or one without `sources`, gives no sources |
| EnvUtils.Unquote | app/env_utils.py:20-21 | a value wrapped in matching double or single quotes loses exactly the outer pair (a lone quote becomes ""); any other value is kept |
| EnvUtils.ParsedShape | app/env_utils.py:7-22 | every parsed line yields a non-empty key that is stripped and holds no `=` |
| EnvUtils.BlankOrCommentIgnored | app/env_utils.py:8-10 | a line that is blank or starts with `#` after stripping sets nothing |
| EnvUtils.ParseRoundTrip | app/env_utils.py:7-22 | `key=value` with a plain key and a stripped, unquoted value parses back to exactly `(key, value)` |
| EnvUtils.ParseExported | app/env_utils.py:11-12 | the same line behind `export ` parses to the same pair |
| EnvUtils.ParseQuoted | app/env_utils.py:19-21 | a value wrapped in a matching pair of quotes parses to the value inside them |
| EnvUtils.EmptyKeyIgnored | app/env_utils.py:15-18 | a line whose text before `=` is empty sets nothing |
| EnvUtils.WithDefault | app/env_utils.py:51 | `setdefault`: the key is present afterwards, existing variables keep their values, a new key gets the given value |
| EnvUtils.SetDefaultsAppend | app/env_utils.py:46-51 | applying two runs of entries one after the other is applying their concatenation |
| EnvUtils.SetDefaultsKeeps | app/env_utils.py:51 | a variable set before loading is never overwritten |
| EnvUtils.SetDefaultsKeys | app/env_utils.py:46-51 | the variables afterwards are those set before plus the keys the entries name |
| EnvUtils.SetDefaultsFirst | app/env_utils.py:46-51 | a key unset before gets the value of the first entry naming it |
| EnvUtils.LoadedRepeats | app/env_utils.py:38-43 | a candidate listed again contributes nothing: each resolved path is read at most once |
| EnvUtils.LoadedStep | app/env_utils.py:39-43 | one more candidate adds its file's entries unless its resolved path was seen |
| EnvUtils.Candidates | app/env_utils.py:26-36 | the working directory's `.env` comes first; with a reference path, its parent's and grandparent's follow |
| EnvUtils.Environ.SetDefault | app/env_utils.py:51 | the environment afterwards is `WithDefault` of the one before |
| EnvUtils.Environ.LoadLines | app/env_utils.py:46-51 | the environment afterwards is the one before with the lines' parsed entries applied in order |
| EnvUtils.Environ.LoadFile | app/env_utils.py:44-51 | the environment afterwards is the one before with the file's entries applied |
| EnvUtils.Environ.LoadLocalEnv | app/env_utils.py:25-51 | the environment afterwards is the one before with the entries of each distinct resolved candidate applied in candidate order |
| EnvUtils.EarlierFileWins | app/env_utils.py:38-51 | the first file that sets a key decides its value: a later file never changes it |
| Rsshub.RemoveUnsafe | app/rsshub_bootstrap.py:16 | `urlsplit` removes tab, CR and LF: none is left, and a text without them is unchanged |
| Rsshub.Port | app/rsshub_bootstrap.py:22 | a port that `parsed.port` returns is at most 65535 |
| Rsshub.PortOr80 | app/rsshub_bootstrap.py:22 | `parsed.port or 80`: never 0, and any non-zero port is kept |
| Rsshub.DetectLocalRsshub | app/rsshub_bootstrap.py:14-24 | the loop returns what `Detect` gives for the sources' URLs in order |
| Rsshub.DetectFirst | app/rsshub_bootstrap.py:15-23 | a hit or an exception is what the first URL that is not skipped gives, and every earlier URL is skipped |
| Rsshub.DetectNone | app/rsshub_bootstrap.py:15-24 | nothing is found exactly when every URL is skipped |
| Rsshub.DetectAt | app/rsshub_bootstrap.py:15-23 | the first URL that is not skipped decides the result |
| Rsshub.SplitPlain | app/rsshub_bootstrap.py:16 | `scheme://host[:port]path` splits into that scheme, that network location and that path, with no query or fragment |
| Rsshub.HostOf | app/rsshub_bootstrap.py:17 | the hostname of `host[:port]` is the host |
| Rsshub.PortOf | app/rsshub_bootstrap.py:22 | its port is none, the number, or a `ValueError` above 65535 |
| Rsshub.LocalHit | app/rsshub_bootstrap.py:16-23 | a local host on a `/huxiu/` or `/freewechat/` route gives that host and its port, 80 when there is none or it is 0 |
| Rsshub.ForeignSkipped | app/rsshub_bootstrap.py:17-19 | a host other than 127.0.0.1, localhost and 0.0.0.0 is skipped |
| Rsshub.EnsureRsshub | app/rsshub_bootstrap.py:27-45 | an exception exactly when detection raised; a script run exactly when a local source was found and the script exists; the run's command is the script path |
| Rsshub.ScriptEnvDefaults | app/rsshub_bootstrap.py:38-40 | the script's environment is the process's, plus `RSSHUB_HOST` and `RSSHUB_PORT` from the target where they were unset |
| Rsshub.LocalSourceLaunches | tests/test_rsshub_bootstrap.py:5-25 | a source at `http://0.0.0.0:1200/huxiu/search/AI` runs the script with host `0.0.0.0` and port `1200` |
| Rsshub.ForeignSourceIdle | tests/test_rsshub_bootstrap.py:28-43 | a source at `https://example.com/rss.xml` runs nothing |

## Left out

- Network, clocks, randomness and libraries are parameters. This covers HTTP requests and their timeouts, `os.urandom`, `time.time` and `datetime.now`, SHA-1, SHA-256, MD5, AES-CBC, base64, UTF-8 coding, `SequenceMatcher.ratio`, `urljoin`, `urlsplit`/`parse_qsl`, `html.unescape`, `dateutil`'s fuzzy parser, BeautifulSoup selection, feedparser, JSON and XML decoding, and YAML parsing. The model states what the code does with their results, not how they compute them.
- Threads and locks are left out. `collect_all_sources` is modelled sequentially, in source order, which is one of the completion orders the thread pool can produce. `raw_items` is extended in completion order, so the run's result can depend on that order in three ways. First, when items of two sources fail `urlsplit` with different messages ("Invalid IPv6 URL", "An IPv4 address cannot be in brackets", the IPvFuture error), the first one reached ends the run, and is logged and alerted. Second, `dedupe_items`' stable sort keeps completion order among items with equal `(source_weight, discovered_at)`, so the order decides which near-duplicate survives. Third, when two sources share a name, the order decides which error message is kept. The model fixes source order in each case.
- The locks around the event and token caches are left out, since the model runs one call at a time.
- FastAPI background tasks are left out. `_run_pipeline_and_reply` is represented by the run request the handlers emit; its chunked reply of the finished brief is not modelled.
- `_format_latest_summary` and `_format_status_summary` read the archive directory and the settings. Their texts are parameters of the handlers.
- `archive_brief` and the writing of archive files are not part of this model. Neither is `_build_llm_client`'s choice of provider: the language model is a parameter.
- `load_settings` and `load_sources` are modelled only as environment substitution and the enabled filter. Pydantic validation, the creation of the data and archive directories, and path resolution are left out.
- `ensure_rsshub_for_sources` is modelled as the decision to launch the start-up script and the environment it would get. The subprocess itself and its log warnings are left out.
- `urlsplit`'s validation of bracketed IPv6 hosts is a parameter, and its `ValueError` an `Err` that `canonicalize_url`, `normalize_items` and the run pass on. Its NFKC check of the network location is left out.
- Python's `str.lower` is modelled on ASCII letters only; other characters are kept. The same holds for hostnames and for `re.IGNORECASE`.
- The regular-expression `\b` after `<at` is approximated. A word character is an ASCII letter, digit or `_`, or any non-ASCII character that is not whitespace.
- `int()` is modelled on ASCII decimal numerals with an optional sign. Underscore separators and non-ASCII digits are left out.
- JSON floats and Python's `repr` of values are left out. A non-string JSON value is shown by a parameter.
- A Feishu payload's `header`, `event.sender.sender_id` and `event.message` are taken as dictionaries, a missing one as empty. A value of another type, on which the code raises `AttributeError`, is left out.
- Feishu.ElementPart: a list or dictionary as a post element's `tag` raises `TypeError` in the code. The model treats it as an unknown tag.
- Chat.TokenStep: the fetched token is taken already stripped from the authentication reply.
- Models.Settings: `http_proxy` is taken from its reader (app/pipeline.py:161), defaulting to the empty text; `Settings` in `app/models.py` does not declare it, which is the first half of the models finding.
- Models.SourceConfig: the date, author, container, keyword, account id, redirect and publisher-split fields and the `wechat_profile` type are taken from their readers in `app/collector.py` (lines 302, 310, 360, 473, 586-671 and 713); `SourceConfig` in `app/models.py` declares none of them.
- Wecom.Config: `Settings` in `app/models.py` does not declare the `wecom_*` fields the WeCom handlers read. The model passes them as a separate configuration record.
- Ranker.RankItems: the score is not rounded to four decimals, and `rank_reason` is left empty. Formatting reals to two decimals is not modelled.
- Pipeline.RunDailyPipeline: the run uses one clock reading for the ledger's timestamps and `created_at`, where the code reads the clock several times. Metrics values are JSON values without floats. The run delivers the corrected brief with the corrected settings; as written, every run fails on `http_proxy` (see Findings). The failure alerts are returned as (receiver, text) pairs rather than posted.
- Deduper.NormalizeTitle: `\w` is read as ASCII letters, ASCII digits, `_` and the CJK range U+4E00..U+9FFF. Python's Unicode `\w` also keeps every other letter and digit, so "Café" normalises to "café" in the code and to "caf" here.
- TimeParse.ExtractDateSnippet: `\d` in the date patterns is read as the ASCII digits 0 to 9. Python's Unicode `\d` also matches other decimal digits, such as full-width ones. The same holds for the relative, Chinese-date and timestamp patterns of TimeParse.
- Normalizer.UrlEncode: the query pairs are joined with `=` and `&` without `quote_plus`. The code escapes spaces as `+` and `&`, `=`, `%` and non-ASCII characters as `%XX`, so two different query lists can share a canonical URL only in the model.
- Pipeline.BriefItemOf: the brief items carry `importance` "medium" and an empty `insight`, the defaults the renderer evidently expects. `BriefItem` in `app/models.py` declares neither, so as written the first rendered item raises `AttributeError`; see Findings.
- Pipeline.BuildBrief: builds the corrected brief items of Pipeline.BriefItemOf; see Findings for the code as written.
- Pipeline.Publish: renders and pushes the corrected brief. As written, rendering a brief with items raises before any push; Pipeline.DeliveryAsWritten models that path.
- Pipeline.Prepare: computes the corrected delivery; Pipeline.AsWrittenRunFails and Pipeline.AsWrittenBriefFails state what the code as written does.
- Calendar: sub-second precision and time zones other than UTC are left out. The brief's local date is a parameter of the run.

## Findings

| source | as written | input that shows it | evidently intended | confidence | as-written member | corrected member |
|---|---|---|---|---|---|---|
| app/collector.py:191-196 | a relative expression with a huge count makes `ref - delta` leave the `datetime` range. The `OverflowError` escapes `_parse_html_date` and fails the whole source | "1000000天前" with the reference 2026-02-24 12:00 UTC | text whose relative delta leaves the datetime range names no instant, like any other unparsable date | not executed | TimeParse.ParseHtmlDateAsWritten (shown by TimeParse.MillionDaysExample and TimeParse.RelativeAnswer) | TimeParse.ParseHtmlDate |
| app/models.py:51-110 | `app/models.py` is behind the code that uses it. `Settings` declares no `http_proxy`, yet the run reads `settings.http_proxy` as the first statement of its `try` block (app/pipeline.py:161). `BriefItem` declares neither `importance` nor `insight`, yet `render_markdown` reads `item.importance` (app/publisher.py:50). `SourceConfig` declares neither the collector fields nor the `wechat_profile` type. So every run raises `AttributeError` before collecting anything, logs "failed" and sends the alerts, while the integration tests expect a brief | any run, e.g. one with no sources and push disabled | the models declare every field their readers use: `Settings.http_proxy` (default empty), `BriefItem.importance` (default "medium") and `insight` (default empty), and the `SourceConfig` fields the collectors read | not executed | Pipeline.ReadProxy and Pipeline.TryAsWritten over Pipeline.DeclaredSettingsFields (shown by Pipeline.AsWrittenRunFails, and for `BriefItem` alone by Pipeline.AsWrittenBriefFails) | Models.Settings, Models.BriefItem and Models.SourceConfig with Pipeline.Proxy and Pipeline.BriefItemOf (shown by Pipeline.CorrectedItemRenders and Pipeline.CorrectedRunDelivers) |
