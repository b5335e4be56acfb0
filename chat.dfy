/**
 * What the Feishu and WeCom integrations share.  Both modules carry their
 * own, identical copies of command resolution, reply chunking, the
 * event-id cache, the access-token cache and the send-with-retries loop;
 * the model states each once.
 */
module Chat {
  import opened Wrappers
  import opened Text
  import Publisher

  // ---------------------------------------------------------------------------
  // Commands

  datatype Command = Run | Latest | Status | Help

  const RunWords: set<string> := {"/run", "run", "运行日报", "执行日报", "生成日报"}
  const LatestWords: set<string> := {"/latest", "latest", "最新日报", "查看日报", "日报"}
  const StatusWords: set<string> := {"/status", "status", "状态", "运行状态", "健康检查"}
  const HelpWords: set<string> := {"/help", "help", "帮助", "菜单", "命令"}

  /** The command a word names in the four tables (which are disjoint). */
  function Named(w: string): (r: Option<Command>)
    ensures r == Some(Run) <==> w in RunWords
    ensures r == Some(Latest) <==> w in LatestWords
    ensures r == Some(Status) <==> w in StatusWords
    ensures r == Some(Help) <==> w in HelpWords
  {
    if w in RunWords then Some(Run)
    else if w in LatestWords then Some(Latest)
    else if w in StatusWords then Some(Status)
    else if w in HelpWords then Some(Help)
    else None
  }

  /** `normalized.split()[0] if normalized else ""`. */
  function FirstWord(s: string): (r: string)
    ensures r != "" ==> NoSpace(r)
  {
    var ws := Words(s);
    if ws == [] then "" else ws[0]
  }

  /**
   * `_resolve_command`: the first word of the stripped, lower-cased text
   * names the command, else the whole text does; an unknown word starting
   * with `/` asks for help; anything else is no command.
   */
  function ResolveCommand(text: string): (r: Option<Command>)
    ensures text == "" ==> r == None
  {
    if text == "" then None else ResolveNormalized(Lower(Strip(text)))
  }

  /** The resolution of the stripped, lower-cased text. */
  function ResolveNormalized(normalized: string): Option<Command> {
    var token := FirstWord(normalized);
    if Named(token).Some? then Named(token)
    else if Named(normalized).Some? then Named(normalized)
    else if StartsWith(token, "/") then Some(Help)
    else None
  }

  /** A single word with no space splits to itself. */
  lemma WordsOfWord(w: string)
    requires w != [] && NoSpace(w)
    ensures Words(w) == [w]
  {
    WordsOfWordThenSpace(w, []);
    assert w + [] == w;
    assert Words([]) == [] by { assert LeadCount([], IsSpace) == 0; }
  }

  /**
   * A single lower-case word resolves by itself: to the command it names,
   * else to help when it starts with `/`, else to nothing.
   */
  lemma {:induction false} SingleWordResolves(w: string)
    requires w != [] && NoSpace(w) && Lower(w) == w
    ensures ResolveCommand(w) == if Named(w).Some? then Named(w) else if StartsWith(w, "/") then Some(Help) else None
  {
    assert !IsSpace(w[0]) && !IsSpace(w[|w| - 1]);
    StripUnchanged(w);
    WordsOfWord(w);
    assert FirstWord(Lower(Strip(w))) == w;
  }

  /** The first word decides even when more words follow: `运行日报 now` runs. */
  lemma {:induction false} FirstWordDecides(w: string, rest: string)
    requires w != [] && NoSpace(w) && Lower(w) == w && Named(w).Some?
    requires rest != [] && !IsSpace(rest[|rest| - 1])
    ensures ResolveCommand(w + " " + rest) == Named(w)
  {
    var tail := " " + Lower(rest);
    StripOfWords(w, rest);
    LowerOfWords(w, rest);
    WordsOfWordThenSpace(w, tail);
    ResolveByFirstWord(w + " " + rest, w);
  }

  lemma StripOfWords(w: string, rest: string)
    requires w != [] && NoSpace(w)
    requires rest != [] && !IsSpace(rest[|rest| - 1])
    ensures Strip(w + " " + rest) == w + " " + rest
  {
    var s := w + " " + rest;
    assert s[0] == w[0] && s[|s| - 1] == rest[|rest| - 1];
    assert !IsSpace(w[0]);
    StripUnchanged(s);
  }

  lemma LowerOfWords(w: string, rest: string)
    requires Lower(w) == w
    ensures Lower(w + " " + rest) == w + (" " + Lower(rest))
  {
    assert w + " " + rest == w + (" " + rest);
    LowerAppend(w, " " + rest);
    LowerAppend(" ", rest);
    assert Lower(" ") == " ";
  }

  /** When the first word of the normalized text names a command, that is the command. */
  lemma ResolveByFirstWord(text: string, w: string)
    requires text != "" && FirstWord(Lower(Strip(text))) == w && Named(w).Some?
    ensures ResolveCommand(text) == Named(w)
  {
  }

  /** `/run` runs. */
  lemma ResolveRun()
    ensures ResolveCommand("/run") == Some(Run)
  {
    var w := "/run";
    assert Lower(w) == w;
    SingleWordResolves(w);
  }

  /** Only the stripped, lower-cased text matters. */
  lemma CaseBlind(a: string, b: string)
    requires a != "" && b != "" && Lower(Strip(a)) == Lower(Strip(b))
    ensures ResolveCommand(a) == ResolveCommand(b)
  {
  }

  // ---------------------------------------------------------------------------
  // Chunking long replies

  /** `s` has no whitespace at either end, as `strip()` leaves it. */
  predicate Stripped(s: string) {
    s == [] || (!IsSpace(s[0]) && !IsSpace(s[|s| - 1]))
  }

  lemma StripIsStripped(s: string)
    ensures Stripped(Strip(s))
  {
  }

  /** Where a text longer than `maxChars` is cut: at the last newline before `maxChars`, unless that lies in the first third. */
  function CutPoint(remaining: string, maxChars: int): (at: int)
    requires 1 <= maxChars < |remaining| && Stripped(remaining)
    ensures 1 <= at <= maxChars
  {
    var nl := RFindChar(remaining, '\n', maxChars);
    if nl < maxChars / 3 then maxChars else nl
  }

  /** One cut of a text longer than `maxChars`: the stripped head (possibly empty) and the stripped rest. */
  function Cut(remaining: string, maxChars: int): (r: (string, string))
    requires 1 <= maxChars < |remaining| && Stripped(remaining)
    ensures |r.1| < |remaining| && Stripped(r.1) && Stripped(r.0)
    ensures r.0 == Strip(remaining[..CutPoint(remaining, maxChars)])
    ensures r.1 == Strip(remaining[CutPoint(remaining, maxChars)..])
  {
    var at := CutPoint(remaining, maxChars);
    StripIsStripped(remaining[..at]);
    StripIsStripped(remaining[at..]);
    (Strip(remaining[..at]), Strip(remaining[at..]))
  }

  /** The chunks the loop of `_split_text_for_feishu` / `split_text_for_wecom` makes of a stripped text. */
  function ChunksOf(remaining: string, maxChars: int): (r: seq<string>)
    requires maxChars >= 1 && Stripped(remaining)
    decreases |remaining|
  {
    if |remaining| <= maxChars then (if remaining == "" then [] else [remaining])
    else
      var (chunk, rest) := Cut(remaining, maxChars);
      (if chunk != "" then [chunk] else []) + ChunksOf(rest, maxChars)
  }

  /** The specification of the split: the chunks of the stripped content. */
  function Chunks(content: string, maxChars: int): seq<string>
    requires maxChars >= 1
  {
    StripIsStripped(content);
    ChunksOf(Strip(content), maxChars)
  }

  /** The body of the split loop: cut at the last newline before `maxChars`, or at `maxChars`, and strip both sides. */
  method CutOnce(remaining: string, maxChars: int) returns (chunk: string, rest: string)
    requires 1 <= maxChars < |remaining| && Stripped(remaining)
    ensures (chunk, rest) == Cut(remaining, maxChars)
  {
    var splitAt := RFindChar(remaining, '\n', maxChars);
    if splitAt < maxChars / 3 {
      splitAt := maxChars;
    }
    chunk := Strip(remaining[..splitAt]);
    rest := Strip(remaining[splitAt..]);
  }

  /**
   * `_split_text_for_feishu(content, max_chars)` (and `split_text_for_wecom`):
   * nothing for blank content, the stripped content when it fits, else the
   * cut chunks.  A `max_chars` below 1 makes the source loop forever.
   */
  method SplitText(content: string, maxChars: int) returns (chunks: seq<string>)
    requires maxChars >= 1
    ensures chunks == Chunks(content, maxChars)
  {
    var text := Strip(content);
    StripIsStripped(content);
    if text == "" {
      return [];
    }
    if |text| <= maxChars {
      return [text];
    }
    chunks := [];
    var remaining := text;
    while |remaining| > maxChars
      invariant Stripped(remaining)
      invariant chunks + ChunksOf(remaining, maxChars) == ChunksOf(text, maxChars)
      decreases |remaining|
    {
      var chunk, rest := CutOnce(remaining, maxChars);
      ghost var head := if chunk != "" then [chunk] else [];
      ChunksOfStep(remaining, maxChars);
      Regroup(chunks, ChunksOf(remaining, maxChars), head, ChunksOf(rest, maxChars), ChunksOf(text, maxChars));
      ghost var before := chunks;
      if chunk != "" {
        chunks := chunks + [chunk];
      }
      assert chunks == before + head;
      remaining := rest;
    }
    if remaining != "" {
      chunks := chunks + [remaining];
    }
  }

  /** One cut of the loop: the stripped head, when non-empty, then the chunks of the rest. */
  lemma ChunksOfStep(remaining: string, maxChars: int)
    requires 1 <= maxChars < |remaining| && Stripped(remaining)
    ensures var (chunk, rest) := Cut(remaining, maxChars);
      ChunksOf(remaining, maxChars) == (if chunk != "" then [chunk] else []) + ChunksOf(rest, maxChars)
  {
  }

  /** Moving the head of the remainder onto what is done keeps the whole. */
  lemma Regroup<T>(done: seq<T>, remaining: seq<T>, head: seq<T>, rest: seq<T>, whole: seq<T>)
    requires done + remaining == whole && remaining == head + rest
    ensures (done + head) + rest == whole
  {
  }

  /** Every chunk is non-empty, stripped and at most `maxChars` long. */
  lemma {:induction false} ChunksOfShape(remaining: string, maxChars: int)
    requires maxChars >= 1 && Stripped(remaining)
    ensures forall c :: c in ChunksOf(remaining, maxChars) ==> c != "" && |c| <= maxChars && Stripped(c)
    decreases |remaining|
  {
    if |remaining| > maxChars {
      var (chunk, rest) := Cut(remaining, maxChars);
      assert |chunk| <= maxChars by {
        assert |remaining[..CutPoint(remaining, maxChars)]| <= maxChars;
      }
      ChunksOfShape(rest, maxChars);
    }
  }

  /** A text longer than `maxChars` gives at least two chunks. */
  lemma {:induction false} LongTextSplits(remaining: string, maxChars: int)
    requires maxChars >= 1 && Stripped(remaining) && |remaining| > maxChars
    ensures |ChunksOf(remaining, maxChars)| >= 2
    decreases |remaining|
  {
    var at := CutPoint(remaining, maxChars);
    var (chunk, rest) := Cut(remaining, maxChars);
    var front := remaining[..at];
    var tail := remaining[at..];
    assert chunk != "" by {
      assert !IsSpace(front[0]);
      StripKeepsVisible(front, 0);
    }
    assert rest != "" by {
      assert !IsSpace(tail[|tail| - 1]);
      StripKeepsVisible(tail, |tail| - 1);
    }
    if |rest| > maxChars {
      LongTextSplits(rest, maxChars);
    }
  }

  /** A string with a non-whitespace character does not strip to nothing. */
  lemma StripKeepsVisible(s: string, k: nat)
    requires k < |s| && !IsSpace(s[k])
    ensures Strip(s) != ""
  {
  }

  /** The characters of `s` outside the class `cs`, in order. */
  function Outside(s: string, cs: char -> bool): (r: string)
    ensures |r| <= |s|
  {
    if s == [] then [] else (if cs(s[0]) then [] else [s[0]]) + Outside(s[1..], cs)
  }

  lemma {:induction false} OutsideAppend(a: string, b: string, cs: char -> bool)
    ensures Outside(a + b, cs) == Outside(a, cs) + Outside(b, cs)
  {
    if a == [] {
      assert a + b == b;
    } else {
      assert (a + b)[0] == a[0];
      assert (a + b)[1..] == a[1..] + b;
      OutsideAppend(a[1..], b, cs);
    }
  }

  lemma {:induction false} OutsideOfClass(s: string, cs: char -> bool)
    requires forall k :: 0 <= k < |s| ==> cs(s[k])
    ensures Outside(s, cs) == []
  {
    if s != [] {
      OutsideOfClass(s[1..], cs);
    }
  }

  lemma SliceThree(s: string, i: nat, j: nat)
    requires i <= j <= |s|
    ensures s == s[..i] + s[i..j] + s[j..]
  {
    assert s[..j] == s[..i] + s[i..j];
  }

  /** Cutting characters of the class off both ends keeps what lies outside it. */
  lemma OutsideOfMiddle(s: string, i: nat, j: nat, cs: char -> bool)
    requires i <= j <= |s|
    requires forall k :: 0 <= k < i ==> cs(s[k])
    requires forall k :: j <= k < |s| ==> cs(s[k])
    ensures Outside(s[i..j], cs) == Outside(s, cs)
  {
    var a, m, b := s[..i], s[i..j], s[j..];
    SliceThree(s, i, j);
    assert Outside(a, cs) == [] by { OutsideOfClass(a, cs); }
    assert Outside(b, cs) == [] by { OutsideOfClass(b, cs); }
    assert Outside(a + m, cs) == Outside(m, cs) by { OutsideAppend(a, m, cs); }
    OutsideAppend(a + m, b, cs);
  }

  /** The non-whitespace characters of `s`, in order. */
  function Visible(s: string): string {
    Outside(s, IsSpace)
  }

  lemma VisibleAppend(a: string, b: string)
    ensures Visible(a + b) == Visible(a) + Visible(b)
  {
    OutsideAppend(a, b, IsSpace);
  }

  /** `Strip` as a slice between whitespace ends. */
  lemma StripSlice(s: string) returns (i: nat, j: nat)
    ensures i <= j <= |s| && Strip(s) == s[i..j]
    ensures forall k :: 0 <= k < i ==> IsSpace(s[k])
    ensures forall k :: j <= k < |s| ==> IsSpace(s[k])
  {
    i := LeadCount(s, IsSpace);
    var t := s[i..];
    var b := TrailCount(t, IsSpace);
    j := |s| - b;
    forall k | j <= k < |s| ensures IsSpace(s[k]) {
      assert s[k] == t[k - i];
    }
  }

  /** Stripping drops only whitespace. */
  lemma VisibleStrip(s: string)
    ensures Visible(Strip(s)) == Visible(s)
  {
    var i, j := StripSlice(s);
    OutsideOfMiddle(s, i, j, IsSpace);
  }

  /** The chunks, concatenated. */
  function Concat(chunks: seq<string>): string {
    if chunks == [] then [] else chunks[0] + Concat(chunks[1..])
  }

  lemma {:induction false} ConcatAppend(a: seq<string>, b: seq<string>)
    ensures Concat(a + b) == Concat(a) + Concat(b)
  {
    if a == [] {
      assert a + b == b;
    } else {
      assert (a + b)[0] == a[0];
      assert (a + b)[1..] == a[1..] + b;
      ConcatAppend(a[1..], b);
    }
  }

  /** A cut keeps the text but whitespace. */
  lemma VisibleCut(remaining: string, maxChars: int)
    requires 1 <= maxChars < |remaining| && Stripped(remaining)
    ensures Visible(Cut(remaining, maxChars).0) + Visible(Cut(remaining, maxChars).1) == Visible(remaining)
  {
    var at := CutPoint(remaining, maxChars);
    VisibleStrip(remaining[..at]);
    VisibleStrip(remaining[at..]);
    assert remaining == remaining[..at] + remaining[at..];
    VisibleAppend(remaining[..at], remaining[at..]);
  }

  /** Splitting loses nothing but whitespace and keeps the order of the text. */
  lemma {:induction false} ChunksOfKeepText(remaining: string, maxChars: int)
    requires maxChars >= 1 && Stripped(remaining)
    ensures Visible(Concat(ChunksOf(remaining, maxChars))) == Visible(remaining)
    decreases |remaining|
  {
    if |remaining| <= maxChars {
      if remaining != "" {
        assert [remaining][1..] == [];
        assert Concat([remaining]) == remaining + Concat([]);
        assert remaining + [] == remaining;
      }
    } else {
      var (chunk, rest) := Cut(remaining, maxChars);
      ChunksOfStep(remaining, maxChars);
      ChunksOfKeepText(rest, maxChars);
      VisibleOfHeadThen(chunk, ChunksOf(rest, maxChars));
      VisibleCut(remaining, maxChars);
    }
  }

  /** The visible text of a chunk, when kept, and then of more chunks. */
  lemma VisibleOfHeadThen(chunk: string, tail: seq<string>)
    ensures Visible(Concat((if chunk != "" then [chunk] else []) + tail)) == Visible(chunk) + Visible(Concat(tail))
  {
    var head := if chunk != "" then [chunk] else [];
    ConcatAppend(head, tail);
    VisibleAppend(Concat(head), Concat(tail));
    if chunk != "" {
      assert head[1..] == [];
      assert Concat(head) == chunk + Concat([]);
      assert chunk + [] == chunk;
    } else {
      assert Visible(chunk) == [];
      assert Concat(head) == [];
    }
  }

  /** The properties of the split, for any content. */
  lemma ChunksProperties(content: string, maxChars: int)
    requires maxChars >= 1
    ensures Strip(content) == "" ==> Chunks(content, maxChars) == []
    ensures Strip(content) != "" && |Strip(content)| <= maxChars ==> Chunks(content, maxChars) == [Strip(content)]
    ensures |Strip(content)| > maxChars ==> |Chunks(content, maxChars)| >= 2
    ensures forall c :: c in Chunks(content, maxChars) ==> c != "" && |c| <= maxChars
    ensures Visible(Concat(Chunks(content, maxChars))) == Visible(content)
  {
    StripIsStripped(content);
    ChunksOfShape(Strip(content), maxChars);
    ChunksOfKeepText(Strip(content), maxChars);
    VisibleStrip(content);
    if |Strip(content)| > maxChars {
      LongTextSplits(Strip(content), maxChars);
    }
  }

  // ---------------------------------------------------------------------------
  // Event-id cache

  /** `_EVENT_CACHE_MAX`. */
  const EventCacheMax: nat := 1000

  /** No key occurs twice. */
  predicate Distinct(s: seq<string>) {
    forall i, j :: 0 <= i < j < |s| ==> s[i] != s[j]
  }

  /** The last `EventCacheMax` keys: what `popitem(last=False)` leaves. */
  function Evict(keys: seq<string>): (r: seq<string>)
    ensures |r| <= EventCacheMax
  {
    if |keys| > EventCacheMax then keys[|keys| - EventCacheMax..] else keys
  }

  /**
   * One call of `_seen_event` on the keys in insertion order: whether the
   * id was seen, and the keys afterwards.
   */
  function SeenStep(keys: seq<string>, eventId: string): (r: (bool, seq<string>))
  {
    if eventId == "" then (false, keys)
    else if eventId in keys then (true, keys)
    else (false, Evict(keys + [eventId]))
  }

  /** The cache stays within 1000 distinct keys. */
  lemma SeenStepBounded(keys: seq<string>, eventId: string)
    requires |keys| <= EventCacheMax && Distinct(keys)
    ensures |SeenStep(keys, eventId).1| <= EventCacheMax && Distinct(SeenStep(keys, eventId).1)
  {
  }

  /** An empty id is never seen and never recorded; a new id is not seen but recorded, so the next call sees it. */
  lemma SeenStepRecords(keys: seq<string>, eventId: string)
    ensures eventId == "" ==> SeenStep(keys, eventId) == (false, keys)
    ensures eventId != "" ==> (SeenStep(keys, eventId).0 <==> eventId in keys)
    ensures eventId != "" ==> eventId in SeenStep(keys, eventId).1 && SeenStep(SeenStep(keys, eventId).1, eventId).0
  {
    if eventId != "" && eventId !in keys {
      var full := keys + [eventId];
      assert full[|full| - 1] == eventId;
      assert Evict(full)[|Evict(full)| - 1] == eventId;
    }
  }

  /** A full cache evicts its oldest key to admit a new one. */
  lemma SeenStepEvictsOldest(keys: seq<string>, eventId: string)
    requires |keys| == EventCacheMax && eventId != "" && eventId !in keys
    ensures SeenStep(keys, eventId).1 == keys[1..] + [eventId]
  {
  }

  /** The module-level `_EVENT_CACHE`, an `OrderedDict` used as an insertion-ordered set. */
  class EventCache {
    /** The keys, oldest first. */
    var keys: seq<string>

    ghost predicate Valid()
      reads this
    {
      |keys| <= EventCacheMax && Distinct(keys)
    }

    constructor ()
      ensures keys == [] && Valid()
    {
      keys := [];
    }

    /** `_seen_event(event_id)`. */
    method Seen(eventId: string) returns (dup: bool)
      requires Valid()
      modifies this
      ensures Valid()
      ensures (dup, keys) == SeenStep(old(keys), eventId)
    {
      if eventId == "" {
        return false;
      }
      if eventId in keys {
        return true;
      }
      var full := keys + [eventId];
      keys := full;
      while |keys| > EventCacheMax
        invariant |keys| <= |full| && keys == full[|full| - |keys|..]
        invariant keys == full || |keys| >= EventCacheMax
        decreases |keys|
      {
        keys := keys[1..];
      }
      SeenStepBounded(old(keys), eventId);
      return false;
    }
  }

  // ---------------------------------------------------------------------------
  // Access-token cache

  /**
   * The token endpoint's reply: the HTTP status, the `code` / `errcode`
   * (-1 when absent), the token text as `str(...).strip()` leaves it, and
   * the `expire` / `expires_in` value when present.
   */
  datatype AuthReply = AuthReply(status: int, code: int, token: string, expireIn: Option<int>)

  /** A cached token is reused while it has at least this many seconds left. */
  const ReuseMargin: int := 60

  /** When a token fetched at `now` with lifetime `expireIn` is taken to expire. */
  function ExpireAt(now: int, expireIn: int): (r: int)
    ensures r >= now + 300 && r >= now + expireIn - 120
  {
    now + (if expireIn - 120 > 300 then expireIn - 120 else 300)
  }

  /** `f"{base_url}|{app_id}"`. */
  function CacheKey(appId: string, baseUrl: string): string {
    baseUrl + "|" + appId
  }

  /**
   * One token request at `now` against the cache: the cached token while it
   * has a minute left, else the endpoint's reply, stored with its expiry on
   * success; every failure leaves the cache as it was.
   */
  function TokenStep(entries: map<string, (string, int)>, key: string, now: int, reply: AuthReply)
    : (r: (Result<string>, map<string, (string, int)>))
  {
    if key in entries && entries[key].1 - now >= ReuseMargin then (Ok(entries[key].0), entries)
    else if reply.status != 200 then (Err("auth failed with status"), entries)
    else if reply.code != 0 then (Err("auth failed"), entries)
    else if reply.token == "" then (Err("auth failed: missing token"), entries)
    else
      var token := reply.token;
      (Ok(token), entries[key := (token, ExpireAt(now, reply.expireIn.GetOr(7200)))])
  }

  /** A cached token with a minute left is returned whatever the endpoint would say. */
  lemma TokenReused(entries: map<string, (string, int)>, key: string, now: int, reply: AuthReply)
    requires key in entries && entries[key].1 - now >= ReuseMargin
    ensures TokenStep(entries, key, now, reply) == (Ok(entries[key].0), entries)
  {
  }

  /** A token fetched from the endpoint at `now` is reused, without a request, for at least the next 240 seconds. */
  lemma FreshTokenLasts(entries: map<string, (string, int)>, key: string, now: int, reply: AuthReply,
                        later: int, reply2: AuthReply)
    requires !(key in entries && entries[key].1 - now >= ReuseMargin)
    requires TokenStep(entries, key, now, reply).0.Ok?
    requires now <= later <= now + 240
    ensures var (r, m) := TokenStep(entries, key, now, reply);
      TokenStep(m, key, later, reply2) == (r, m)
  {
  }

  /** A failed request leaves the cache unchanged; a success leaves the returned token cached, and a fetched one is non-empty. */
  lemma TokenFailureKeepsCache(entries: map<string, (string, int)>, key: string, now: int, reply: AuthReply)
    ensures TokenStep(entries, key, now, reply).0.Err? ==> TokenStep(entries, key, now, reply).1 == entries
    ensures TokenStep(entries, key, now, reply).0.Ok? ==>
      var t := TokenStep(entries, key, now, reply).0.value;
      key in TokenStep(entries, key, now, reply).1 && TokenStep(entries, key, now, reply).1[key].0 == t
    ensures TokenStep(entries, key, now, reply).0.Ok? && !(key in entries && entries[key].1 - now >= ReuseMargin) ==>
      TokenStep(entries, key, now, reply).0.value != ""
  {
  }

  /** The module-level `_TOKEN_CACHE`. */
  class TokenCache {
    var entries: map<string, (string, int)>

    constructor ()
      ensures entries == map[]
    {
      entries := map[];
    }

    /** `_get_tenant_access_token` / `_get_access_token` once the credentials are checked. */
    method Get(key: string, now: int, reply: AuthReply) returns (r: Result<string>)
      modifies this
      ensures (r, entries) == TokenStep(old(entries), key, now, reply)
    {
      if key in entries {
        var (token, expireAt) := entries[key];
        if expireAt - now >= ReuseMargin {
          return Ok(token);
        }
      }
      if reply.status != 200 {
        return Err("auth failed with status");
      }
      if reply.code != 0 {
        return Err("auth failed");
      }
      var token := reply.token;
      if token == "" {
        return Err("auth failed: missing token");
      }
      var expireIn := reply.expireIn.GetOr(7200);
      entries := entries[key := (token, ExpireAt(now, expireIn))];
      return Ok(token);
    }

    /** `_clear_tenant_access_token_cache` / `_clear_access_token_cache`. */
    method Clear(key: string)
      modifies this
      ensures entries == old(entries) - {key}
    {
      entries := entries - {key};
    }
  }

  // ---------------------------------------------------------------------------
  // Sending with retries

  /**
   * `_send_feishu_text_once` / `_push_wecom_message_once`: get a token (an
   * error propagates), post, and forget the token when the post is not
   * accepted.  `post` is the post's outcome (an `Err` is an exception of
   * the client).
   */
  function SendStep(entries: map<string, (string, int)>, key: string, now: int, auth: AuthReply,
                    post: Result<Publisher.PostReply>): (r: (Result<bool>, map<string, (string, int)>))
  {
    var (token, m) := TokenStep(entries, key, now, auth);
    if token.Err? then (Err(token.error), m)
    else if post.Err? then (Err(post.error), m)
    else if Publisher.Accepted(post.value) then (Ok(true), m)
    else (Ok(false), m - {key})
  }

  /** What the `k`-th attempt meets: the clock, the token endpoint's reply and the post's outcome. */
  datatype Attempt = Attempt(now: int, auth: AuthReply, post: Result<Publisher.PostReply>)

  /** A token cache. */
  type Tokens = map<string, (string, int)>

  /** The `k`-th attempt on the cache `m` as a step function. */
  function Step(key: string, attempt: nat -> Attempt): (Tokens, nat) -> (Result<bool>, Tokens) {
    (m: Tokens, k: nat) => SendStep(m, key, attempt(k).now, attempt(k).auth, attempt(k).post)
  }

  /** The outcome of a run of attempts, the number of attempts made, the sleeps taken and the token cache afterwards. */
  datatype Sending = Sending(outcome: Result<bool>, tries: nat, sleeps: seq<int>, tokens: Tokens)

  /** `rest` after `tries` earlier attempts that slept `sleeps`. */
  function After(tries: nat, sleeps: seq<int>, rest: Sending): Sending {
    rest.(tries := rest.tries + tries, sleeps := sleeps + rest.sleeps)
  }

  /** The attempts from the `i`-th wait on, each a `step` on the token cache. */
  function SendFrom(waits: seq<int>, i: nat, entries: Tokens, step: (Tokens, nat) -> (Result<bool>, Tokens)): Sending
    requires i <= |waits|
    decreases |waits| - i
  {
    if i == |waits| then Sending(Ok(false), 0, [], entries)
    else
      var slept := if waits[i] > 0 then [waits[i]] else [];
      var (sent, m) := step(entries, i);
      if sent != Ok(false) then Sending(sent, 1, slept, m)
      else After(1, slept, SendFrom(waits, i + 1, m, step))
  }

  /** At most one attempt per wait, and a sleep exactly before the attempts whose wait is positive. */
  lemma {:induction false} SendFromBounds(waits: seq<int>, i: nat, entries: Tokens, step: (Tokens, nat) -> (Result<bool>, Tokens))
    requires i <= |waits|
    ensures var r := SendFrom(waits, i, entries, step);
      i + r.tries <= |waits| && (i < |waits| ==> r.tries >= 1) && r.sleeps == Publisher.PositiveWaits(waits[i..i + r.tries])
    decreases |waits| - i
  {
    if i < |waits| {
      var r := SendFrom(waits, i, entries, step);
      assert waits[i..i + 1][1..] == [];
      var (sent, m) := step(entries, i);
      if sent == Ok(false) {
        SendFromBounds(waits, i + 1, m, step);
        var rest := SendFrom(waits, i + 1, m, step);
        assert waits[i..i + r.tries][1..] == waits[i + 1..i + 1 + rest.tries];
      }
    }
  }

  /** A failed attempt clears the token, so the next attempt asks the endpoint again. */
  lemma FailedSendClearsToken(entries: Tokens, key: string, now: int, auth: AuthReply,
                              post: Result<Publisher.PostReply>)
    requires SendStep(entries, key, now, auth, post).0 == Ok(false)
    ensures key !in SendStep(entries, key, now, auth, post).1
  {
  }

  /**
   * `_send_feishu_text_once` / `_push_wecom_message_once` once the request
   * is built: get a token, post, and forget the token when the post is not
   * accepted.
   */
  method SendOnce(cache: TokenCache, key: string, a: Attempt) returns (r: Result<bool>)
    modifies cache
    ensures (r, cache.entries) == SendStep(old(cache.entries), key, a.now, a.auth, a.post)
  {
    var token := cache.Get(key, a.now, a.auth);
    if token.Err? {
      return Err(token.error);
    }
    if a.post.Err? {
      return Err(a.post.error);
    }
    if Publisher.Accepted(a.post.value) {
      return Ok(true);
    }
    cache.Clear(key);
    return Ok(false);
  }

  /** An attempt that does not fail quietly ends the run. */
  lemma SendFromStops(waits: seq<int>, i: nat, entries: Tokens, step: (Tokens, nat) -> (Result<bool>, Tokens))
    requires i < |waits| && step(entries, i).0 != Ok(false)
    ensures SendFrom(waits, i, entries, step)
      == Sending(step(entries, i).0, 1, if waits[i] > 0 then [waits[i]] else [], step(entries, i).1)
  {
  }

  /** An attempt that fails quietly goes on to the next wait. */
  lemma SendFromGoesOn(waits: seq<int>, i: nat, entries: Tokens, step: (Tokens, nat) -> (Result<bool>, Tokens))
    requires i < |waits| && step(entries, i).0 == Ok(false)
    ensures SendFrom(waits, i, entries, step)
      == After(1, if waits[i] > 0 then [waits[i]] else [], SendFrom(waits, i + 1, step(entries, i).1, step))
  {
  }

  /** The loop state of `Send` when an attempt ends the run. */
  lemma SendEnds(waits: seq<int>, i: nat, entries: Tokens, step: (Tokens, nat) -> (Result<bool>, Tokens),
                 whole: Sending, tries: nat, sleeps: seq<int>)
    requires i < |waits| && step(entries, i).0 != Ok(false)
    requires whole == After(tries, sleeps, SendFrom(waits, i, entries, step))
    ensures whole == Sending(step(entries, i).0, tries + 1, sleeps + (if waits[i] > 0 then [waits[i]] else []), step(entries, i).1)
  {
    SendFromStops(waits, i, entries, step);
  }

  /** The loop state of `Send` after an attempt that fails quietly. */
  lemma SendAdvances(waits: seq<int>, i: nat, entries: Tokens, step: (Tokens, nat) -> (Result<bool>, Tokens),
                     whole: Sending, tries: nat, sleeps: seq<int>)
    requires i < |waits| && step(entries, i).0 == Ok(false)
    requires whole == After(tries, sleeps, SendFrom(waits, i, entries, step))
    ensures whole == After(tries + 1, sleeps + (if waits[i] > 0 then [waits[i]] else []),
      SendFrom(waits, i + 1, step(entries, i).1, step))
  {
    var slept := if waits[i] > 0 then [waits[i]] else [];
    SendFromGoesOn(waits, i, entries, step);
    AfterAfter(tries, sleeps, 1, slept, SendFrom(waits, i + 1, step(entries, i).1, step));
  }

  /** Runs compose. */
  lemma AfterAfter(t1: nat, s1: seq<int>, t2: nat, s2: seq<int>, rest: Sending)
    ensures After(t1, s1, After(t2, s2, rest)) == After(t1 + t2, s1 + s2, rest)
  {
  }

  /**
   * The send loop of `push_feishu_text` / `push_wecom_message` over
   * `attempts = (0,) + retries`: sleep for a positive wait, try once, stop
   * at the first success; an exception ends the loop.
   */
  method Send(cache: TokenCache, key: string, retries: seq<int>, attempt: nat -> Attempt)
    returns (r: Result<bool>, tries: nat, sleeps: seq<int>)
    modifies cache
    ensures SendFrom([0] + retries, 0, old(cache.entries), Step(key, attempt)) == Sending(r, tries, sleeps, cache.entries)
  {
    var attempts := [0] + retries;
    ghost var step := Step(key, attempt);
    ghost var whole := SendFrom(attempts, 0, cache.entries, step);
    tries := 0;
    sleeps := [];
    var i := 0;
    while i < |attempts|
      invariant 0 <= i <= |attempts| && tries == i
      invariant whole == After(tries, sleeps, SendFrom(attempts, i, cache.entries, step))
    {
      var wait := attempts[i];
      var slept := if wait > 0 then [wait] else [];
      ghost var before := cache.entries;
      var sent := SendOnce(cache, key, attempt(i));
      assert step(before, i) == (sent, cache.entries);
      if sent != Ok(false) {
        SendEnds(attempts, i, before, step, whole, tries, sleeps);
        return sent, tries + 1, sleeps + slept;
      }
      SendAdvances(attempts, i, before, step, whole, tries, sleeps);
      sleeps := sleeps + slept;
      tries := tries + 1;
      i := i + 1;
    }
    r := Ok(false);
  }
}
