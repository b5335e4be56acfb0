/**
 * How the collector recovers a publication instant from page and feed text
 * (app/collector.py): the relative-time table, the Chinese year-month-day and
 * month-day forms, Unix timestamps, the snippet patterns, the JSON-LD search
 * and the order in which article pages and feed entries are consulted.
 * Instants are whole UTC seconds; `dateutil`'s fuzzy parser, a source's own
 * date regex and JSON decoding are parameters.
 */
module TimeParse {
  import opened Wrappers
  import opened Text
  import opened Calendar
  import opened Regex

  // ---------------------------------------------------------------------------
  // Trying patterns in order

  /** The index of the first pattern that occurs in `t`, with its leftmost match. */
  function FirstMatch(pats: seq<Re>, t: string): (r: Option<(nat, Found)>)
    ensures r.None? <==> forall k :: 0 <= k < |pats| ==> Search(pats[k], t).None?
    ensures r.Some? ==> (r.value.0 < |pats| && Search(pats[r.value.0], t) == Some(r.value.1)
      && forall k :: 0 <= k < r.value.0 ==> Search(pats[k], t).None?)
  {
    if pats == [] then None
    else match Search(pats[0], t)
      case Some(f) => Some((0, f))
      case None =>
        var rest := FirstMatch(pats[1..], t);
        assert forall k :: 1 <= k < |pats| ==> pats[k] == pats[1..][k - 1];
        if rest.None? then None else Some((rest.value.0 + 1, rest.value.1))
  }

  /** `int(m.group(id) or 0)` on a group of ASCII digits; a group that took no part reads as 0. */
  function GroupValue(g: Option<string>): nat {
    if g.Some? && AllDigits(g.value) then ParseNat(g.value) else 0
  }

  // ---------------------------------------------------------------------------
  // Relative expressions

  /** `(\d+)\s*<word>`: a count in group 1, optional spaces, then the word. */
  function CountThen(word: string): Re {
    Seq([Group(1, Plus(IsDigit)), Star(IsSpace), Lit(word)])
  }

  datatype RelativeRule =
    /** "N<unit>前": N units of `unitSeconds` before the reference. */
    | Counted(pattern: Re, unitSeconds: nat)
    /** A fixed word, a fixed number of seconds before the reference. */
    | Fixed(pattern: Re, seconds: nat)

  /** The words of the counted entries and the seconds in one of their units. */
  const CountWords: seq<string> := ["小时前", "分钟前", "天前"]
  const CountUnits: seq<nat> := [3600, 60, 86400]

  /** The relative-time table, in the order it is tried. */
  const RelativeRules: seq<RelativeRule> := [
    Counted(CountThen(CountWords[0]), CountUnits[0]),
    Counted(CountThen(CountWords[1]), CountUnits[1]),
    Counted(CountThen(CountWords[2]), CountUnits[2]),
    Fixed(Lit("刚刚"), 0),
    Fixed(Lit("昨天"), 86400),
    Fixed(Lit("今天"), 0)
  ]

  /** How many seconds before the reference the first matching table entry from `k` on points, if any matches. */
  function RelativeFrom(t: string, k: nat): (r: Option<nat>)
    requires k <= |RelativeRules|
    decreases |RelativeRules| - k
  {
    if k == |RelativeRules| then None
    else
      match Search(RelativeRules[k].pattern, t)
      case None => RelativeFrom(t, k + 1)
      case Some(f) =>
        match RelativeRules[k]
        case Counted(_, unit) => Some(GroupValue(GroupText(t, f, 1)) * unit)
        case Fixed(_, seconds) => Some(seconds)
  }

  function RelativeDelta(t: string): Option<nat> { RelativeFrom(t, 0) }

  /** A `timedelta` holds at most this many days. */
  const MaxDeltaDays: int := 999999999

  /**
   * `ref - timedelta(...)` raises `OverflowError`: the delta has more whole
   * days than a `timedelta` holds, or the difference falls before year 1.
   */
  predicate Overflows(ref: int, delta: nat) {
    delta >= (MaxDeltaDays + 1) * SecondsPerDay || ref - delta < MinInstant
  }

  /** Relative expressions are read only when allowed, and only in stripped text of at most 80 characters. */
  const RelativeMaxLength: nat := 80

  function RelativeOf(t: string, allowRelative: bool): Option<nat> {
    if allowRelative && |t| <= RelativeMaxLength then RelativeDelta(t) else None
  }

  // ---------------------------------------------------------------------------
  // Unix timestamps

  /** `\d{10}|\d{13}` as a whole; a 13-digit value is in milliseconds. */
  function UnixTimestamp(value: string): (r: Option<int>)
    ensures r.Some? <==> AllDigits(Strip(value)) && (|Strip(value)| == 10 || |Strip(value)| == 13)
    ensures r.Some? ==> 0 <= r.value < 10000000000 && InRange(r.value)
    ensures r.Some? && |Strip(value)| == 10 ==> r.value == ParseNat(Strip(value))
    ensures r.Some? && |Strip(value)| == 13 ==> r.value == ParseNat(Strip(value)) / 1000
  {
    var t := Strip(value);
    if AllDigits(t) && (|t| == 10 || |t| == 13) then
      TimestampBounds();
      Some(if |t| == 13 then ParseNat(t) / 1000 else ParseNat(t))
    else None
  }

  /** Ten digits stay below 10^10 and thirteen below 10^13. */
  lemma TimestampBounds()
    ensures Pow10(10) == 10000000000 && Pow10(13) == 10000000000000
  {
    assert Pow10(3) == 1000;
    assert Pow10(6) == 1000000;
    assert Pow10(10) == 10000000000;
  }

  // ---------------------------------------------------------------------------
  // Chinese dates

  /** `(?:\s*(?P<hour>\d{1,2})(?:\s*[:：点时]\s*(?P<minute>\d{1,2}))?)?` with the given group numbers. */
  function ClockPart(hourId: nat, minuteId: nat): Re {
    Opt(Seq([Star(IsSpace), Group(hourId, Between(IsDigit, 1, 2)),
      Opt(Seq([Star(IsSpace), Class(AnyOf(":：点时")), Star(IsSpace), Group(minuteId, Between(IsDigit, 1, 2))]))]))
  }

  /** Year, month, day (groups 1 to 3), then an optional hour and minute (groups 4 and 5). */
  const YmdPattern: Re := Seq([
    Group(1, Between(IsDigit, 4, 4)), Star(IsSpace), Class(AnyOf("年/-.")), Star(IsSpace),
    Group(2, Between(IsDigit, 1, 2)), Star(IsSpace), Class(AnyOf("月/-.")), Star(IsSpace),
    Group(3, Between(IsDigit, 1, 2)), Star(IsSpace), Opt(Lits(["日", "号"])),
    ClockPart(4, 5)])

  /** "M月D日" (groups 1 and 2), then an optional hour and minute (groups 3 and 4). */
  const MdPattern: Re := Seq([
    Group(1, Between(IsDigit, 1, 2)), Star(IsSpace), Lit("月"), Star(IsSpace),
    Group(2, Between(IsDigit, 1, 2)), Star(IsSpace), Lit("日"),
    ClockPart(3, 4)])

  /** How far after the reference a month-day date may lie before it is taken as last year's. */
  const FutureSlack: int := 2 * 86400

  /**
   * A month-day date in the reference's year, moved to the previous year when
   * that would put it more than two days after the reference; a date the
   * calendar (or the previous year's calendar) lacks gives nothing.
   */
  function MonthDay(mo: int, d: int, h: int, mi: int, ref: int): (r: Option<int>)
    requires InRange(ref)
    ensures r.Some? ==> InRange(r.value) && r.value - ref <= FutureSlack
  {
    var y := YearOf(ref);
    if !ValidDateTime(y, mo, d, h, mi) then None
    else
      YearOfInstant(y, mo, d, h, mi, 0);
      var parsed := Instant(y, mo, d, h, mi, 0);
      if parsed - ref <= FutureSlack then Some(parsed)
      else if ValidDateTime(y - 1, mo, d, h, mi) then
        LastYearBefore(mo, d, h, mi, ref);
        Some(Instant(y - 1, mo, d, h, mi, 0))
      else None
  }

  /** A valid date in the year before the reference's lies before the reference. */
  lemma LastYearBefore(mo: int, d: int, h: int, mi: int, ref: int)
    requires InRange(ref) && ValidDateTime(YearOf(ref) - 1, mo, d, h, mi)
    ensures InRange(Instant(YearOf(ref) - 1, mo, d, h, mi, 0))
    ensures Instant(YearOf(ref) - 1, mo, d, h, mi, 0) < ref
  {
    var y := YearOf(ref);
    YearOfInstant(y - 1, mo, d, h, mi, 0);
    InstantWithinYear(y - 1, mo, d, h, mi, 0);
  }

  /**
   * A month-day date more than two days after the reference in the
   * reference's year is last year's date, which lies before the reference,
   * or nothing when last year has no such day (29 February).
   */
  lemma MonthDayRolledBack(mo: int, d: int, h: int, mi: int, ref: int)
    requires InRange(ref)
    requires ValidDateTime(YearOf(ref), mo, d, h, mi) && Instant(YearOf(ref), mo, d, h, mi, 0) > ref + FutureSlack
    ensures MonthDay(mo, d, h, mi, ref) ==
      if ValidDateTime(YearOf(ref) - 1, mo, d, h, mi) then Some(Instant(YearOf(ref) - 1, mo, d, h, mi, 0)) else None
    ensures ValidDateTime(YearOf(ref) - 1, mo, d, h, mi) ==> Instant(YearOf(ref) - 1, mo, d, h, mi, 0) < ref
  {
    if ValidDateTime(YearOf(ref) - 1, mo, d, h, mi) {
      LastYearBefore(mo, d, h, mi, ref);
    }
  }

  /**
   * A month-day date is kept in the reference's year exactly when it exists
   * there and lies at most two days ahead; otherwise only last year's date
   * can answer.
   */
  lemma MonthDayKept(mo: int, d: int, h: int, mi: int, ref: int)
    requires InRange(ref)
    ensures var y := YearOf(ref);
      (ValidDateTime(y, mo, d, h, mi) && Instant(y, mo, d, h, mi, 0) <= ref + FutureSlack)
        ==> MonthDay(mo, d, h, mi, ref) == Some(Instant(y, mo, d, h, mi, 0))
    ensures MonthDay(mo, d, h, mi, ref).None? <==>
      var y := YearOf(ref);
      !ValidDateTime(y, mo, d, h, mi)
        || (Instant(y, mo, d, h, mi, 0) > ref + FutureSlack && !ValidDateTime(y - 1, mo, d, h, mi))
  {
  }

  /** A Chinese year-month-day date, else a month-day date placed near the reference. */
  function ChineseDate(value: string, ref: int): (r: Option<int>)
    requires InRange(ref)
    ensures r.Some? ==> InRange(r.value)
  {
    var t := Strip(value);
    match Search(YmdPattern, t)
    case Some(f) =>
      var y, mo, d := GroupValue(GroupText(t, f, 1)), GroupValue(GroupText(t, f, 2)), GroupValue(GroupText(t, f, 3));
      var h, mi := GroupValue(GroupText(t, f, 4)), GroupValue(GroupText(t, f, 5));
      if ValidDateTime(y, mo, d, h, mi) then
        YearOfInstant(y, mo, d, h, mi, 0);
        Some(Instant(y, mo, d, h, mi, 0))
      else None
    case None =>
      match Search(MdPattern, t)
      case None => None
      case Some(f) =>
        MonthDay(GroupValue(GroupText(t, f, 1)), GroupValue(GroupText(t, f, 2)),
          GroupValue(GroupText(t, f, 3)), GroupValue(GroupText(t, f, 4)), ref)
  }

  // ---------------------------------------------------------------------------
  // Snippets

  /** `(?:\s+\d{1,2}(?:[:：]\d{1,2}|点(?:\d{1,2})?))?`. */
  const SnippetClock: Re := Opt(Seq([Plus(IsSpace), Between(IsDigit, 1, 2),
    Alt(Seq([Class(AnyOf(":：")), Between(IsDigit, 1, 2)]), Seq([Lit("点"), Opt(Between(IsDigit, 1, 2))]))]))

  /** A letter compared without case (ASCII folding). */
  function CiWord(w: string): Re
    decreases |w|
  {
    if w == [] then Lit("")
    else
      var x := w[0];
      Cat(Class(c => LowerChar(c) == x), CiWord(w[1..]))
  }

  /** `Jan|Feb|...|Dec` under `IGNORECASE`. */
  function MonthNames(names: seq<string>): Re
    requires names != []
  {
    if |names| == 1 then CiWord(names[0]) else Alt(CiWord(names[0]), MonthNames(names[1..]))
  }

  /** The built-in snippet patterns, in the order they are tried. */
  const SnippetPatterns: seq<Re> := [
    Seq([Between(IsDigit, 4, 4), Class(AnyOf("年/-.")), Between(IsDigit, 1, 2), Class(AnyOf("月/-.")),
      Between(IsDigit, 1, 2), Opt(Lits(["日", "号"])), SnippetClock]),
    Seq([Between(IsDigit, 1, 2), Lit("月"), Between(IsDigit, 1, 2), Lit("日"), SnippetClock]),
    Seq([Between(IsDigit, 4, 4), Lit("-"), Between(IsDigit, 2, 2), Lit("-"), Between(IsDigit, 2, 2), Lit("T"),
      Between(IsDigit, 2, 2), Lit(":"), Between(IsDigit, 2, 2), Lit(":"), Between(IsDigit, 2, 2),
      Opt(Seq([Lit("."), Plus(IsDigit)])),
      Alt(Lit("Z"), Seq([Class(AnyOf("+-")), Between(IsDigit, 2, 2), Lit(":"), Between(IsDigit, 2, 2)]))]),
    Seq([MonthNames(["jan", "feb", "mar", "apr", "may", "jun", "jul", "aug", "sep", "oct", "nov", "dec"]),
      Star(IsAsciiLetter), Plus(IsSpace), Between(IsDigit, 1, 2), Lit(","), Plus(IsSpace), Between(IsDigit, 4, 4),
      Opt(Seq([Plus(IsSpace), Between(IsDigit, 1, 2), Lit(":"), Between(IsDigit, 2, 2)]))])
  ]

  /**
   * The date-looking part of `t`: what a source's own regex finds (`custom`
   * gives its `group(0)`), else the first built-in pattern's match, stripped.
   */
  function ExtractDateSnippet(t: string, custom: Option<string -> Option<string>>): (r: Option<string>)
    ensures custom.Some? && custom.value(t).Some? ==> r == Some(Strip(custom.value(t).value))
    ensures !(custom.Some? && custom.value(t).Some?) ==>
      (r.None? <==> forall k :: 0 <= k < |SnippetPatterns| ==> Search(SnippetPatterns[k], t).None?)
  {
    if custom.Some? && custom.value(t).Some? then Some(Strip(custom.value(t).value))
    else
      match FirstMatch(SnippetPatterns, t)
      case None => None
      case Some((k, f)) => Some(Strip(Matched(t, f)))
  }

  /** A snippet read as a Unix timestamp, else a Chinese date, else by the fuzzy parser. */
  function SnippetDate(snippet: string, ref: int, fuzzy: string -> Option<int>): Option<int>
    requires InRange(ref)
  {
    if snippet == "" then None
    else if UnixTimestamp(snippet).Some? then UnixTimestamp(snippet)
    else if ChineseDate(snippet, ref).Some? then ChineseDate(snippet, ref)
    else fuzzy(snippet)
  }

  // ---------------------------------------------------------------------------
  // _parse_html_date

  /**
   * The instant a piece of page text names, relative to `ref`: a relative
   * expression first (when allowed), else the snippet's date.  A relative
   * expression reaching outside the datetime range gives nothing.
   */
  function ParseHtmlDate(text: string, custom: Option<string -> Option<string>>, ref: int,
                         allowRelative: bool, fuzzy: string -> Option<int>): (r: Option<int>)
    requires InRange(ref)
    ensures Strip(text) == "" ==> r.None?
    ensures RelativeOf(Strip(text), allowRelative).Some? && Strip(text) != "" ==>
      (r.Some? <==> !Overflows(ref, RelativeOf(Strip(text), allowRelative).value))
    ensures RelativeOf(Strip(text), allowRelative).Some? && r.Some? ==>
      r.value == ref - RelativeOf(Strip(text), allowRelative).value && InRange(r.value)
    ensures RelativeOf(Strip(text), allowRelative).None? && ExtractDateSnippet(Strip(text), custom).None? ==> r.None?
  {
    var t := Strip(text);
    if t == "" then None
    else
      match RelativeOf(t, allowRelative)
      case Some(delta) => if Overflows(ref, delta) then None else Some(ref - delta)
      case None =>
        match ExtractDateSnippet(t, custom)
        case None => None
        case Some(snippet) => SnippetDate(snippet, ref, fuzzy)
  }

  /**
   * The same parse as written: a relative expression reaching outside the
   * datetime range makes `ref - delta` raise, and nothing on the way catches
   * it; every other text gets the answer above.
   */
  function ParseHtmlDateAsWritten(text: string, custom: Option<string -> Option<string>>, ref: int,
                                  allowRelative: bool, fuzzy: string -> Option<int>): Result<Option<int>>
    requires InRange(ref)
  {
    var t := Strip(text);
    if t != "" && RelativeOf(t, allowRelative).Some? && Overflows(ref, RelativeOf(t, allowRelative).value) then
      Err("OverflowError")
    else Ok(ParseHtmlDate(text, custom, ref, allowRelative, fuzzy))
  }

  /**
   * `_parse_html_date` with the reference fixed, as the page and feed
   * searches use it: no custom pattern, relative expressions as given.
   */
  function HtmlDateParser(ref: int, allowRelative: bool, fuzzy: string -> Option<int>): string -> Option<int> {
    if InRange(ref) then s => ParseHtmlDate(s, None, ref, allowRelative, fuzzy) else s => None
  }

  /** `_extract_date_from_element`: the date attribute's value when set and non-empty, else the element's text under the source's pattern. */
  function ElementDate(attrValue: Option<string>, text: string, custom: Option<string -> Option<string>>,
                       ref: int, fuzzy: string -> Option<int>): Option<int>
    requires InRange(ref)
  {
    if attrValue.Some? && attrValue.value != "" then ParseHtmlDate(attrValue.value, None, ref, true, fuzzy)
    else ParseHtmlDate(text, custom, ref, true, fuzzy)
  }

  // ---------------------------------------------------------------------------
  // Searching in order

  /** The first value `parse` accepts, parsed. */
  function FirstParsed(values: seq<string>, parse: string -> Option<int>): (r: Option<int>)
    ensures r.None? <==> forall i :: 0 <= i < |values| ==> parse(values[i]).None?
    ensures r.Some? ==> exists i :: (0 <= i < |values| && parse(values[i]) == r
      && forall j :: 0 <= j < i ==> parse(values[j]).None?)
  {
    if values == [] then None
    else if parse(values[0]).Some? then parse(values[0])
    else
      var rest := FirstParsed(values[1..], parse);
      assert forall i :: 1 <= i < |values| ==> values[i] == values[1..][i - 1];
      FirstParsedShift(values, parse, rest);
      rest
  }

  /** The first value that parses is the answer. */
  lemma {:induction false} FirstParsedAt(values: seq<string>, parse: string -> Option<int>, i: int)
    requires 0 <= i < |values| && parse(values[i]).Some?
    requires forall j :: 0 <= j < i ==> parse(values[j]).None?
    ensures FirstParsed(values, parse) == parse(values[i])
    decreases i
  {
    if i > 0 {
      var rest := values[1..];
      assert parse(values[0]).None?;
      assert FirstParsed(values, parse) == FirstParsed(rest, parse);
      assert rest[i - 1] == values[i];
      assert forall j :: 0 <= j < i - 1 ==> rest[j] == values[j + 1];
      FirstParsedAt(rest, parse, i - 1);
    }
  }

  lemma FirstParsedShift(values: seq<string>, parse: string -> Option<int>, rest: Option<int>)
    requires values != [] && parse(values[0]).None?
    requires rest.Some? ==> exists i :: (0 <= i < |values[1..]| && parse(values[1..][i]) == rest
      && forall j :: 0 <= j < i ==> parse(values[1..][j]).None?)
    ensures rest.Some? ==> exists i :: (0 <= i < |values| && parse(values[i]) == rest
      && forall j :: 0 <= j < i ==> parse(values[j]).None?)
  {
    if rest.Some? {
      var i :| 0 <= i < |values[1..]| && parse(values[1..][i]) == rest
        && forall j :: 0 <= j < i ==> parse(values[1..][j]).None?;
      assert parse(values[i + 1]) == rest;
      assert forall j :: 1 <= j < i + 1 ==> values[j] == values[1..][j - 1];
    }
  }

  /** Searching two lists one after the other is searching their concatenation. */
  lemma {:induction false} FirstParsedAppend(a: seq<string>, b: seq<string>, parse: string -> Option<int>)
    ensures FirstParsed(a + b, parse) == if FirstParsed(a, parse).Some? then FirstParsed(a, parse) else FirstParsed(b, parse)
  {
    if a != [] {
      assert (a + b)[0] == a[0];
      assert (a + b)[1..] == a[1..] + b;
      FirstParsedAppend(a[1..], b, parse);
    } else {
      assert a + b == b;
    }
  }

  // ---------------------------------------------------------------------------
  // JSON-LD

  /** A decoded JSON value, as far as the date search looks into it: objects keep their key order. */
  datatype Json =
    | JList(items: seq<Json>)
    | JDict(entries: seq<Entry>)
    | JText(text: string)
    | JOther

  /** One key and its value in an object. */
  datatype Entry = Entry(key: string, value: Json)

  /** The keys whose string values are read as dates, compared in lower case. */
  const DateKeys: set<string> := {"datepublished", "datecreated", "datemodified", "uploaddate"}

  /**
   * `_extract_date_from_json_ld`: a list's items in order; an object's
   * entries in order, each first as a date (when its key names one and its
   * value is a string) and then searched into.
   */
  function JsonLdDate(p: Json, parse: string -> Option<int>): Option<int>
    decreases p, 1
  {
    match p
    case JList(items) => ListDate(items, parse)
    case JDict(entries) => DictDate(entries, parse)
    case _ => None
  }

  function ListDate(items: seq<Json>, parse: string -> Option<int>): Option<int>
    decreases items, 0
  {
    if items == [] then None
    else
      var r := JsonLdDate(items[0], parse);
      if r.Some? then r else ListDate(items[1..], parse)
  }

  function DictDate(entries: seq<Entry>, parse: string -> Option<int>): Option<int>
    decreases entries, 0
  {
    if entries == [] then None
    else
      var key, value := entries[0].key, entries[0].value;
      var own := if Lower(key) in DateKeys && value.JText? then parse(value.text) else None;
      if own.Some? then own
      else
        var inner := JsonLdDate(value, parse);
        if inner.Some? then inner else DictDate(entries[1..], parse)
  }

  /** The date strings of a JSON value, in the order the search meets them. */
  function DateValues(p: Json): seq<string>
    decreases p, 1
  {
    match p
    case JList(items) => ListValues(items)
    case JDict(entries) => DictValues(entries)
    case _ => []
  }

  function ListValues(items: seq<Json>): seq<string>
    decreases items, 0
  {
    if items == [] then [] else DateValues(items[0]) + ListValues(items[1..])
  }

  function DictValues(entries: seq<Entry>): seq<string>
    decreases entries, 0
  {
    if entries == [] then []
    else
      var key, value := entries[0].key, entries[0].value;
      (if Lower(key) in DateKeys && value.JText? then [value.text] else []) + DateValues(value) + DictValues(entries[1..])
  }

  /** The JSON-LD search answers with the first of the value's date strings that parses. */
  lemma {:induction false} JsonLdDateIsFirst(p: Json, parse: string -> Option<int>)
    ensures JsonLdDate(p, parse) == FirstParsed(DateValues(p), parse)
    decreases p, 1
  {
    match p
    case JList(items) => ListDateIsFirst(items, parse);
    case JDict(entries) => DictDateIsFirst(entries, parse);
    case _ =>
  }

  lemma {:induction false} ListDateIsFirst(items: seq<Json>, parse: string -> Option<int>)
    ensures ListDate(items, parse) == FirstParsed(ListValues(items), parse)
    decreases items, 0
  {
    if items != [] {
      JsonLdDateIsFirst(items[0], parse);
      ListDateIsFirst(items[1..], parse);
      FirstParsedAppend(DateValues(items[0]), ListValues(items[1..]), parse);
    }
  }

  lemma {:induction false} DictDateIsFirst(entries: seq<Entry>, parse: string -> Option<int>)
    ensures DictDate(entries, parse) == FirstParsed(DictValues(entries), parse)
    decreases entries, 0
  {
    if entries != [] {
      var key, value := entries[0].key, entries[0].value;
      var own: seq<string> := if Lower(key) in DateKeys && value.JText? then [value.text] else [];
      var ownDate := if Lower(key) in DateKeys && value.JText? then parse(value.text) else None;
      var tail := DateValues(value) + DictValues(entries[1..]);
      JsonLdDateIsFirst(value, parse);
      DictDateIsFirst(entries[1..], parse);
      FirstParsedAppend(DateValues(value), DictValues(entries[1..]), parse);
      FirstParsedAppend(own, tail, parse);
      assert DictValues(entries) == own + tail;
      assert FirstParsed(own, parse) == ownDate by {
        if own != [] {
          assert own[1..] == [];
        }
      }
    }
  }


  // ---------------------------------------------------------------------------
  // Article pages

  /** A `<time>` element: its `datetime` attribute, if present, and its text. */
  datatype TimeElem = TimeElem(datetime: Option<string>, text: string)

  /**
   * What the article search reads from a page: the `content` attribute of
   * each element the meta selectors match (selector by selector, document
   * order within one), the `<time>` elements, the texts of the JSON-LD
   * scripts and the text of the whole page.
   */
  datatype ArticlePage = ArticlePage(metaContents: seq<Option<string>>, times: seq<TimeElem>,
                                     scripts: seq<string>, bodyText: string)

  /** The values that are not empty, in order. */
  function NonEmptyOnes(values: seq<string>): (r: seq<string>)
    ensures |r| <= |values|
    ensures forall v :: v in r <==> v in values && v != ""
  {
    if values == [] then []
    else
      var rest := NonEmptyOnes(values[1..]);
      assert forall v :: v in values <==> v == values[0] || v in values[1..];
      if values[0] == "" then rest else [values[0]] + rest
  }

  /** `elem.get("datetime") or elem.get_text(...)`: an empty attribute falls back to the text. */
  function TimeValue(t: TimeElem): string {
    if t.datetime.Some? && t.datetime.value != "" then t.datetime.value else t.text
  }

  function MetaValue(content: Option<string>): string {
    if content.Some? then content.value else ""
  }

  /** The meta contents, then the `<time>` values, stripped, the empty ones dropped. */
  function ArticleCandidates(page: ArticlePage): seq<string> {
    var raw := seq(|page.metaContents|, k requires 0 <= k < |page.metaContents| => MetaValue(page.metaContents[k]))
      + seq(|page.times|, k requires 0 <= k < |page.times| => TimeValue(page.times[k]));
    NonEmptyOnes(seq(|raw|, k requires 0 <= k < |raw| => Strip(raw[k])))
  }

  /** `json.loads` of a script's stripped text: nothing for an empty script or one that fails to decode. */
  function ScriptJson(script: string, decode: string -> Option<Json>): Option<Json> {
    var payload := Strip(script);
    if payload == "" then None else decode(payload)
  }

  /** The first JSON-LD script that decodes and holds a date; scripts that fail to decode are passed over. */
  function ScriptDate(scripts: seq<string>, decode: string -> Option<Json>, parse: string -> Option<int>): Option<int> {
    if scripts == [] then None
    else
      var here := match ScriptJson(scripts[0], decode) case None => None case Some(j) => JsonLdDate(j, parse);
      if here.Some? then here else ScriptDate(scripts[1..], decode, parse)
  }

  /** The date strings of the scripts that decode, in order. */
  function ScriptValues(scripts: seq<string>, decode: string -> Option<Json>): seq<string> {
    if scripts == [] then []
    else
      (match ScriptJson(scripts[0], decode) case None => [] case Some(j) => DateValues(j))
        + ScriptValues(scripts[1..], decode)
  }

  /** The markers that introduce a publication date in running text, in the order they are tried. */
  const Markers: seq<string> := ["发布时间", "发布于", "发表于", "更新于", "日期"]

  /** How much text after a marker is read, and how much of the page is read last. */
  const MarkerWindow: nat := 120
  const BodyWindow: nat := 4000

  /** `text[i:i + n]`. */
  function Window(text: string, i: nat, n: nat): (r: string)
    requires i <= |text|
    ensures |r| <= n && i + |r| <= |text| && r == text[i..i + |r|]
  {
    if i + n <= |text| then text[i..i + n] else text[i..]
  }

  /** The text from the first occurrence of `marker`, if it occurs. */
  function MarkerSnippet(body: string, marker: string): (r: Option<string>)
    ensures r.Some? <==> Contains(body, marker)
    ensures r.Some? ==> exists i ::
      && 0 <= i <= |body| && OccursAt(body, marker, i)
      && (forall j :: 0 <= j < i ==> !OccursAt(body, marker, j))
      && r.value == body[i..if i + MarkerWindow <= |body| then i + MarkerWindow else |body|]
    ensures r.Some? && |marker| <= MarkerWindow ==> StartsWith(r.value, marker)
  {
    var i := Find(body, marker);
    if i < 0 then None
    else
      var w := Window(body, i, MarkerWindow);
      assert OccursAt(body, marker, i);
      assert |marker| <= MarkerWindow ==> w[..|marker|] == body[i..i + |marker|];
      Some(w)
  }

  /** Each marker in turn: the window after its first occurrence, when that parses. */
  function MarkerDate(body: string, markers: seq<string>, parse: string -> Option<int>): Option<int> {
    if markers == [] then None
    else
      var here := if MarkerSnippet(body, markers[0]).Some? then parse(MarkerSnippet(body, markers[0]).value) else None;
      if here.Some? then here else MarkerDate(body, markers[1..], parse)
  }

  /** The windows of the markers that occur, in marker order. */
  function MarkerSnippets(body: string, markers: seq<string>): seq<string> {
    if markers == [] then []
    else
      (if MarkerSnippet(body, markers[0]).Some? then [MarkerSnippet(body, markers[0]).value] else [])
        + MarkerSnippets(body, markers[1..])
  }

  /**
   * `_extract_article_published_at` with the two parsers it uses: `rel`
   * reads relative expressions, `abs` does not.  Candidates first, then the
   * JSON-LD scripts, then the marker windows, and last the page's first 4000
   * characters.
   */
  function ArticlePublishedAt(page: ArticlePage, rel: string -> Option<int>, abs: string -> Option<int>,
                              decode: string -> Option<Json>): Option<int> {
    var fromCandidates := FirstParsed(ArticleCandidates(page), rel);
    if fromCandidates.Some? then fromCandidates
    else
      var fromScripts := ScriptDate(page.scripts, decode, rel);
      if fromScripts.Some? then fromScripts
      else
        var fromMarkers := MarkerDate(page.bodyText, Markers, rel);
        if fromMarkers.Some? then fromMarkers
        else abs(Window(page.bodyText, 0, BodyWindow))
  }

  /** The article date for a reference instant: relative expressions everywhere but in the final page prefix. */
  function ArticleDate(page: ArticlePage, ref: int, fuzzy: string -> Option<int>, decode: string -> Option<Json>): Option<int> {
    ArticlePublishedAt(page, HtmlDateParser(ref, true, fuzzy), HtmlDateParser(ref, false, fuzzy), decode)
  }

  lemma {:induction false} ScriptDateIsFirst(scripts: seq<string>, decode: string -> Option<Json>, parse: string -> Option<int>)
    ensures ScriptDate(scripts, decode, parse) == FirstParsed(ScriptValues(scripts, decode), parse)
  {
    if scripts != [] {
      var own: seq<string> := match ScriptJson(scripts[0], decode) case None => [] case Some(j) => DateValues(j);
      var ownDate := match ScriptJson(scripts[0], decode) case None => None case Some(j) => JsonLdDate(j, parse);
      assert FirstParsed(own, parse) == ownDate by {
        if ScriptJson(scripts[0], decode).Some? { JsonLdDateIsFirst(ScriptJson(scripts[0], decode).value, parse); }
      }
      assert ScriptValues(scripts, decode) == own + ScriptValues(scripts[1..], decode);
      ScriptDateIsFirst(scripts[1..], decode, parse);
      FirstParsedAppend(own, ScriptValues(scripts[1..], decode), parse);
    }
  }

  lemma {:induction false} MarkerDateIsFirst(body: string, markers: seq<string>, parse: string -> Option<int>)
    ensures MarkerDate(body, markers, parse) == FirstParsed(MarkerSnippets(body, markers), parse)
  {
    if markers != [] {
      var own := if MarkerSnippet(body, markers[0]).Some? then [MarkerSnippet(body, markers[0]).value] else [];
      MarkerDateIsFirst(body, markers[1..], parse);
      FirstParsedAppend(own, MarkerSnippets(body, markers[1..]), parse);
      if own != [] { assert own[1..] == []; }
    }
  }

  /**
   * The article date is the first string among the page's probes that
   * parses (candidates, then JSON-LD date strings, then marker windows),
   * else the relative-free parse of the page's first 4000 characters.
   */
  lemma ArticleDateIsFirst(page: ArticlePage, rel: string -> Option<int>, abs: string -> Option<int>, decode: string -> Option<Json>)
    ensures ArticlePublishedAt(page, rel, abs, decode) ==
      var probes := ArticleCandidates(page) + ScriptValues(page.scripts, decode) + MarkerSnippets(page.bodyText, Markers);
      if FirstParsed(probes, rel).Some? then FirstParsed(probes, rel) else abs(Window(page.bodyText, 0, BodyWindow))
  {
    ScriptDateIsFirst(page.scripts, decode, rel);
    MarkerDateIsFirst(page.bodyText, Markers, rel);
    FirstParsedAppend(ArticleCandidates(page), ScriptValues(page.scripts, decode), rel);
    FirstParsedAppend(ArticleCandidates(page) + ScriptValues(page.scripts, decode), MarkerSnippets(page.bodyText, Markers), rel);
  }

  // ---------------------------------------------------------------------------
  // Feed entries

  /** A `time.struct_time` as the feed parser gives it. */
  datatype TimeStruct = TimeStruct(year: int, month: int, day: int, hour: int, minute: int, second: int)

  /** A feed entry: its text fields and its parsed time structures, by key. */
  datatype FeedEntry = FeedEntry(fields: map<string, string>, structs: map<string, TimeStruct>)

  /** `str(entry.get(key) or "")`. */
  function Field(e: FeedEntry, key: string): string {
    if key in e.fields then e.fields[key] else ""
  }

  const RssDateKeys: seq<string> := ["published", "updated", "pubDate", "dc_date", "date"]
  const RssStructKeys: seq<string> := ["published_parsed", "updated_parsed"]

  /** `datetime(*t[:6], tzinfo=utc)`, or nothing where that raises `ValueError`. */
  function StructInstant(t: TimeStruct): (r: Option<int>)
    ensures r.Some? <==> ValidDateTime(t.year, t.month, t.day, t.hour, t.minute) && 0 <= t.second < 60
    ensures r.Some? ==> InRange(r.value) && YearOf(r.value) == t.year
  {
    if ValidDateTime(t.year, t.month, t.day, t.hour, t.minute) && 0 <= t.second < 60 then
      YearOfInstant(t.year, t.month, t.day, t.hour, t.minute, t.second);
      Some(Instant(t.year, t.month, t.day, t.hour, t.minute, t.second))
    else None
  }

  /** The first of the structures under `keys` that is present and a valid datetime. */
  function StructDate(e: FeedEntry, keys: seq<string>): (r: Option<int>)
    ensures r.Some? ==> InRange(r.value)
    ensures r.None? <==> forall k :: 0 <= k < |keys| ==> keys[k] !in e.structs || StructInstant(e.structs[keys[k]]).None?
  {
    if keys == [] then None
    else
      var here := if keys[0] in e.structs then StructInstant(e.structs[keys[0]]) else None;
      assert forall k :: 1 <= k < |keys| ==> keys[k] == keys[1..][k - 1];
      if here.Some? then here else StructDate(e, keys[1..])
  }

  /** The texts the feed search parses, in order: the date fields, then summary, content and title. */
  function FieldTexts(e: FeedEntry, keys: seq<string>): seq<string> {
    seq(|keys|, k requires 0 <= k < |keys| => Field(e, keys[k]))
  }

  /**
   * `_extract_rss_published_at`: the date fields, the parsed structures,
   * the summary, content and title, and last the linked article fetched
   * (`fetch` stands for the request and the article search).
   */
  function RssPublishedAt(e: FeedEntry, content: string, rel: string -> Option<int>, fetch: string -> Option<int>): Option<int> {
    var fromFields := FirstParsed(FieldTexts(e, RssDateKeys), rel);
    if fromFields.Some? then fromFields
    else
      var fromStructs := StructDate(e, RssStructKeys);
      if fromStructs.Some? then fromStructs
      else
        var fromText := FirstParsed([Field(e, "summary"), content, Field(e, "title")], rel);
        if fromText.Some? then fromText
        else
          var link := Strip(Field(e, "link"));
          if link != "" then fetch(link) else None
  }

  /**
   * The linked article is fetched only as the last resort: the answer
   * depends on the fetch only when no date field, structure, summary,
   * content or title gives a date and the entry has a link.
   */
  lemma RssFetchLast(e: FeedEntry, content: string, rel: string -> Option<int>, fetch1: string -> Option<int>, fetch2: string -> Option<int>)
    ensures RssPublishedAt(e, content, rel, fetch1) != RssPublishedAt(e, content, rel, fetch2) ==>
      && (forall k :: 0 <= k < |RssDateKeys| ==> rel(Field(e, RssDateKeys[k])).None?)
      && StructDate(e, RssStructKeys).None?
      && rel(Field(e, "summary")).None? && rel(content).None? && rel(Field(e, "title")).None?
      && Strip(Field(e, "link")) != ""
  {
    var texts := [Field(e, "summary"), content, Field(e, "title")];
    assert texts[0] == Field(e, "summary") && texts[1] == content && texts[2] == Field(e, "title");
    var fields := FieldTexts(e, RssDateKeys);
    assert forall k :: 0 <= k < |RssDateKeys| ==> fields[k] == Field(e, RssDateKeys[k]);
  }

  // ---------------------------------------------------------------------------
  // Dates near a link

  /**
   * `_extract_nearby_date`: the texts of the link's ancestors, nearest
   * first, at most five of them, read without relative expressions (`abs`);
   * the first that parses answers.
   */
  method ExtractNearbyDate(ancestorTexts: seq<string>, abs: string -> Option<int>) returns (r: Option<int>)
    ensures r == FirstParsed(ancestorTexts[..if |ancestorTexts| < 5 then |ancestorTexts| else 5], abs)
  {
    var texts := ancestorTexts[..if |ancestorTexts| < 5 then |ancestorTexts| else 5];
    var i := 0;
    while i < |texts|
      invariant 0 <= i <= |texts|
      invariant forall j :: 0 <= j < i ==> abs(texts[j]).None?
    {
      var parsed := abs(texts[i]);
      if parsed.Some? {
        FirstParsedAt(texts, abs, i);
        return parsed;
      }
      i := i + 1;
    }
    return None;
  }

  // ---------------------------------------------------------------------------
  // What the patterns match

  lemma CountThenShape(word: string)
    ensures CountThen(word) == Cat(Group(1, Plus(IsDigit)), Cat(Star(IsSpace), Lit(word)))
  {
    var parts := [Group(1, Plus(IsDigit)), Star(IsSpace), Lit(word)];
    assert parts[1..] == [Star(IsSpace), Lit(word)];
    assert parts[1..][1..] == [Lit(word)];
    assert Seq(parts[1..][1..]) == Lit(word);
    assert Seq(parts[1..]) == Cat(Star(IsSpace), Lit(word));
  }

  /** Every end state of a concatenation comes from an end state of its second part. */
  lemma CatsFrom(b: Re, s: string, sts: seq<State>, lo: nat, e: State)
    requires AllBounded(sts, lo, |s|)
    requires e in Cats(b, s, sts, lo)
    ensures exists k :: 0 <= k < |sts| && e in Ends(b, s, sts[k])
    decreases |sts|
  {
    if e !in Ends(b, s, sts[0]) {
      CatsFrom(b, s, sts[1..], lo, e);
      var k :| 0 <= k < |sts[1..]| && e in Ends(b, s, sts[1..][k]);
      assert sts[1..][k] == sts[k + 1];
    }
  }

  /** A literal ends just after an occurrence of itself. */
  lemma LitEnd(w: string, s: string, a: State, e: State)
    requires Bounded(a, |s|)
    requires e in Ends(Lit(w), s, a)
    ensures e.pos == a.pos + |w| && OccursAt(s, w, a.pos)
  {
  }

  /** A pattern ending in a word ends just after an occurrence of that word. */
  lemma EndsWithWord(pre: Re, w: string, s: string, st: State, e: State)
    requires Bounded(st, |s|)
    requires e in Ends(Cat(pre, Lit(w)), s, st)
    ensures OccursAt(s, w, e.pos - |w|)
  {
    var sts := Ends(pre, s, st);
    assert Ends(Cat(pre, Lit(w)), s, st) == Cats(Lit(w), s, sts, st.pos);
    CatsFrom(Lit(w), s, sts, st.pos, e);
    var k :| 0 <= k < |sts| && e in Ends(Lit(w), s, sts[k]);
    LitEnd(w, s, sts[k], e);
  }

  /** A count pattern matches only in text that holds its word. */
  lemma CountThenNeedsWord(w: string, t: string)
    requires Search(CountThen(w), t).Some?
    ensures Contains(t, w)
  {
    CountThenShape(w);
    var f := Search(CountThen(w), t).value;
    var st0 := State(f.start, map[]);
    var e := Ends(CountThen(w), t, st0)[0];
    var heads := Ends(Group(1, Plus(IsDigit)), t, st0);
    CatsFrom(Cat(Star(IsSpace), Lit(w)), t, heads, f.start, e);
    var k :| 0 <= k < |heads| && e in Ends(Cat(Star(IsSpace), Lit(w)), t, heads[k]);
    EndsWithWord(Star(IsSpace), w, t, heads[k], e);
  }

  /** A count pattern matches nowhere in text without digits. */
  lemma CountThenNeedsDigit(w: string, t: string)
    requires forall i :: 0 <= i < |t| ==> !IsDigit(t[i])
    ensures Search(CountThen(w), t).None?
  {
    CountThenShape(w);
    forall j | 0 <= j <= |t| ensures MatchAt(CountThen(w), t, j).None? {
      assert j < |t| ==> !IsDigit(t[j]);
      assert RunLength(t, j, IsDigit, None) == 0;
      assert Ends(Group(1, Plus(IsDigit)), t, State(j, map[])) == [];
      assert Ends(CountThen(w), t, State(j, map[])) == Cats(Cat(Star(IsSpace), Lit(w)), t, [], j);
    }
  }

  /** A literal is found exactly where it occurs. */
  lemma SearchLit(w: string, t: string)
    ensures Search(Lit(w), t).Some? <==> Contains(t, w)
  {
    if Contains(t, w) {
      var i :| OccursAt(t, w, i);
      assert MatchAt(Lit(w), t, i).Some?;
    }
    if Search(Lit(w), t).Some? {
      var f := Search(Lit(w), t).value;
      assert Ends(Lit(w), t, State(f.start, map[])) != [];
      assert OccursAt(t, w, f.start);
    }
  }

  /** Digits followed by a word that starts with neither a digit nor a space: the whole text matches, the digits in group 1. */
  lemma CountThenFound(d: string, w: string)
    requires d != [] && AllDigits(d) && w != [] && !IsDigit(w[0]) && !IsSpace(w[0])
    ensures Search(CountThen(w), d + w) == Some(Found(0, State(|d + w|, map[1 := (0, |d|)])))
  {
    CountThenShape(w);
    var t := d + w;
    var st0 := State(0, map[]);
    var heads := Ends(Group(1, Plus(IsDigit)), t, st0);
    var st1 := State(|d|, map[1 := (0, |d|)]);
    var st2 := st1.(pos := |t|);
    var tail := Cat(Star(IsSpace), Lit(w));
    DigitsHead(d, w);
    WordTail(d, w);
    assert Cats(tail, t, heads, 0) == Ends(tail, t, heads[0]) + Cats(tail, t, heads[1..], 0);
    assert Ends(CountThen(w), t, st0) == Cats(tail, t, heads, 0);
    assert Ends(CountThen(w), t, st0)[0] == st2;
  }

  /** The digit group of a count pattern first ends where the digits end. */
  lemma DigitsHead(d: string, w: string)
    requires d != [] && AllDigits(d) && w != [] && !IsDigit(w[0])
    ensures Ends(Group(1, Plus(IsDigit)), d + w, State(0, map[])) != []
      && Ends(Group(1, Plus(IsDigit)), d + w, State(0, map[]))[0] == State(|d|, map[1 := (0, |d|)])
  {
    var t := d + w;
    assert t[|d|] == w[0];
    var n := RunLength(t, 0, IsDigit, None);
    assert forall k :: 0 <= k < |d| ==> t[k] == d[k];
    assert !IsDigit(t[|d|]);
    assert n == |d|;
    var st0 := State(0, map[]);
    assert Ends(Plus(IsDigit), t, st0)[0] == st0.(pos := |d|);
  }

  /** After the digits, no spaces and then the word itself reach the end of the text. */
  lemma WordTail(d: string, w: string)
    requires w != [] && !IsSpace(w[0])
    ensures var st1 := State(|d|, map[1 := (0, |d|)]);
      Ends(Cat(Star(IsSpace), Lit(w)), d + w, st1) == [st1.(pos := |d + w|)]
  {
    var t := d + w;
    var st1 := State(|d|, map[1 := (0, |d|)]);
    assert t[|d|] == w[0];
    assert RunLength(t, |d|, IsSpace, None) == 0;
    assert Ends(Star(IsSpace), t, st1) == [st1];
    assert t[|d|..|d| + |w|] == w;
    var st2 := st1.(pos := |t|);
    assert Ends(Lit(w), t, st1) == [st2];
    assert [st1][1..] == [];
    assert Cats(Lit(w), t, [st1], |d|) == [st2];
  }

  /** A word whose first character the text lacks does not occur in it. */
  lemma LacksFirst(t: string, w: string)
    requires w != [] && forall i :: 0 <= i < |t| ==> t[i] != w[0]
    ensures !Contains(t, w)
  {
    forall j ensures !OccursAt(t, w, j) {
      if 0 <= j <= |t| - |w| {
        assert t[j..j + |w|][0] == t[j];
      }
    }
  }

  // ---------------------------------------------------------------------------
  // Relative expressions: the behaviour the tests describe

  /**
   * "N小时前", "N分钟前", "N天前" with N in digits: the entries before the
   * word's own cannot match, and its own reads N units.
   */
  lemma CountedDelta(d: string, k: nat)
    requires k < 3 && d != [] && AllDigits(d)
    ensures RelativeDelta(d + CountWords[k]) == Some(ParseNat(d) * CountUnits[k])
  {
    var w := CountWords[k];
    var t := d + w;
    EarlierCountsMiss(d, k);
    CountThenFound(d, w);
    var f := Found(0, State(|t|, map[1 := (0, |d|)]));
    assert t[0..|d|] == d;
    assert GroupText(t, f, 1) == Some(d);
    assert RelativeFrom(t, k) == Some(ParseNat(d) * CountUnits[k]);
    if k >= 2 { assert RelativeFrom(t, 1) == RelativeFrom(t, 2); }
    if k >= 1 { assert RelativeFrom(t, 0) == RelativeFrom(t, 1); }
  }

  /** Digits then one counted word: the counted entries listed before that word's do not match. */
  lemma EarlierCountsMiss(d: string, k: nat)
    requires k < 3 && AllDigits(d)
    ensures forall j :: 0 <= j < k ==> Search(RelativeRules[j].pattern, d + CountWords[k]).None?
  {
    var w := CountWords[k];
    var t := d + w;
    forall j | 0 <= j < k ensures Search(RelativeRules[j].pattern, t).None? {
      var c := CountWords[j][0];
      assert c !in w;
      forall i | 0 <= i < |t| ensures t[i] != c {
        if i < |d| { assert t[i] == d[i]; } else { assert t[i] == w[i - |d|]; }
      }
      LacksFirst(t, CountWords[j]);
      if Search(CountThen(CountWords[j]), t).Some? { CountThenNeedsWord(CountWords[j], t); }
    }
  }

  /** In text without digits no counted entry matches. */
  lemma SkipCounted(t: string)
    requires forall i :: 0 <= i < |t| ==> !IsDigit(t[i])
    ensures RelativeDelta(t) == RelativeFrom(t, 3)
  {
    CountedMissFrom(t, 0);
  }

  lemma {:induction false} CountedMissFrom(t: string, j: nat)
    requires forall i :: 0 <= i < |t| ==> !IsDigit(t[i])
    requires j <= 3
    ensures RelativeFrom(t, j) == RelativeFrom(t, 3)
    decreases 3 - j
  {
    if j < 3 {
      CountedMisses(t, j);
      CountedMissFrom(t, j + 1);
    }
  }

  /** A counted entry does not match text without digits. */
  lemma CountedMisses(t: string, j: nat)
    requires forall i :: 0 <= i < |t| ==> !IsDigit(t[i])
    requires j < 3
    ensures RelativeFrom(t, j) == RelativeFrom(t, j + 1)
  {
    CountThenNeedsDigit(CountWords[j], t);
    assert RelativeRules[j].pattern == CountThen(CountWords[j]);
  }

  /**
   * Text without digits is read by the fixed words alone, in table order:
   * "刚刚" is now, else "昨天" one day back, else "今天" now.
   */
  lemma FixedWords(t: string)
    requires forall i :: 0 <= i < |t| ==> !IsDigit(t[i])
    ensures RelativeDelta(t) ==
      if Contains(t, "刚刚") then Some(0)
      else if Contains(t, "昨天") then Some(86400)
      else if Contains(t, "今天") then Some(0)
      else None
  {
    SkipCounted(t);
    SearchLit("刚刚", t);
    SearchLit("昨天", t);
    SearchLit("今天", t);
    assert RelativeRules[3] == Fixed(Lit("刚刚"), 0);
    assert RelativeRules[4] == Fixed(Lit("昨天"), 86400);
    assert RelativeRules[5] == Fixed(Lit("今天"), 0);
  }

  /** "3小时前" is three hours. */
  lemma HoursAgoExample()
    ensures RelativeDelta("3小时前") == Some(3 * 3600)
  {
    assert "3小时前" == "3" + CountWords[0];
    CountedDelta("3", 0);
  }

  /** "昨天" is one day. */
  lemma YesterdayExample()
    ensures RelativeDelta("昨天") == Some(86400)
  {
    var t := "昨天";
    assert OccursAt(t, "昨天", 0);
    LacksFirst(t, "刚刚");
    FixedWords(t);
  }

  /**
   * Stripped text that reads as a relative expression is answered by it
   * alone: the reference moved back by the delta, or nothing when that leaves
   * the datetime range, where the parse as written raises instead.
   */
  lemma RelativeAnswer(t: string, delta: nat, custom: Option<string -> Option<string>>, ref: int, fuzzy: string -> Option<int>)
    requires InRange(ref) && t != [] && Strip(t) == t && |t| <= RelativeMaxLength
    requires RelativeDelta(t) == Some(delta)
    ensures ParseHtmlDate(t, custom, ref, true, fuzzy) == (if Overflows(ref, delta) then None else Some(ref - delta))
    ensures ParseHtmlDateAsWritten(t, custom, ref, true, fuzzy) == (if Overflows(ref, delta) then Err("OverflowError") else Ok(Some(ref - delta)))
  {
  }

  /** Relative expressions are not read when they are switched off or the text is long. */
  lemma RelativeOff(text: string, custom: Option<string -> Option<string>>, ref: int, allowRelative: bool, fuzzy: string -> Option<int>)
    requires InRange(ref)
    requires !allowRelative || |Strip(text)| > RelativeMaxLength
    ensures ParseHtmlDateAsWritten(text, custom, ref, allowRelative, fuzzy) == Ok(ParseHtmlDate(text, custom, ref, allowRelative, fuzzy))
    ensures Strip(text) != "" ==>
      (ParseHtmlDate(text, custom, ref, allowRelative, fuzzy) ==
        match ExtractDateSnippet(Strip(text), custom)
        case None => None
        case Some(snippet) => SnippetDate(snippet, ref, fuzzy))
  {
  }

  /** Empty and blank text name no instant. */
  lemma BlankExample(custom: Option<string -> Option<string>>, ref: int, allowRelative: bool, fuzzy: string -> Option<int>)
    requires InRange(ref)
    ensures ParseHtmlDate("", custom, ref, allowRelative, fuzzy).None?
    ensures ParseHtmlDate("   ", custom, ref, allowRelative, fuzzy).None?
  {
    assert LeadCount("   ", IsSpace) == 3;
  }

  /**
   * "1000000天前" on 2026-02-24: a million days reach before year 1, so the
   * parse as written raises, where the corrected parse answers nothing.
   */
  lemma MillionDaysExample(custom: Option<string -> Option<string>>, fuzzy: string -> Option<int>)
    ensures InRange(Instant(2026, 2, 24, 12, 0, 0))
    ensures RelativeDelta("1000000天前") == Some(1000000 * 86400)
    ensures Overflows(Instant(2026, 2, 24, 12, 0, 0), 1000000 * 86400)
  {
    YearOfInstant(2026, 2, 24, 12, 0, 0);
    var d := "1000000";
    MillionDigits();
    assert "1000000天前" == d + CountWords[2];
    CountedDelta(d, 2);
  }

  lemma MillionDigits()
    ensures AllDigits("1000000") && ParseNat("1000000") == 1000000
  {
    var d := "1000000";
    assert d[..1] == "1" && ParseNat(d[..1]) == 1;
    assert d[..2][..1] == d[..1] && ParseNat(d[..2]) == 10;
    assert d[..3][..2] == d[..2] && ParseNat(d[..3]) == 100;
    assert d[..4][..3] == d[..3] && ParseNat(d[..4]) == 1000;
    assert d[..5][..4] == d[..4] && ParseNat(d[..5]) == 10000;
    assert d[..6][..5] == d[..5] && ParseNat(d[..6]) == 100000;
    assert d[..6] == d[..|d| - 1];
  }
}
