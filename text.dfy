/**
 * String primitives shared by the model: Python's `str.isspace`, `str.lower`
 * (on ASCII letters), `strip`, `split()`, `" ".join`, `in`, `replace`,
 * `startswith`, `endswith`, `rfind` and `int()` on decimal digits.
 */
module Text {
  import opened Wrappers

  /** The characters Python's `str.isspace` (and `\s` in a `str` regex) accepts. */
  predicate IsSpace(c: char) {
    c == ' ' || ('\t' <= c <= '\r') || ('\U{1c}' <= c <= '\U{1f}') || c == '\U{85}'
    || c == '\U{a0}' || c == '\U{1680}' || ('\U{2000}' <= c <= '\U{200a}')
    || c == '\U{2028}' || c == '\U{2029}' || c == '\U{202f}' || c == '\U{205f}' || c == '\U{3000}'
  }

  predicate IsDigit(c: char) { '0' <= c <= '9' }

  predicate IsAsciiLetter(c: char) { ('a' <= c <= 'z') || ('A' <= c <= 'Z') }

  predicate NoSpace(s: string) { forall i :: 0 <= i < |s| ==> !IsSpace(s[i]) }

  predicate AllDigits(s: string) { forall i :: 0 <= i < |s| ==> IsDigit(s[i]) }

  function LowerChar(c: char): (r: char)
    ensures 'A' <= c <= 'Z' ==> 'a' <= r <= 'z' && r as int - c as int == 32
    ensures !('A' <= c <= 'Z') ==> r == c
  {
    if 'A' <= c <= 'Z' then (c as int + 32) as char else c
  }

  /** `str.lower()` on the characters the model distinguishes: ASCII letters fold, the rest stay. */
  function Lower(s: string): (r: string)
    ensures |r| == |s|
    ensures forall i :: 0 <= i < |s| ==> r[i] == LowerChar(s[i])
  {
    seq(|s|, i requires 0 <= i < |s| => LowerChar(s[i]))
  }

  lemma {:induction false} LowerIdempotent(s: string)
    ensures Lower(Lower(s)) == Lower(s)
  {
    var l := Lower(s);
    assert forall i :: 0 <= i < |l| ==> LowerChar(l[i]) == l[i];
  }

  lemma LowerAppend(a: string, b: string)
    ensures Lower(a + b) == Lower(a) + Lower(b)
  {
    assert forall i :: 0 <= i < |a + b| ==> Lower(a + b)[i] == (Lower(a) + Lower(b))[i];
  }

  /** `{tag.lower() for tag in tags}`. */
  function LoweredTags(tags: seq<string>): (r: set<string>)
    ensures forall t :: t in r <==> exists k :: 0 <= k < |tags| && Lower(tags[k]) == t
  {
    set k | 0 <= k < |tags| :: Lower(tags[k])
  }

  /** A character that is not an upper-case letter survives lower-casing. */
  lemma LowerKeeps(s: string, c: char)
    requires c in s && !('A' <= c <= 'Z')
    ensures c in Lower(s)
  {
    var i :| 0 <= i < |s| && s[i] == c;
    assert Lower(s)[i] == c;
  }

  /** Lower-casing introduces a character only from itself or its upper-case form. */
  lemma LowerLacks(s: string, c: char)
    requires c !in s && !('A' <= c <= 'Z')
    requires 'a' <= c <= 'z' ==> (c as int - 32) as char !in s
    ensures c !in Lower(s)
  {
  }

  // ---------------------------------------------------------------------------
  // Stripping

  /** Number of leading characters of `s` that belong to `cs`. */
  function LeadCount(s: string, cs: char -> bool): (n: nat)
    ensures n <= |s|
    ensures forall i :: 0 <= i < n ==> cs(s[i])
    ensures n < |s| ==> !cs(s[n])
  {
    if s == [] || !cs(s[0]) then 0 else 1 + LeadCount(s[1..], cs)
  }

  /** Number of trailing characters of `s` that belong to `cs`. */
  function TrailCount(s: string, cs: char -> bool): (n: nat)
    ensures n <= |s|
    ensures forall i :: |s| - n <= i < |s| ==> cs(s[i])
    ensures n < |s| ==> !cs(s[|s| - 1 - n])
  {
    if s == [] || !cs(s[|s| - 1]) then 0 else 1 + TrailCount(s[..|s| - 1], cs)
  }

  /** `s.strip(chars)` with the character class given as a predicate. */
  function StripBy(s: string, cs: char -> bool): (r: string)
    ensures exists i, j :: (0 <= i <= j <= |s| && r == s[i..j]
      && (forall k :: 0 <= k < i ==> cs(s[k]))
      && (forall k :: j <= k < |s| ==> cs(s[k])))
    ensures r != [] ==> !cs(r[0]) && !cs(r[|r| - 1])
    ensures (forall k :: 0 <= k < |s| ==> cs(s[k])) ==> r == []
    ensures |r| <= |s|
  {
    var a := LeadCount(s, cs);
    var t := s[a..];
    var b := TrailCount(t, cs);
    assert t[..|t| - b] == s[a..|s| - b];
    s[a..|s| - b]
  }

  function Strip(s: string): string { StripBy(s, IsSpace) }

  /** Stripping twice is stripping once. */
  lemma StripIdempotent(s: string)
    ensures Strip(Strip(s)) == Strip(s)
  {
    var t := Strip(s);
    if t != [] {
      assert LeadCount(t, IsSpace) == 0;
      assert TrailCount(t, IsSpace) == 0;
    }
  }

  /** A string with no space at either end is its own strip. */
  lemma StripUnchanged(s: string)
    requires s != [] ==> !IsSpace(s[0]) && !IsSpace(s[|s| - 1])
    ensures Strip(s) == s
  {
    if s != [] {
      assert LeadCount(s, IsSpace) == 0;
      assert TrailCount(s, IsSpace) == 0;
    }
  }

  /** `[t for t in parts if t]`: the non-empty strings, in order. */
  function NonEmpty(parts: seq<string>): (r: seq<string>)
    ensures |r| <= |parts|
    ensures forall t :: t in r <==> t in parts && t != ""
    ensures (forall k :: 0 <= k < |parts| ==> parts[k] != "") ==> r == parts
  {
    if parts == [] then []
    else (if parts[0] != "" then [parts[0]] else []) + NonEmpty(parts[1..])
  }

  function RStripChar(s: string, c: char): (r: string)
    ensures |r| <= |s| && r == s[..|r|]
    ensures r != [] ==> r[|r| - 1] != c
    ensures forall k :: |r| <= k < |s| ==> s[k] == c
  {
    if s != [] && s[|s| - 1] == c then RStripChar(s[..|s| - 1], c) else s
  }

  // ---------------------------------------------------------------------------
  // Whitespace splitting and joining

  /** Length of the non-space run that starts `s`. */
  function WordLen(s: string): (n: nat)
    ensures n <= |s| && NoSpace(s[..n])
    ensures n < |s| ==> IsSpace(s[n])
  {
    if s == [] || IsSpace(s[0]) then 0 else 1 + WordLen(s[1..])
  }

  /** `s.split()`: the maximal runs of non-space characters, in order. */
  function Words(s: string): (ws: seq<string>)
    ensures forall k :: 0 <= k < |ws| ==> ws[k] != [] && NoSpace(ws[k])
    decreases |s|
  {
    var a := LeadCount(s, IsSpace);
    var t := s[a..];
    if t == [] then []
    else
      var n := WordLen(t);
      [t[..n]] + Words(t[n..])
  }

  /** `sep.join(parts)`. */
  function Join(parts: seq<string>, sep: string): string {
    if parts == [] then []
    else if |parts| == 1 then parts[0]
    else parts[0] + sep + Join(parts[1..], sep)
  }

  lemma {:induction false} WordsOfWordThenSpace(w: string, rest: string)
    requires w != [] && NoSpace(w)
    requires rest == [] || IsSpace(rest[0])
    ensures Words(w + rest) == [w] + Words(rest)
  {
    var s := w + rest;
    assert !IsSpace(s[0]);
    assert LeadCount(s, IsSpace) == 0;
    assert s[0..] == s;
    var n := WordLen(s);
    assert s[..|w|] == w;
    assert n == |w|;
    assert s[n..] == rest;
  }

  lemma {:induction false} WordsOfSpaceThen(rest: string)
    ensures Words(" " + rest) == Words(rest)
  {
    var s := " " + rest;
    var a := LeadCount(s, IsSpace);
    assert a == 1 + LeadCount(rest, IsSpace);
    assert s[a..] == rest[LeadCount(rest, IsSpace)..];
  }

  /**
   * Splitting the space-joined words gives the words back: `" ".join` and
   * `split()` are inverse on lists of non-empty space-free words.
   */
  lemma {:induction false} WordsOfJoin(ws: seq<string>)
    requires forall k :: 0 <= k < |ws| ==> ws[k] != [] && NoSpace(ws[k])
    ensures Words(Join(ws, " ")) == ws
  {
    if ws == [] {
      assert LeadCount([], IsSpace) == 0;
    } else if |ws| == 1 {
      WordsOfWordThenSpace(ws[0], []);
      assert ws[0] + [] == ws[0];
      assert Words([]) == [] by { assert LeadCount([], IsSpace) == 0; }
    } else {
      var rest := Join(ws[1..], " ");
      assert Join(ws, " ") == ws[0] + (" " + rest);
      WordsOfWordThenSpace(ws[0], " " + rest);
      WordsOfSpaceThen(rest);
      WordsOfJoin(ws[1..]);
      assert [ws[0]] + ws[1..] == ws;
    }
  }

  /**
   * `" ".join(s.split())`, which is also `re.sub(r"\s+", " ", s).strip()`:
   * every whitespace run becomes one space and the ends are trimmed.
   */
  function CollapseSpaces(s: string): string {
    Join(Words(s), " ")
  }

  /** Collapsing keeps the words and is idempotent. */
  lemma CollapseSpacesKeepsWords(s: string)
    ensures Words(CollapseSpaces(s)) == Words(s)
    ensures CollapseSpaces(CollapseSpaces(s)) == CollapseSpaces(s)
  {
    WordsOfJoin(Words(s));
  }

  lemma {:induction false} JoinNoSurroundingSpace(ws: seq<string>)
    requires forall k :: 0 <= k < |ws| ==> ws[k] != [] && NoSpace(ws[k])
    ensures var j := Join(ws, " "); j != [] ==> !IsSpace(j[0]) && !IsSpace(j[|j| - 1])
    ensures var j := Join(ws, " "); forall i :: 0 <= i < |j| && IsSpace(j[i]) ==>
      (j[i] == ' ' && 0 < i < |j| - 1 && !IsSpace(j[i - 1]) && !IsSpace(j[i + 1]))
  {
    if |ws| > 1 {
      JoinNoSurroundingSpace(ws[1..]);
      var rest := Join(ws[1..], " ");
      var j := ws[0] + " " + rest;
      assert j == Join(ws, " ");
      assert rest != [] by { assert |rest| >= |ws[1]| by { JoinLength(ws[1..]); } }
      forall i | 0 <= i < |j| && IsSpace(j[i])
        ensures j[i] == ' ' && 0 < i < |j| - 1 && !IsSpace(j[i - 1]) && !IsSpace(j[i + 1])
      {
        if i > |ws[0]| {
          assert j[i] == rest[i - |ws[0]| - 1];
          if i - 1 > |ws[0]| { assert j[i - 1] == rest[i - 1 - |ws[0]| - 1]; }
        }
      }
    }
  }

  lemma {:induction false} JoinLength(ws: seq<string>)
    requires ws != []
    ensures |Join(ws, " ")| >= |ws[0]|
  {
  }

  /** The collapsed text has no leading, trailing, doubled or non-blank whitespace. */
  lemma CollapseSpacesNormalForm(s: string)
    ensures var c := CollapseSpaces(s); c != [] ==> !IsSpace(c[0]) && !IsSpace(c[|c| - 1])
    ensures var c := CollapseSpaces(s); forall i :: 0 <= i < |c| && IsSpace(c[i]) ==>
      (c[i] == ' ' && 0 < i < |c| - 1 && !IsSpace(c[i - 1]) && !IsSpace(c[i + 1]))
  {
    JoinNoSurroundingSpace(Words(s));
  }

  // ---------------------------------------------------------------------------
  // Substrings

  predicate StartsWith(s: string, p: string) { |p| <= |s| && s[..|p|] == p }

  predicate EndsWith(s: string, p: string) { |p| <= |s| && s[|s| - |p|..] == p }

  /** `t` occurs in `s` at index `i`. */
  predicate OccursAt(s: string, t: string, i: int) {
    0 <= i <= |s| - |t| && s[i..i + |t|] == t
  }

  /** `t in s` for strings. */
  function Contains(s: string, t: string): (r: bool)
    ensures r <==> exists i :: OccursAt(s, t, i)
    decreases |s|
  {
    if StartsWith(s, t) then
      assert OccursAt(s, t, 0);
      true
    else if s == [] then
      assert forall i :: OccursAt(s, t, i) ==> i == 0;
      false
    else
      var r := Contains(s[1..], t);
      assert forall i :: OccursAt(s[1..], t, i) <==> OccursAt(s, t, i + 1) by {
        forall i ensures OccursAt(s[1..], t, i) <==> OccursAt(s, t, i + 1) {
          if 0 <= i <= |s[1..]| - |t| { assert s[1..][i..i + |t|] == s[i + 1..i + 1 + |t|]; }
        }
      }
      assert r ==> exists i :: OccursAt(s, t, i) by {
        if r {
          var i :| OccursAt(s[1..], t, i);
          assert OccursAt(s, t, i + 1);
        }
      }
      assert (exists i :: OccursAt(s, t, i)) ==> r by {
        if exists i :: OccursAt(s, t, i) {
          var i :| OccursAt(s, t, i);
          assert i != 0;
          assert OccursAt(s[1..], t, i - 1);
        }
      }
      r
  }

  /** `s.find(t, i)`: the first index from `i` on where `t` occurs, or -1. */
  function FindFrom(s: string, t: string, i: nat): (r: int)
    requires i <= |s|
    ensures r == -1 || (i <= r && OccursAt(s, t, r))
    ensures forall j :: i <= j && (r == -1 || j < r) ==> !OccursAt(s, t, j)
    decreases |s| - i
  {
    if OccursAt(s, t, i) then i
    else if i == |s| then -1
    else FindFrom(s, t, i + 1)
  }

  /** `s.find(t)`. */
  function Find(s: string, t: string): (r: int)
    ensures r == -1 <==> !Contains(s, t)
    ensures r >= 0 ==> OccursAt(s, t, r) && forall j :: 0 <= j < r ==> !OccursAt(s, t, j)
  {
    FindFrom(s, t, 0)
  }

  /** `any(k in s for k in keys)`. */
  predicate ContainsAny(s: string, keys: seq<string>) {
    exists k :: 0 <= k < |keys| && Contains(s, keys[k])
  }

  /** The positions below `n` of the keywords whose lower-cased form occurs in `lowered`. */
  function Hits(lowered: string, keywords: seq<string>, n: int): set<int> {
    set k | 0 <= k < n && k < |keywords| && Contains(lowered, Lower(keywords[k]))
  }

  /** One more keyword adds one hit exactly when it occurs. */
  lemma HitsStep(lowered: string, keywords: seq<string>, j: nat)
    requires j < |keywords|
    ensures |Hits(lowered, keywords, j + 1)| ==
      |Hits(lowered, keywords, j)| + (if Contains(lowered, Lower(keywords[j])) then 1 else 0)
  {
    var before := Hits(lowered, keywords, j);
    if Contains(lowered, Lower(keywords[j])) {
      assert Hits(lowered, keywords, j + 1) == before + {j};
      assert j !in before;
    } else {
      assert Hits(lowered, keywords, j + 1) == before;
    }
  }

  /** `s.replace(pat, rep)`: leftmost, non-overlapping occurrences of a non-empty `pat`. */
  function Replace(s: string, pat: string, rep: string): (r: string)
    requires pat != []
    ensures !Contains(s, pat) ==> r == s
    decreases |s|
  {
    if StartsWith(s, pat) then
      assert s[0..|pat|] == pat;
      rep + Replace(s[|pat|..], pat, rep)
    else if s == [] then []
    else
      assert !Contains(s, pat) ==> !Contains(s[1..], pat) by {
        if Contains(s[1..], pat) {
          var i :| OccursAt(s[1..], pat, i);
          assert s[1..][i..i + |pat|] == s[i + 1..i + 1 + |pat|];
          assert OccursAt(s, pat, i + 1);
        }
      }
      [s[0]] + Replace(s[1..], pat, rep)
  }

  /** `s` without any occurrence of `c`, the rest kept in order. */
  function Without(s: string, c: char): (r: string)
    ensures c !in r
    ensures forall x :: x != c ==> (x in r <==> x in s)
  {
    if s == [] then []
    else
      var rest := Without(s[1..], c);
      assert forall x :: x in s <==> x == s[0] || x in s[1..];
      if s[0] == c then rest else [s[0]] + rest
  }

  /** Replacing a one-character pattern by nothing removes that character. */
  lemma {:induction false} ReplaceCharByNothing(s: string, c: char)
    ensures Replace(s, [c], "") == Without(s, c)
  {
    if s != [] {
      ReplaceCharByNothing(s[1..], c);
      if s[0] == c {
        assert StartsWith(s, [c]);
        assert s[|[c]|..] == s[1..];
      } else {
        assert !StartsWith(s, [c]);
      }
    }
  }

  /** A pattern whose first character `s` lacks is not replaced anywhere. */
  lemma ReplaceAbsent(s: string, pat: string, rep: string)
    requires pat != [] && pat[0] !in s
    ensures Replace(s, pat, rep) == s
  {
  }

  /** `s.rfind(c, 0, end)`: the last index before `end` holding `c`, or -1. */
  function RFindChar(s: string, c: char, end: nat): (r: int)
    ensures -1 <= r < end && r < |s|
    ensures r >= 0 ==> s[r] == c
    ensures forall k :: r < k < end && k < |s| ==> s[k] != c
  {
    var e := if end < |s| then end else |s|;
    if e == 0 then -1
    else if s[e - 1] == c then e - 1
    else RFindChar(s, c, e - 1)
  }

  // ---------------------------------------------------------------------------
  // Decimal numbers

  function DigitValue(c: char): nat requires IsDigit(c) { c as int - '0' as int }

  /** `int(s)` for a string of ASCII digits (leading zeros allowed). */
  function ParseNat(s: string): (n: nat)
    requires AllDigits(s)
    ensures s != [] ==> n < Pow10(|s|)
  {
    if s == [] then 0 else 10 * ParseNat(s[..|s| - 1]) + DigitValue(s[|s| - 1])
  }

  function Pow10(k: nat): (p: nat)
    ensures p >= 1
  {
    if k == 0 then 1 else 10 * Pow10(k - 1)
  }

  /** Decimal rendering (`str(n)` for a natural number). */
  function ShowNat(n: nat): (s: string)
    ensures s != [] && AllDigits(s)
    ensures ParseNat(s) == n
  {
    if n < 10 then ['0' + n as char]
    else
      var p := ShowNat(n / 10);
      var s := p + ['0' + (n % 10) as char];
      assert s[..|s| - 1] == p;
      s
  }

  /** Zero-padded two-digit rendering, as `%02d` / `%m` / `%d` / `%H` / `%M` produce. */
  function Show2(n: nat): (s: string)
    requires n < 100
    ensures |s| == 2 && AllDigits(s) && ParseNat(s) == n
  {
    var s := ['0' + (n / 10) as char, '0' + (n % 10) as char];
    assert s[..1] == [s[0]];
    s
  }

  /** `int(s)` for a string: an optionally signed decimal numeral between spaces. */
  function ParseInt(s: string): (r: Result<int>)
    ensures r.Ok? ==> Strip(s) != ""
  {
    Numeral(Strip(s))
  }

  /** An optionally signed decimal numeral with nothing around it. */
  function Numeral(t: string): (r: Result<int>)
    ensures r.Ok? ==> t != ""
  {
    if t != [] && AllDigits(t) then Ok(ParseNat(t))
    else if |t| > 1 && (t[0] == '-' || t[0] == '+') && AllDigits(t[1..]) then
      var n: int := ParseNat(t[1..]);
      Ok(if t[0] == '-' then -n else n)
    else Err("ValueError: invalid literal for int()")
  }

  /** `str(n)` for an integer. */
  function ShowInt(n: int): (s: string)
    ensures s != ""
  {
    if n < 0 then "-" + ShowNat(-n) else ShowNat(n)
  }

  /** A rendered negative number reads back through its sign. */
  lemma NumeralNegative(n: nat)
    requires n > 0
    ensures Numeral("-" + ShowNat(n)) == Ok(-(n as int))
  {
    var s := "-" + ShowNat(n);
    assert s[1..] == ShowNat(n);
    assert !IsDigit(s[0]);
  }

  /** A rendered integer has no surrounding space. */
  lemma ShowIntStripped(n: int)
    ensures Strip(ShowInt(n)) == ShowInt(n)
  {
    var s := ShowInt(n);
    var digits := ShowNat(if n < 0 then -n else n);
    assert IsDigit(s[|s| - 1]) by {
      assert s[|s| - 1] == digits[|digits| - 1];
    }
    StripUnchanged(s);
  }

  /** `int(str(n)) == n`. */
  lemma ParseIntShowInt(n: int)
    ensures ParseInt(ShowInt(n)) == Ok(n)
  {
    ShowIntStripped(n);
    if n < 0 {
      NumeralNegative(-n);
    }
  }
}
