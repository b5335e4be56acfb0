/**
 * The part of Python's `re` the collector's patterns use, with the
 * backtracking order of the real engine: a pattern denotes, for a start
 * state, the list of end states in the order the engine tries them, and the
 * first one is the match.  Repetition is only over single-character classes,
 * which is all the patterns need.
 */
module Regex {
  import opened Wrappers

  datatype Re =
    /** One character satisfying `test`. */
    | Class(test: char -> bool)
    /** The literal text. */
    | Lit(text: string)
    | Cat(first: Re, second: Re)
    /** `left|right`: the left branch is tried first. */
    | Alt(left: Re, right: Re)
    /** `body?`, greedy. */
    | Opt(body: Re)
    /** `c{min,max}`, `c*`, `c+` over a character class, greedy; `max == None` is unbounded. */
    | Run(test: char -> bool, min: nat, max: Option<nat>)
    /** A capturing group. */
    | Group(id: nat, body: Re)

  /** A point of a match attempt: the position reached and the spans of the groups closed so far. */
  datatype State = State(pos: nat, groups: map<nat, (nat, nat)>)

  /** The position lies within a text of length `n`. */
  predicate Bounded(st: State, n: nat) {
    st.pos <= n
  }

  predicate AllBounded(sts: seq<State>, lo: nat, n: nat) {
    forall k :: 0 <= k < |sts| ==> lo <= sts[k].pos && Bounded(sts[k], n)
  }

  /** How many characters from `i` on satisfy `test`, at most `max`. */
  function RunLength(s: string, i: nat, test: char -> bool, max: Option<nat>): (n: nat)
    requires i <= |s|
    ensures i + n <= |s|
    ensures max.Some? ==> n <= max.value
    ensures forall k :: i <= k < i + n ==> test(s[k])
    ensures i + n < |s| && (max.None? || n < max.value) ==> !test(s[i + n])
    decreases |s| - i
  {
    if i == |s| || !test(s[i]) || (max.Some? && max.value == 0) then 0
    else 1 + RunLength(s, i + 1, test, if max.Some? then Some(max.value - 1) else None)
  }

  /** The end states of `re` from `st`, in the order the engine tries them. */
  function Ends(re: Re, s: string, st: State): (r: seq<State>)
    requires Bounded(st, |s|)
    ensures AllBounded(r, st.pos, |s|)
    decreases re, 0
  {
    match re
    case Class(test) =>
      if st.pos < |s| && test(s[st.pos]) then [st.(pos := st.pos + 1)] else []
    case Lit(text) =>
      if st.pos + |text| <= |s| && s[st.pos..st.pos + |text|] == text then [st.(pos := st.pos + |text|)] else []
    case Cat(a, b) => Cats(b, s, Ends(a, s, st), st.pos)
    case Alt(a, b) => Ends(a, s, st) + Ends(b, s, st)
    case Opt(a) => Ends(a, s, st) + [st]
    case Run(test, min, max) =>
      var n := RunLength(s, st.pos, test, max);
      if n < min then []
      else seq(n - min + 1, k requires 0 <= k <= n - min => st.(pos := st.pos + n - k))
    case Group(id, a) => Close(id, st.pos, Ends(a, s, st), |s|)
  }

  /** The end states of `b` from each of `sts` in turn: the backtracking order of a concatenation. */
  function Cats(b: Re, s: string, sts: seq<State>, lo: nat): (r: seq<State>)
    requires AllBounded(sts, lo, |s|)
    ensures AllBounded(r, lo, |s|)
    decreases b, |sts|
  {
    if sts == [] then []
    else Ends(b, s, sts[0]) + Cats(b, s, sts[1..], lo)
  }

  /** Record the span `from` to each end state as group `id`. */
  function Close(id: nat, from: nat, sts: seq<State>, n: nat): (r: seq<State>)
    requires AllBounded(sts, from, n)
    ensures |r| == |sts|
    ensures AllBounded(r, from, n)
    ensures forall k :: 0 <= k < |r| ==> r[k].pos == sts[k].pos && id in r[k].groups && r[k].groups[id] == (from, sts[k].pos)
  {
    seq(|sts|, k requires 0 <= k < |sts| => sts[k].(groups := sts[k].groups[id := (from, sts[k].pos)]))
  }

  /** `re.match` at `i`: the first end state of a match starting there. */
  function MatchAt(re: Re, s: string, i: nat): (r: Option<State>)
    requires i <= |s|
    ensures r.Some? ==> i <= r.value.pos && Bounded(r.value, |s|)
  {
    var e := Ends(re, s, State(i, map[]));
    if e == [] then None else Some(e[0])
  }

  /** A match: where it starts, and the state it ends in. */
  datatype Found = Found(start: nat, end: State)

  function SearchFrom(re: Re, s: string, i: nat): (r: Option<Found>)
    requires i <= |s|
    ensures r.None? ==> forall j :: i <= j <= |s| ==> MatchAt(re, s, j).None?
    ensures r.Some? ==> (i <= r.value.start <= r.value.end.pos <= |s| && Bounded(r.value.end, |s|)
      && MatchAt(re, s, r.value.start) == Some(r.value.end)
      && forall j :: i <= j < r.value.start ==> MatchAt(re, s, j).None?)
    decreases |s| - i
  {
    match MatchAt(re, s, i)
    case Some(e) => Some(Found(i, e))
    case None => if i == |s| then None else SearchFrom(re, s, i + 1)
  }

  /** `re.search`: the leftmost match, and at that position the first the engine tries. */
  function Search(re: Re, s: string): (r: Option<Found>)
    ensures r.None? ==> forall j :: 0 <= j <= |s| ==> MatchAt(re, s, j).None?
    ensures r.Some? ==> (r.value.start <= r.value.end.pos <= |s| && Bounded(r.value.end, |s|)
      && MatchAt(re, s, r.value.start) == Some(r.value.end)
      && forall j :: 0 <= j < r.value.start ==> MatchAt(re, s, j).None?)
  {
    SearchFrom(re, s, 0)
  }

  /** `match.group(0)`. */
  function Matched(s: string, f: Found): string
    requires f.start <= f.end.pos <= |s|
  {
    s[f.start..f.end.pos]
  }

  /** `match.group(id)`: `None` when the group took no part in the match. */
  function GroupText(s: string, f: Found, id: nat): Option<string> {
    if id in f.end.groups && f.end.groups[id].0 <= f.end.groups[id].1 <= |s| then
      Some(s[f.end.groups[id].0..f.end.groups[id].1])
    else None
  }

  /** `re.fullmatch`: some way through the pattern ends exactly at the end of the text. */
  predicate FullMatch(re: Re, s: string) {
    exists k :: 0 <= k < |Ends(re, s, State(0, map[]))| && Ends(re, s, State(0, map[]))[k].pos == |s|
  }

  /** `findall` with one group: the group of each match, scanning on from where the last one ended. */
  function FindAllFrom(re: Re, s: string, id: nat, i: nat): (r: seq<string>)
    requires i <= |s|
    decreases |s| - i
  {
    match SearchFrom(re, s, i)
    case None => []
    case Some(f) =>
      var text := if GroupText(s, f, id).Some? then GroupText(s, f, id).value else "";
      var next := if f.end.pos > f.start then f.end.pos else f.end.pos + 1;
      if next > |s| then [text] else [text] + FindAllFrom(re, s, id, next)
  }

  function FindAll(re: Re, s: string, id: nat): seq<string> {
    FindAllFrom(re, s, id, 0)
  }

  /** `findall` finds nothing exactly when `search` does. */
  lemma FindAllEmpty(re: Re, s: string, id: nat)
    ensures FindAll(re, s, id) == [] <==> Search(re, s).None?
  {
  }

  // ---------------------------------------------------------------------------
  // Building blocks

  /** A sequence of patterns, in order. */
  function Seq(parts: seq<Re>): Re {
    if parts == [] then Lit("")
    else if |parts| == 1 then parts[0]
    else Cat(parts[0], Seq(parts[1..]))
  }

  function AnyOf(chars: string): char -> bool {
    c => c in chars
  }

  function NoneOf(chars: string): char -> bool {
    c => c !in chars
  }

  function Star(test: char -> bool): Re { Run(test, 0, None) }

  function Plus(test: char -> bool): Re { Run(test, 1, None) }

  function Between(test: char -> bool, min: nat, max: nat): Re { Run(test, min, Some(max)) }

  /** `x|y|...` over literal alternatives, the first listed tried first. */
  function Lits(texts: seq<string>): Re
    requires texts != []
  {
    if |texts| == 1 then Lit(texts[0]) else Alt(Lit(texts[0]), Lits(texts[1..]))
  }

  /** A greedy run of a class ends where the class stops holding: the first try takes the whole run. */
  lemma RunFirstIsLongest(test: char -> bool, min: nat, s: string, st: State)
    requires Bounded(st, |s|)
    requires Ends(Run(test, min, None), s, st) != []
    ensures var e := Ends(Run(test, min, None), s, st)[0].pos;
      (forall k :: st.pos <= k < e ==> test(s[k])) && (e == |s| || !test(s[e]))
  {
  }
}
