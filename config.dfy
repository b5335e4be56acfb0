/**
 * Configuration loading: `${NAME}` and `${NAME:-default}` references in
 * string values are replaced from the environment, recursively through
 * lists and mappings, and `load_sources` keeps the enabled source entries.
 * YAML parsing itself is not modelled: a file's content arrives as a
 * `Yaml` value.
 */
module Config {
  import opened Wrappers

  // ---------------------------------------------------------------------------
  // `${NAME}` and `${NAME:-default}`

  /** A character of `[A-Z0-9_]`. */
  predicate IsNameChar(c: char) {
    'A' <= c <= 'Z' || '0' <= c <= '9' || c == '_'
  }

  predicate IsName(name: string) {
    name != [] && forall k :: 0 <= k < |name| ==> IsNameChar(name[k])
  }

  /** Length of the run of name characters that starts at `i`. */
  function NameRun(s: string, i: nat): (n: nat)
    requires i <= |s|
    ensures i + n <= |s|
    ensures forall k :: i <= k < i + n ==> IsNameChar(s[k])
    ensures i + n < |s| ==> !IsNameChar(s[i + n])
    decreases |s| - i
  {
    if i < |s| && IsNameChar(s[i]) then 1 + NameRun(s, i + 1) else 0
  }

  /** Index of the first `}` at or after `i`, or -1. */
  function CloseFrom(s: string, i: nat): (r: int)
    requires i <= |s|
    ensures r == -1 || (i <= r < |s| && s[r] == '}')
    ensures forall k :: i <= k < |s| && (r == -1 || k < r) ==> s[k] != '}'
    decreases |s| - i
  {
    if i == |s| then -1 else if s[i] == '}' then i else CloseFrom(s, i + 1)
  }

  /** A reference found in the text: the variable, its default, and how many characters it spans. */
  datatype Reference = Reference(name: string, default: Option<string>, length: nat)

  /** `_ENV_PATTERN.match(s)`: the reference that starts the text, if any. */
  function MatchAt(s: string): (r: Option<Reference>)
    ensures r.Some? ==> 0 < r.value.length <= |s|
  {
    if !(2 <= |s| && s[0] == '$' && s[1] == '{') then None
    else
      var n := NameRun(s, 2);
      var j := 2 + n;
      if n == 0 || j == |s| then None
      else if s[j] == '}' then Some(Reference(s[2..j], None, j + 1))
      else if j + 1 < |s| && s[j] == ':' && s[j + 1] == '-' then
        var k := CloseFrom(s, j + 2);
        if k < 0 then None else Some(Reference(s[2..j], Some(s[j + 2..k]), k + 1))
      else None
  }

  /** The text a reference becomes: a non-empty value, else the default, else "". */
  function Replacement(ref: Reference, env: map<string, string>): string {
    var value := if ref.name in env then env[ref.name] else "";
    if value != "" then value
    else if ref.default.Some? then ref.default.value
    else ""
  }

  /** `_resolve_env_string`: `_ENV_PATTERN.sub`, scanning left to right without rescanning a replacement. */
  function ResolveEnvString(s: string, env: map<string, string>): string
    decreases |s|
  {
    if s == [] then ""
    else
      var m := MatchAt(s);
      if m.Some? then Replacement(m.value, env) + ResolveEnvString(s[m.value.length..], env)
      else [s[0]] + ResolveEnvString(s[1..], env)
  }

  /** A string without `$` resolves to itself. */
  lemma {:induction false} ResolveNoDollar(s: string, env: map<string, string>)
    requires '$' !in s
    ensures ResolveEnvString(s, env) == s
    decreases |s|
  {
    if s != [] {
      assert MatchAt(s).None?;
      assert '$' !in s[1..];
      ResolveNoDollar(s[1..], env);
      assert s == [s[0]] + s[1..];
    }
  }

  /** A run of exactly `n` name characters at `i`. */
  lemma {:induction false} NameRunAt(s: string, i: nat, n: nat)
    requires i + n < |s| && !IsNameChar(s[i + n])
    requires forall k :: i <= k < i + n ==> IsNameChar(s[k])
    ensures NameRun(s, i) == n
    decreases n
  {
    if n > 0 {
      NameRunAt(s, i + 1, n - 1);
    }
  }

  /** The first `}` from `i` is at `i + n`. */
  lemma {:induction false} CloseAt(s: string, i: nat, n: nat)
    requires i + n < |s| && s[i + n] == '}'
    requires forall k :: i <= k < i + n ==> s[k] != '}'
    ensures CloseFrom(s, i) == i + n
    decreases n
  {
    if n > 0 {
      CloseAt(s, i + 1, n - 1);
    }
  }

  /** `${NAME}` starting a text is a reference without a default. */
  lemma MatchPlain(name: string, rest: string)
    requires IsName(name)
    ensures var s := "${" + name + "}" + rest;
      MatchAt(s) == Some(Reference(name, None, |name| + 3)) && s[|name| + 3..] == rest
  {
    var s := "${" + name + "}" + rest;
    assert forall k :: 0 <= k < |name| ==> s[2 + k] == name[k];
    assert s[2 + |name|] == '}';
    NameRunAt(s, 2, |name|);
    assert s[2..2 + |name|] == name;
    assert s[|name| + 3..] == rest;
  }

  /** Where the pieces of `${NAME:-default}rest` sit. */
  lemma DefaultLayout(name: string, default: string, rest: string)
    ensures var s := "${" + name + ":-" + default + "}" + rest;
      var j := 2 + |name|;
      (forall k :: 0 <= k < |name| ==> s[2 + k] == name[k])
      && s[j] == ':' && s[j + 1] == '-'
      && (forall k :: 0 <= k < |default| ==> s[j + 2 + k] == default[k])
      && s[j + 2 + |default|] == '}'
      && s[2..j] == name && s[j + 2..j + 2 + |default|] == default && s[j + 3 + |default|..] == rest
  {
    var s := "${" + name + ":-" + default + "}" + rest;
    var j := 2 + |name|;
    assert s[2..j] == name;
    assert s[j + 2..j + 2 + |default|] == default;
    assert s[j + 3 + |default|..] == rest;
  }

  /** `${NAME:-default}` starting a text is a reference with that default. */
  lemma MatchDefault(name: string, default: string, rest: string)
    requires IsName(name) && '}' !in default
    ensures var s := "${" + name + ":-" + default + "}" + rest;
      var n := |name| + |default| + 5;
      MatchAt(s) == Some(Reference(name, Some(default), n)) && s[n..] == rest
  {
    var s := "${" + name + ":-" + default + "}" + rest;
    var j := 2 + |name|;
    DefaultLayout(name, default, rest);
    NameRunAt(s, 2, |name|);
    CloseAt(s, j + 2, |default|);
  }

  /** `${NAME}` then more text: the reference becomes the variable's value, or "" when it is unset or empty. */
  lemma ResolvePlain(name: string, rest: string, env: map<string, string>)
    requires IsName(name)
    ensures ResolveEnvString("${" + name + "}" + rest, env)
      == (if name in env && env[name] != "" then env[name] else "") + ResolveEnvString(rest, env)
  {
    MatchPlain(name, rest);
  }

  /** `${NAME:-default}` then more text: the value when it is set and non-empty, else the default. */
  lemma ResolveWithDefault(name: string, default: string, rest: string, env: map<string, string>)
    requires IsName(name) && '}' !in default
    ensures ResolveEnvString("${" + name + ":-" + default + "}" + rest, env)
      == (if name in env && env[name] != "" then env[name] else default) + ResolveEnvString(rest, env)
  {
    MatchDefault(name, default, rest);
  }

  /** A text that does not start with a reference keeps its first character. */
  lemma ResolveSkip(s: string, env: map<string, string>)
    requires s != [] && MatchAt(s).None?
    ensures ResolveEnvString(s, env) == [s[0]] + ResolveEnvString(s[1..], env)
  {
  }

  /** `${` followed by something other than a name is copied as it is. */
  lemma NotANameVerbatim(s: string, env: map<string, string>)
    requires |s| >= 3 && s[0] == '$' && s[1] == '{' && !IsNameChar(s[2])
    ensures MatchAt(s).None?
    ensures ResolveEnvString(s, env) == "${" + ResolveEnvString(s[2..], env)
  {
    assert NameRun(s, 2) == 0;
    var t := s[1..];
    assert t[0] == '{' && t[1..] == s[2..];
    ResolveSkip(s, env);
    ResolveSkip(t, env);
    assert [s[0]] + ([t[0]] + ResolveEnvString(s[2..], env)) == "${" + ResolveEnvString(s[2..], env);
  }

  /** `${NAME:-default` never closed is no reference. */
  lemma MatchUnclosed(name: string, default: string)
    requires IsName(name) && '}' !in default
    ensures MatchAt("${" + name + ":-" + default).None?
  {
    var s := "${" + name + ":-" + default;
    var j := 2 + |name|;
    assert forall k :: 0 <= k < |name| ==> s[2 + k] == name[k];
    assert s[j] == ':' && s[j + 1] == '-';
    NameRunAt(s, 2, |name|);
    assert forall k :: j + 2 <= k < |s| ==> s[k] == default[k - j - 2];
  }

  /** ... and is copied as it is when nothing in it is a `$`. */
  lemma UnclosedVerbatim(name: string, default: string, env: map<string, string>)
    requires IsName(name) && '}' !in default && '$' !in default
    ensures ResolveEnvString("${" + name + ":-" + default, env) == "${" + name + ":-" + default
  {
    var s := "${" + name + ":-" + default;
    MatchUnclosed(name, default);
    var t := s[1..];
    assert t == "{" + name + ":-" + default;
    assert '$' !in name by {
      assert forall k :: 0 <= k < |name| ==> IsNameChar(name[k]);
    }
    ResolveNoDollar(t, env);
    assert s == [s[0]] + t;
  }

  /** The pieces of the two examples below. */
  lemma ExampleTexts()
    ensures IsName("RSSHUB_BASE_URL") && '}' !in "http://0.0.0.0:1200" && '$' !in "/huxiu/search/AI"
  {
  }

  /** `${RSSHUB_BASE_URL}/huxiu/search/AI` with the variable set to `http://127.0.0.1:1200`. */
  lemma InlineVariableExample(env: map<string, string>)
    requires "RSSHUB_BASE_URL" in env && env["RSSHUB_BASE_URL"] == "http://127.0.0.1:1200"
    ensures ResolveEnvString("${" + "RSSHUB_BASE_URL" + "}" + "/huxiu/search/AI", env)
      == "http://127.0.0.1:1200" + "/huxiu/search/AI"
  {
    var name, rest := "RSSHUB_BASE_URL", "/huxiu/search/AI";
    ExampleTexts();
    ResolvePlain(name, rest, env);
    ResolveNoDollar(rest, env);
  }

  /** `${RSSHUB_BASE_URL:-http://0.0.0.0:1200}/huxiu/search/AI` with the variable unset. */
  lemma DefaultValueExample(env: map<string, string>)
    requires "RSSHUB_BASE_URL" !in env
    ensures ResolveEnvString("${" + "RSSHUB_BASE_URL" + ":-" + "http://0.0.0.0:1200" + "}" + "/huxiu/search/AI", env)
      == "http://0.0.0.0:1200" + "/huxiu/search/AI"
  {
    var name, default, rest := "RSSHUB_BASE_URL", "http://0.0.0.0:1200", "/huxiu/search/AI";
    ExampleTexts();
    ResolveWithDefault(name, default, rest, env);
    ResolveNoDollar(rest, env);
  }

  // ---------------------------------------------------------------------------
  // YAML values

  /** A loaded YAML document: scalars, lists and string-keyed mappings. */
  datatype Yaml =
    | YNull
    | YBool(b: bool)
    | YInt(i: int)
    | YStr(s: string)
    | YList(items: seq<Yaml>)
    | YDict(entries: seq<(string, Yaml)>)

  /** Python truthiness. */
  predicate Truthy(v: Yaml) {
    match v
    case YNull => false
    case YBool(b) => b
    case YInt(i) => i != 0
    case YStr(s) => s != ""
    case YList(items) => items != []
    case YDict(entries) => entries != []
  }

  /** `_resolve_env_value`: strings resolved, lists and mappings rebuilt element by element. */
  function ResolveValue(v: Yaml, env: map<string, string>): Yaml
    decreases v
  {
    match v
    case YStr(s) => YStr(ResolveEnvString(s, env))
    case YList(items) => YList(seq(|items|, k requires 0 <= k < |items| => ResolveValue(items[k], env)))
    case YDict(entries) =>
      YDict(seq(|entries|, k requires 0 <= k < |entries| => (entries[k].0, ResolveValue(entries[k].1, env))))
    case _ => v
  }

  /** Same constructors, same keys in the same order, same lengths, and the same non-string scalars. */
  predicate SameShape(a: Yaml, b: Yaml)
    decreases a
  {
    match a
    case YStr(_) => b.YStr?
    case YList(items) =>
      b.YList? && |b.items| == |items|
      && forall k :: 0 <= k < |items| ==> SameShape(items[k], b.items[k])
    case YDict(entries) =>
      b.YDict? && |b.entries| == |entries|
      && forall k :: 0 <= k < |entries| ==>
        (entries[k].0 == b.entries[k].0 && SameShape(entries[k].1, b.entries[k].1))
    case _ => b == a
  }

  /** Resolution keeps the shape of the document. */
  lemma {:induction false} ResolveKeepsShape(v: Yaml, env: map<string, string>)
    ensures SameShape(v, ResolveValue(v, env))
    decreases v
  {
    match v
    case YList(items) =>
      forall k | 0 <= k < |items| ensures SameShape(items[k], ResolveValue(v, env).items[k]) {
        ResolveKeepsShape(items[k], env);
      }
    case YDict(entries) =>
      forall k | 0 <= k < |entries|
        ensures entries[k].0 == ResolveValue(v, env).entries[k].0
          && SameShape(entries[k].1, ResolveValue(v, env).entries[k].1)
      {
        ResolveKeepsShape(entries[k].1, env);
      }
    case _ =>
  }

  /** No string in the document holds a `$`. */
  predicate DollarFree(v: Yaml)
    decreases v
  {
    match v
    case YStr(s) => '$' !in s
    case YList(items) => forall k :: 0 <= k < |items| ==> DollarFree(items[k])
    case YDict(entries) => forall k :: 0 <= k < |entries| ==> DollarFree(entries[k].1)
    case _ => true
  }

  /** A document without references is left exactly as it is. */
  lemma {:induction false} ResolveDollarFree(v: Yaml, env: map<string, string>)
    requires DollarFree(v)
    ensures ResolveValue(v, env) == v
    decreases v
  {
    match v
    case YStr(s) => ResolveNoDollar(s, env);
    case YList(items) =>
      forall k | 0 <= k < |items| ensures ResolveValue(items[k], env) == items[k] {
        ResolveDollarFree(items[k], env);
      }
      assert ResolveValue(v, env).items == items;
    case YDict(entries) =>
      forall k | 0 <= k < |entries| ensures ResolveValue(entries[k].1, env) == entries[k].1 {
        ResolveDollarFree(entries[k].1, env);
      }
      assert ResolveValue(v, env).entries == entries;
    case _ =>
  }

  // ---------------------------------------------------------------------------
  // `load_sources`

  /** `_load_yaml`: an empty document is `{}`, then references are resolved. */
  function LoadYaml(data: Yaml, env: map<string, string>): Yaml {
    ResolveValue(if Truthy(data) then data else YDict([]), env)
  }

  /** The exceptions `load_sources` lets escape, by their Python messages. */
  const NoGet: string := "AttributeError: object has no attribute 'get'"
  const StrNoGet: string := "AttributeError: 'str' object has no attribute 'get'"
  const NotIterable: string := "TypeError: object is not iterable"

  /** `mapping.get(key)`. */
  function Get(entries: seq<(string, Yaml)>, key: string): Option<Yaml> {
    if entries == [] then None
    else if entries[0].0 == key then Some(entries[0].1)
    else Get(entries[1..], key)
  }

  /** A key is found exactly when some entry has it, and then with that entry's value. */
  lemma {:induction false} GetFinds(entries: seq<(string, Yaml)>, key: string)
    ensures Get(entries, key).None? <==> forall k :: 0 <= k < |entries| ==> entries[k].0 != key
    ensures Get(entries, key).Some? ==> exists k :: 0 <= k < |entries| && entries[k] == (key, Get(entries, key).value)
  {
    if entries != [] && entries[0].0 != key {
      GetFinds(entries[1..], key);
      assert forall k :: 1 <= k < |entries| ==> entries[k] == entries[1..][k - 1];
      if Get(entries, key).Some? {
        var k :| 0 <= k < |entries[1..]| && entries[1..][k] == (key, Get(entries, key).value);
        assert entries[k + 1] == entries[1..][k];
      }
    }
  }

  /** `item.get("enabled", True)`, taken as a truth value. */
  predicate IsEnabled(item: seq<(string, Yaml)>) {
    var flag := Get(item, "enabled");
    flag.None? || Truthy(flag.value)
  }

  /** The entry when it is enabled, else nothing. */
  function Kept(item: seq<(string, Yaml)>): seq<seq<(string, Yaml)>> {
    if IsEnabled(item) then [item] else []
  }

  /** `[item for item in sources if item.get("enabled", True)]`; an entry that is not a mapping raises. */
  function Enabled(items: seq<Yaml>): (r: Result<seq<seq<(string, Yaml)>>>)
  {
    if items == [] then Ok([])
    else if !items[0].YDict? then Err(NoGet)
    else
      var rest := Enabled(items[1..]);
      if rest.Err? then rest
      else Ok(Kept(items[0].entries) + rest.value)
  }

  /** `load_sources` once the file is read: the entries to build sources from, or the error Python raises. */
  function LoadSources(data: Yaml, env: map<string, string>): Result<seq<seq<(string, Yaml)>>> {
    var raw := LoadYaml(data, env);
    if !raw.YDict? then Err(NoGet)
    else
      var sources := Get(raw.entries, "sources");
      if sources.None? then Ok([])
      else match sources.value
        case YList(items) => Enabled(items)
        case YDict(entries) => if entries == [] then Ok([]) else Err(StrNoGet)
        case YStr(s) => if s == "" then Ok([]) else Err(StrNoGet)
        case _ => Err(NotIterable)
  }

  /** The filter fails exactly when some entry is not a mapping. */
  lemma {:induction false} EnabledFails(items: seq<Yaml>)
    ensures Enabled(items).Err? <==> exists k :: 0 <= k < |items| && !items[k].YDict?
  {
    if items != [] {
      var rest := items[1..];
      EnabledFails(rest);
      assert forall k :: 1 <= k < |items| ==> items[k] == rest[k - 1];
      if exists k :: 0 <= k < |rest| && !rest[k].YDict? {
        var k :| 0 <= k < |rest| && !rest[k].YDict?;
        assert !items[k + 1].YDict?;
      }
    }
  }

  /** Otherwise it keeps exactly the enabled entries. */
  lemma {:induction false} EnabledExactly(items: seq<Yaml>)
    requires Enabled(items).Ok?
    ensures forall d :: (d in Enabled(items).value
      <==> exists k :: 0 <= k < |items| && items[k] == YDict(d) && IsEnabled(d))
  {
    if items != [] {
      var rest := items[1..];
      EnabledExactly(rest);
      forall d ensures d in Enabled(items).value
        <==> exists k :: 0 <= k < |items| && items[k] == YDict(d) && IsEnabled(d)
      {
        if exists k :: 0 <= k < |rest| && rest[k] == YDict(d) && IsEnabled(d) {
          var k :| 0 <= k < |rest| && rest[k] == YDict(d) && IsEnabled(d);
          assert items[k + 1] == YDict(d);
        }
        if exists k :: 0 <= k < |items| && items[k] == YDict(d) && IsEnabled(d) {
          var k :| 0 <= k < |items| && items[k] == YDict(d) && IsEnabled(d);
          if k > 0 {
            assert rest[k - 1] == YDict(d);
          }
        }
      }
    }
  }

  /** One step of the filter. */
  lemma EnabledUnfold(items: seq<Yaml>)
    requires items != [] && items[0].YDict? && Enabled(items[1..]).Ok?
    ensures Enabled(items) == Ok(Kept(items[0].entries) + Enabled(items[1..]).value)
  {
  }

  /** The filter keeps the entries' order: filtering a concatenation concatenates the results. */
  lemma {:induction false} EnabledAppend(a: seq<Yaml>, b: seq<Yaml>)
    requires Enabled(a).Ok? && Enabled(b).Ok?
    ensures Enabled(a + b) == Ok(Enabled(a).value + Enabled(b).value)
  {
    if a == [] {
      assert a + b == b;
      assert [] + Enabled(b).value == Enabled(b).value;
    } else {
      var tail := a[1..];
      assert (a + b)[1..] == tail + b && (a + b)[0] == a[0];
      EnabledAppend(tail, b);
      EnabledUnfold(a + b);
      ConcatAssoc(Kept(a[0].entries), Enabled(tail).value, Enabled(b).value);
    }
  }

  lemma ConcatAssoc<T>(x: seq<T>, y: seq<T>, z: seq<T>)
    ensures x + (y + z) == (x + y) + z
  {
  }

  /** An empty document, or one without `sources`, gives no sources. */
  lemma NoSourcesKey(data: Yaml, env: map<string, string>)
    requires !Truthy(data) || (data.YDict? && forall k :: 0 <= k < |data.entries| ==> data.entries[k].0 != "sources")
    ensures LoadSources(data, env) == Ok([])
  {
    var raw := LoadYaml(data, env);
    ResolveKeepsShape(if Truthy(data) then data else YDict([]), env);
    assert raw.YDict?;
    assert forall k :: 0 <= k < |raw.entries| ==> raw.entries[k].0 != "sources";
    GetFinds(raw.entries, "sources");
  }
}
