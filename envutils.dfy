/**
 * Loading `.env` files into the process environment.  A line is parsed on
 * its own; the files are read in candidate order, each resolved path once,
 * and a value never replaces one that is already set.  The file system is a
 * parameter: `resolve` resolves a path, `read` gives the lines of an existing
 * regular file and `None` for anything else.
 */
module EnvUtils {
  import opened Wrappers
  import opened Text

  // ---------------------------------------------------------------------------
  // One line

  const ExportPrefix: string := "export "

  /** The value starts and ends with the same quote character. */
  predicate Quoted(v: string) {
    (StartsWith(v, "\"") && EndsWith(v, "\"")) || (StartsWith(v, "'") && EndsWith(v, "'"))
  }

  /** `value[1:-1]` for a quoted value (empty for a lone quote), else the value itself. */
  function Unquote(v: string): (r: string)
    ensures Quoted(v) && |v| >= 2 ==> r == v[1..|v| - 1]
    ensures !Quoted(v) ==> r == v
  {
    if !Quoted(v) then v
    else if |v| >= 2 then v[1..|v| - 1]
    else ""
  }

  /** The text after a leading `export `, stripped; any other text unchanged. */
  function Unexported(text: string): string {
    if StartsWith(text, ExportPrefix) then Strip(text[|ExportPrefix|..]) else text
  }

  /** Index of the first `c` in `s`, or -1. */
  function IndexOf(s: string, c: char): (r: int)
    ensures -1 <= r < |s|
    ensures r >= 0 ==> s[r] == c
    ensures forall k :: 0 <= k < |s| && (r < 0 || k < r) ==> s[k] != c
  {
    if s == [] then -1
    else if s[0] == c then 0
    else
      var j := IndexOf(s[1..], c);
      assert forall k :: 1 <= k < |s| ==> s[k] == s[1..][k - 1];
      if j < 0 then -1 else j + 1
  }

  /**
   * The stripped line when it can set something: `None` for a blank line or
   * a comment; a leading `export ` is dropped.
   */
  function Body(line: string): Option<string> {
    var text := Strip(line);
    if text == "" || text[0] == '#' then None else Some(Unexported(text))
  }

  /** `text.split("=", 1)` and the checks on its halves. */
  function Assignment(body: string): Option<(string, string)> {
    var i := IndexOf(body, '=');
    if i < 0 then None
    else
      var key := Strip(body[..i]);
      if key == "" then None
      else Some((key, Unquote(Strip(body[i + 1..]))))
  }

  /** `_parse_env_line`: a key and a value, or `None` for a line that sets nothing. */
  function ParseEnvLine(line: string): Option<(string, string)> {
    var body := Body(line);
    if body.None? then None else Assignment(body.value)
  }

  /** Stripping keeps out a character the text lacks. */
  lemma StripLacks(s: string, c: char)
    requires c !in s
    ensures c !in Strip(s)
  {
    var r := Strip(s);
    var i, j :| 0 <= i <= j <= |s| && r == s[i..j];
    forall k | 0 <= k < |r| ensures r[k] != c {
      assert r[k] == s[i + k];
    }
  }

  /** What a parsed line holds: a stripped, non-empty key without `=`. */
  lemma ParsedShape(line: string)
    requires ParseEnvLine(line).Some?
    ensures var (key, value) := ParseEnvLine(line).value;
      key != "" && Strip(key) == key && '=' !in key
  {
    var body := Body(line).value;
    var i := IndexOf(body, '=');
    assert forall k :: 0 <= k < i ==> body[..i][k] == body[k];
    StripIdempotent(body[..i]);
    StripLacks(body[..i], '=');
  }

  /** Blank lines and comments set nothing. */
  lemma BlankOrCommentIgnored(line: string)
    requires Strip(line) == "" || Strip(line)[0] == '#'
    ensures ParseEnvLine(line).None?
  {
  }

  /** A key that cannot start a comment or an `export`, and has no space or `=`. */
  predicate PlainKey(key: string) {
    key != "" && NoSpace(key) && '=' !in key && key[0] != '#'
  }

  /** A stripped line that is neither blank, a comment nor an `export` is its own body. */
  lemma BodyOf(line: string)
    requires Strip(line) == line && line != "" && line[0] != '#' && !StartsWith(line, ExportPrefix)
    ensures Body(line) == Some(line)
  {
  }

  /** `key=rest` splits after the key. */
  lemma AssignmentOf(key: string, rest: string)
    requires PlainKey(key)
    ensures Assignment(key + "=" + rest) == Some((key, Unquote(Strip(rest))))
  {
    var line := key + "=" + rest;
    assert line[|key|] == '=';
    assert forall k :: 0 <= k < |key| ==> line[k] == key[k];
    assert IndexOf(line, '=') == |key|;
    assert line[..|key|] == key;
    assert line[|key| + 1..] == rest;
    StripUnchanged(key);
  }

  /** `key=rest` with a plain key is stripped when `rest` has no trailing space, and is no `export`. */
  lemma PlainLine(key: string, rest: string)
    requires PlainKey(key)
    requires rest != [] ==> !IsSpace(rest[|rest| - 1])
    ensures var line := key + "=" + rest;
      Strip(line) == line && !StartsWith(line, ExportPrefix)
  {
    var line := key + "=" + rest;
    assert line[0] == key[0];
    assert line[|line| - 1] == if rest == [] then '=' else rest[|rest| - 1];
    StripUnchanged(line);
    if |line| >= |ExportPrefix| {
      var k := if |key| > 6 then 6 else |key|;
      assert line[k] != ExportPrefix[k];
      assert line[..|ExportPrefix|][k] == line[k];
    }
  }

  /** A plain key, `=` and a stripped unquoted value: the line reads back as that pair. */
  lemma ParseRoundTrip(key: string, value: string)
    requires PlainKey(key) && Strip(value) == value && !Quoted(value)
    ensures ParseEnvLine(key + "=" + value) == Some((key, value))
  {
    var line := key + "=" + value;
    assert value != [] ==> !IsSpace(value[|value| - 1]);
    PlainLine(key, value);
    BodyOf(line);
    AssignmentOf(key, value);
  }

  /** A stripped text after `export ` is the body. */
  lemma ExportBody(rest: string)
    requires rest != [] && Strip(rest) == rest && !IsSpace(rest[|rest| - 1])
    ensures Body(ExportPrefix + rest) == Some(rest)
  {
    var line := ExportPrefix + rest;
    assert line[0] == 'e' && line[|line| - 1] == rest[|rest| - 1];
    StripUnchanged(line);
    assert line[..|ExportPrefix|] == ExportPrefix;
    assert line[|ExportPrefix|..] == rest;
  }

  /** The same pair after `export `. */
  lemma ParseExported(key: string, value: string)
    requires PlainKey(key) && Strip(value) == value && !Quoted(value)
    ensures ParseEnvLine(ExportPrefix + (key + "=" + value)) == Some((key, value))
  {
    var rest := key + "=" + value;
    assert value != [] ==> !IsSpace(value[|value| - 1]);
    PlainLine(key, value);
    assert rest[|rest| - 1] == if value == [] then '=' else value[|value| - 1];
    ExportBody(rest);
    AssignmentOf(key, value);
  }

  /** Matching quotes around the value are removed, once. */
  lemma ParseQuoted(key: string, value: string, q: char)
    requires PlainKey(key) && (q == '"' || q == '\'')
    ensures ParseEnvLine(key + "=" + ([q] + value + [q])) == Some((key, value))
  {
    var quoted := [q] + value + [q];
    var line := key + "=" + quoted;
    assert quoted[0] == q && quoted[|quoted| - 1] == q;
    StripUnchanged(quoted);
    assert quoted[..1] == [q] && quoted[|quoted| - 1..] == [q];
    assert quoted[1..|quoted| - 1] == value;
    assert Unquote(quoted) == value;
    PlainLine(key, quoted);
    BodyOf(line);
    AssignmentOf(key, quoted);
  }

  /** A line whose key is empty sets nothing. */
  lemma EmptyKeyIgnored(rest: string)
    requires rest != [] ==> !IsSpace(rest[|rest| - 1])
    ensures ParseEnvLine("=" + rest).None?
  {
    var line := "=" + rest;
    assert line[|line| - 1] == if rest == [] then '=' else rest[|rest| - 1];
    StripUnchanged(line);
    assert !StartsWith(line, ExportPrefix) by {
      if |line| >= |ExportPrefix| {
        assert line[..|ExportPrefix|][0] == '=';
      }
    }
    assert Body(line) == Some(line);
    assert IndexOf(line, '=') == 0;
    assert Strip(line[..0]) == "";
  }

  // ---------------------------------------------------------------------------
  // `setdefault` over a sequence of entries

  /** `os.environ.setdefault(key, value)` on a plain map. */
  function WithDefault(vars: map<string, string>, key: string, value: string): (r: map<string, string>)
    ensures key in r && r.Keys == vars.Keys + {key}
    ensures forall k :: k in vars ==> r[k] == vars[k]
    ensures key !in vars ==> r[key] == value
  {
    if key in vars then vars else vars[key := value]
  }

  /** The entries applied one after the other with `setdefault`. */
  function SetDefaults(vars: map<string, string>, entries: seq<(string, string)>): map<string, string> {
    if entries == [] then vars
    else WithDefault(SetDefaults(vars, entries[..|entries| - 1]), entries[|entries| - 1].0, entries[|entries| - 1].1)
  }

  /** Applying two runs of entries is applying their concatenation. */
  lemma {:induction false} SetDefaultsAppend(vars: map<string, string>, a: seq<(string, string)>, b: seq<(string, string)>)
    ensures SetDefaults(vars, a + b) == SetDefaults(SetDefaults(vars, a), b)
    decreases |b|
  {
    if b == [] {
      assert a + b == a;
    } else {
      var init := b[..|b| - 1];
      assert (a + b)[..|a + b| - 1] == a + init;
      SetDefaultsAppend(vars, a, init);
    }
  }

  /** The keys the entries name. */
  function Keys(entries: seq<(string, string)>): set<string> {
    if entries == [] then {} else Keys(entries[..|entries| - 1]) + {entries[|entries| - 1].0}
  }

  /** A key no entry names is not among their keys. */
  lemma {:induction false} KeysLack(entries: seq<(string, string)>, key: string)
    requires forall j :: 0 <= j < |entries| ==> entries[j].0 != key
    ensures key !in Keys(entries)
    decreases |entries|
  {
    if entries != [] {
      var init := entries[..|entries| - 1];
      assert forall j :: 0 <= j < |init| ==> init[j] == entries[j];
      KeysLack(init, key);
    }
  }

  /** An existing variable is never overwritten. */
  lemma {:induction false} SetDefaultsKeeps(vars: map<string, string>, entries: seq<(string, string)>)
    ensures var r := SetDefaults(vars, entries);
      forall k :: k in vars ==> k in r && r[k] == vars[k]
    decreases |entries|
  {
    if entries != [] {
      SetDefaultsKeeps(vars, entries[..|entries| - 1]);
    }
  }

  /** The variables afterwards: those set before and those the entries name. */
  lemma {:induction false} SetDefaultsKeys(vars: map<string, string>, entries: seq<(string, string)>)
    ensures SetDefaults(vars, entries).Keys == vars.Keys + Keys(entries)
    decreases |entries|
  {
    if entries != [] {
      SetDefaultsKeys(vars, entries[..|entries| - 1]);
    }
  }

  /** A key not set before gets the value of the first entry that names it. */
  lemma SetDefaultsFirst(vars: map<string, string>, entries: seq<(string, string)>, i: int)
    requires 0 <= i < |entries| && entries[i].0 !in vars
    requires forall j :: 0 <= j < i ==> entries[j].0 != entries[i].0
    ensures entries[i].0 in SetDefaults(vars, entries)
      && SetDefaults(vars, entries)[entries[i].0] == entries[i].1
  {
    var (key, value) := entries[i];
    var a, b := entries[..i], entries[i + 1..];
    var a1 := a + [entries[i]];
    var before := SetDefaults(vars, a);
    assert key !in before by {
      assert forall j :: 0 <= j < |a| ==> a[j] == entries[j];
      KeysLack(a, key);
      SetDefaultsKeys(vars, a);
    }
    var after := SetDefaults(vars, a1);
    assert after == WithDefault(before, key, value) by {
      assert a1[..i] == a;
    }
    assert SetDefaults(vars, entries) == SetDefaults(after, b) by {
      SetDefaultsAppend(vars, a1, b);
      assert a1 + b == entries;
    }
    SetDefaultsKeeps(after, b);
  }

  // ---------------------------------------------------------------------------
  // Files

  /** The entries the lines of one file set, in line order. */
  function LineEntries(lines: seq<string>, parse: string -> Option<(string, string)>): (r: seq<(string, string)>)
    ensures |r| <= |lines|
  {
    if lines == [] then []
    else
      var parsed := parse(lines[|lines| - 1]);
      LineEntries(lines[..|lines| - 1], parse) + (if parsed.Some? then [parsed.value] else [])
  }

  /** The entries a file sets: none when the path is not an existing regular file. */
  function FileEntries(contents: Option<seq<string>>): seq<(string, string)> {
    if contents.Some? then LineEntries(contents.value, ParseEnvLine) else []
  }

  /** The entries of each path of a file system. */
  function ReadEntries(read: string -> Option<seq<string>>): string -> seq<(string, string)> {
    p => FileEntries(read(p))
  }

  /** The entries of the resolved paths in order, each path's the first time it appears. */
  function Loaded(paths: seq<string>, files: string -> seq<(string, string)>): seq<(string, string)> {
    if paths == [] then []
    else
      var init := paths[..|paths| - 1];
      var p := paths[|paths| - 1];
      Loaded(init, files) + (if p in init then [] else files(p))
  }

  /** A path listed again adds nothing: each file is read at most once. */
  lemma {:induction false} LoadedRepeats(paths: seq<string>, again: seq<string>, files: string -> seq<(string, string)>)
    requires forall k :: 0 <= k < |again| ==> again[k] in paths
    ensures Loaded(paths + again, files) == Loaded(paths, files)
    decreases |again|
  {
    if again == [] {
      assert paths + again == paths;
    } else {
      var init := again[..|again| - 1];
      var all := paths + again;
      assert all[..|all| - 1] == paths + init;
      assert all[|all| - 1] == again[|again| - 1];
      assert forall k :: 0 <= k < |init| ==> init[k] == again[k];
      LoadedRepeats(paths, init, files);
      assert again[|again| - 1] in paths + init;
    }
  }

  /** One more path: its entries follow unless it was listed before. */
  lemma LoadedStep(paths: seq<string>, i: int, files: string -> seq<(string, string)>)
    requires 0 <= i < |paths|
    ensures Loaded(paths[..i + 1], files)
      == Loaded(paths[..i], files) + (if paths[i] in paths[..i] then [] else files(paths[i]))
  {
    var s := paths[..i + 1];
    assert s[..i] == paths[..i] && s[i] == paths[i];
  }

  /** The set of paths seen so far grows with the next path. */
  lemma SeenStep(seen: set<string>, paths: seq<string>, i: int)
    requires 0 <= i < |paths| && forall p :: p in seen <==> p in paths[..i]
    ensures paths[i] in seen <==> paths[i] in paths[..i]
    ensures forall p :: p in seen + {paths[i]} <==> p in paths[..i + 1]
  {
    assert paths[..i + 1] == paths[..i] + [paths[i]];
  }

  /** `dir / ".env"`. */
  function EnvFile(dir: string): string { dir + "/.env" }

  /**
   * The candidate files of `load_local_env`: the working directory's, then,
   * given a reference path, those of its parent and grandparent.
   * `absolute` makes a relative reference absolute against the working
   * directory and `parent` is `Path.parent`.
   */
  function Candidates(cwd: string, reference: Option<string>, absolute: string -> string, parent: string -> string): (r: seq<string>)
    ensures |r| >= 1 && r[0] == EnvFile(cwd)
    ensures reference.Some? && reference.value != "" ==>
      |r| == 3 && r[1] == EnvFile(parent(absolute(reference.value)))
      && r[2] == EnvFile(parent(parent(absolute(reference.value))))
    ensures reference.None? || reference.value == "" ==> |r| == 1
  {
    [EnvFile(cwd)] + (
      if reference.Some? && reference.value != "" then
        var ref := absolute(reference.value);
        [EnvFile(parent(ref)), EnvFile(parent(parent(ref)))]
      else [])
  }

  function Resolved(paths: seq<string>, resolve: string -> string): (r: seq<string>)
    ensures |r| == |paths| && forall k :: 0 <= k < |paths| ==> r[k] == resolve(paths[k])
  {
    seq(|paths|, k requires 0 <= k < |paths| => resolve(paths[k]))
  }

  /** `os.environ`. */
  class Environ {
    var vars: map<string, string>

    constructor(initial: map<string, string>)
      ensures vars == initial
    {
      vars := initial;
    }

    /** `os.environ.setdefault(key, value)`. */
    method SetDefault(key: string, value: string)
      modifies this
      ensures vars == WithDefault(old(vars), key, value)
    {
      if key !in vars {
        vars := vars[key := value];
      }
    }

    /** The lines of one file, parsed and applied in order. */
    method LoadLines(lines: seq<string>)
      modifies this
      ensures vars == SetDefaults(old(vars), LineEntries(lines, ParseEnvLine))
    {
      ghost var start := vars;
      var j := 0;
      while j < |lines|
        invariant 0 <= j <= |lines|
        invariant vars == SetDefaults(start, LineEntries(lines[..j], ParseEnvLine))
      {
        var parsed := ParseEnvLine(lines[j]);
        ghost var done := LineEntries(lines[..j], ParseEnvLine);
        assert lines[..j + 1][..j] == lines[..j] && lines[..j + 1][j] == lines[j];
        if parsed.Some? {
          var (key, value) := parsed.value;
          SetDefault(key, value);
          assert done + [parsed.value] == LineEntries(lines[..j + 1], ParseEnvLine);
          assert (done + [parsed.value])[..|done|] == done;
        } else {
          assert done + [] == LineEntries(lines[..j + 1], ParseEnvLine);
          assert done + [] == done;
        }
        j := j + 1;
      }
      assert lines[..j] == lines;
    }

    /** One path: its lines applied when it is an existing regular file. */
    method LoadFile(contents: Option<seq<string>>)
      modifies this
      ensures vars == SetDefaults(old(vars), FileEntries(contents))
    {
      if contents.Some? {
        LoadLines(contents.value);
      }
    }

    /**
     * `load_local_env`: each candidate resolved, skipped when already seen,
     * read when it is an existing regular file.
     */
    method LoadLocalEnv(candidates: seq<string>, resolve: string -> string, read: string -> Option<seq<string>>)
      modifies this
      ensures vars == SetDefaults(old(vars), Loaded(Resolved(candidates, resolve), ReadEntries(read)))
    {
      ghost var start := vars;
      ghost var paths := Resolved(candidates, resolve);
      ghost var files := ReadEntries(read);
      var seen: set<string> := {};
      var i := 0;
      while i < |candidates|
        invariant 0 <= i <= |candidates|
        invariant forall p :: p in seen <==> p in paths[..i]
        invariant vars == SetDefaults(start, Loaded(paths[..i], files))
      {
        var path := resolve(candidates[i]);
        assert path == paths[i];
        ghost var done := Loaded(paths[..i], files);
        ghost var entries := files(path);
        assert entries == FileEntries(read(path));
        LoadedStep(paths, i, files);
        SeenStep(seen, paths, i);
        if path !in seen {
          seen := seen + {path};
          LoadFile(read(path));
          SetDefaultsAppend(start, done, entries);
        } else {
          assert done + [] == done;
          assert seen + {path} == seen;
        }
        i := i + 1;
      }
      assert paths[..i] == paths;
    }
  }

  /** The first file that sets a key decides its value: a later file or line never changes it. */
  lemma EarlierFileWins(vars: map<string, string>, a: seq<(string, string)>, b: seq<(string, string)>, key: string)
    requires key in SetDefaults(vars, a)
    ensures key in SetDefaults(vars, a + b) && SetDefaults(vars, a + b)[key] == SetDefaults(vars, a)[key]
  {
    SetDefaultsAppend(vars, a, b);
    SetDefaultsKeeps(SetDefaults(vars, a), b);
  }
}
