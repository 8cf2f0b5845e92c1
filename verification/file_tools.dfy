/**
 * Reading, writing and editing files behind the read-before-write gate,
 * and the decisions the file search tool makes before it runs a command.
 *
 * The filesystem is a map from resolved absolute paths to nodes; `resolve`
 * stands for `Path(path).resolve()`. The set of paths read so far is
 * shared by every file tool.
 */
module FileTools {
  import opened Wrappers
  import opened Text

  datatype Node = File(content: String) | Dir

  type Fs = map<String, Node>

  /** What a file operation answers, with the filesystem and the read set after it. */
  datatype Step = Step(out: String, fs: Fs, read: set<String>)

  // ---------------------------------------------------------------- file_read

  /**
   * The first `n` lines of `s`, each with its line break: everything up to
   * and including the `n`-th newline, or all of `s` when it has fewer.
   */
  function KeepLines(s: String, n: nat): (r: String)
    ensures |r| <= |s| && r == s[..|r|]
    decreases n
  {
    if n == 0 then ""
    else
      var i := IndexOf(s, '\n');
      if i < 0 then s
      else
        var rest := KeepLines(s[i + 1..], n - 1);
        assert s[..i + 1] + rest == s[..i + 1 + |rest|];
        s[..i + 1] + rest
  }

  /** The number of line breaks in `s`. */
  function Breaks(s: String): nat
    decreases |s|
  {
    if |s| == 0 then 0 else (if s[0] == '\n' then 1 else 0) + Breaks(s[1..])
  }

  lemma {:induction false} BreaksAppend(a: String, b: String)
    ensures Breaks(a + b) == Breaks(a) + Breaks(b)
    decreases |a|
  {
    if |a| == 0 {
      assert a + b == b;
    } else {
      assert (a + b)[1..] == a[1..] + b;
      BreaksAppend(a[1..], b);
    }
  }

  lemma {:induction false} NoBreaks(s: String)
    requires '\n' !in s
    ensures Breaks(s) == 0
    decreases |s|
  {
    if |s| > 0 {
      assert '\n' !in s[1..] by {
        forall k | 0 <= k < |s[1..]|
          ensures s[1..][k] != '\n'
        {
          assert s[1..][k] == s[k + 1];
        }
      }
      NoBreaks(s[1..]);
    }
  }

  /** Cutting a text after its first line break: one break before the cut, the rest after it. */
  lemma FirstBreak(s: String, i: int)
    requires 0 <= i < |s| && s[i] == '\n' && '\n' !in s[..i]
    ensures Breaks(s[..i + 1]) == 1
    ensures Breaks(s) == 1 + Breaks(s[i + 1..])
  {
    NoBreaks(s[..i]);
    assert s[..i + 1] == s[..i] + "\n";
    BreaksAppend(s[..i], "\n");
    assert s == s[..i + 1] + s[i + 1..];
    BreaksAppend(s[..i + 1], s[i + 1..]);
  }

  /** The kept prefix holds `n` line breaks, or all of them when the text has fewer. */
  lemma {:induction false} KeepLinesCount(s: String, n: nat)
    ensures Breaks(KeepLines(s, n)) == if Breaks(s) < n then Breaks(s) else n
    decreases n
  {
    if n > 0 {
      var i := IndexOf(s, '\n');
      if i < 0 {
        NoBreaks(s);
      } else {
        FirstBreak(s, i);
        KeepLinesCount(s[i + 1..], n - 1);
        BreaksAppend(s[..i + 1], KeepLines(s[i + 1..], n - 1));
      }
    }
  }

  /** A text with fewer than `n` line breaks is kept whole. */
  lemma {:induction false} KeepLinesWhole(s: String, n: nat)
    requires Breaks(s) < n
    ensures KeepLines(s, n) == s
    decreases n
  {
    var i := IndexOf(s, '\n');
    if i >= 0 {
      FirstBreak(s, i);
      KeepLinesWhole(s[i + 1..], n - 1);
      assert s[..i + 1] + s[i + 1..] == s;
    }
  }

  /** `FileReadTool._read_file`: a successful read records the resolved path. */
  function ReadFile(fs: Fs, read: set<String>, resolve: String -> String, path: String, maxLines: int): (s: Step)
    ensures s.fs == fs
    ensures resolve(path) in fs && fs[resolve(path)].File? ==>
      s.read == read + {resolve(path)}
      && s.out == (if maxLines > 0 then KeepLines(fs[resolve(path)].content, maxLines) else fs[resolve(path)].content)
    ensures !(resolve(path) in fs && fs[resolve(path)].File?) ==> s.read == read && StartsWith(s.out, "Error: ")
  {
    var p := resolve(path);
    if p !in fs then
      var out := "Error: File not found at " + path;
      assert out[..7] == "Error: ";
      Step(out, fs, read)
    else if fs[p].Dir? then
      var out := "Error: " + path + " is not a file";
      assert out[..7] == "Error: ";
      Step(out, fs, read)
    else
      var content := fs[p].content;
      Step(if maxLines > 0 then KeepLines(content, maxLines) else content, fs, read + {p})
  }

  /** `FileReadTool.execute`: listing is left to the directory walk; any other operation is refused. */
  function ReadTool(fs: Fs, read: set<String>, resolve: String -> String, operation: String, path: String, maxLines: int, listing: String): (s: Step)
    ensures s.fs == fs
    ensures operation != "read" ==> s.read == read
    ensures operation != "read" && operation != "list" ==> s.out == "Error: Unsupported operation '" + operation + "'"
  {
    if operation == "read" then ReadFile(fs, read, resolve, path, maxLines)
    else if operation == "list" then Step(listing, fs, read)
    else Step("Error: Unsupported operation '" + operation + "'", fs, read)
  }

  // ---------------------------------------------------------------- file_write

  /** The refusal for a file that has not been read, naming the verb. */
  function NotReadError(verb: String, path: String): String {
    "Error: Cannot " + verb + " " + path + " without reading it first. Use the file_read tool to read the file before modifying it."
  }

  /**
   * `_write_file`. An existing path must have been read; `osError` is the
   * message of the failure when the path is a directory.
   */
  function WriteFile(fs: Fs, read: set<String>, resolve: String -> String, path: String, content: String, osError: String): (s: Step)
    ensures s.read == read
    ensures resolve(path) in fs && resolve(path) !in read ==> s.fs == fs && s.out == NotReadError("write to existing file", path)
    ensures s.fs != fs ==> s.fs == fs[resolve(path) := File(content)]
    ensures (resolve(path) !in fs || (resolve(path) in read && fs[resolve(path)].File?)) ==>
      s.fs == fs[resolve(path) := File(content)]
      && s.out == "Successfully wrote " + NatToString(|content|) + " characters to " + path
  {
    var p := resolve(path);
    if p in fs && p !in read then Step(NotReadError("write to existing file", path), fs, read)
    else if p in fs && fs[p].Dir? then Step("Error writing to " + path + ": " + osError, fs, read)
    else Step("Successfully wrote " + NatToString(|content|) + " characters to " + path, fs[p := File(content)], read)
  }

  /** `_edit_file`: replace every occurrence of `oldText` in a file that has been read. */
  function EditFile(fs: Fs, read: set<String>, resolve: String -> String, path: String, oldText: String, newText: String): (s: Step)
    requires |oldText| > 0
    ensures s.read == read
    ensures s.fs != fs ==> resolve(path) in read && resolve(path) in fs && fs[resolve(path)].File?
    ensures s.fs != fs ==> s.fs == fs[resolve(path) := File(Replace(fs[resolve(path)].content, oldText, newText))]
    ensures resolve(path) in fs && fs[resolve(path)].File? && !Contains(fs[resolve(path)].content, oldText) ==> s.fs == fs
  {
    var p := resolve(path);
    if p !in fs then Step("Error: File not found at " + path, fs, read)
    else if fs[p].Dir? then Step("Error: " + path + " is not a file", fs, read)
    else if p !in read then Step(NotReadError("edit file", path), fs, read)
    else
      var content := fs[p].content;
      if !Contains(content, oldText) then Step("Error: The specified text was not found in " + path, fs, read)
      else
        var count := Count(content, oldText);
        var updated := fs[p := File(Replace(content, oldText, newText))];
        if count > 1 then
          Step("Warning: Found " + NatToString(count) + " occurrences. All were replaced in " + path, updated, read)
        else Step("Successfully edited " + path, updated, read)
  }

  /** An edit of a file that has been read and holds the text replaces all of it and reports how many. */
  lemma EditReplacesAll(fs: Fs, read: set<String>, resolve: String -> String, path: String, oldText: String, newText: String)
    requires |oldText| > 0
    requires resolve(path) in fs && fs[resolve(path)].File? && resolve(path) in read
    requires Contains(fs[resolve(path)].content, oldText)
    ensures var s := EditFile(fs, read, resolve, path, oldText, newText);
      var content := fs[resolve(path)].content;
      s.fs == fs[resolve(path) := File(Replace(content, oldText, newText))]
      && (Count(content, oldText) > 1 ==> s.out == "Warning: Found " + NatToString(Count(content, oldText)) + " occurrences. All were replaced in " + path)
      && (Count(content, oldText) <= 1 ==> s.out == "Successfully edited " + path)
  {
  }

  /** `FileWriteTool.execute`: required arguments are checked before anything else. */
  function WriteTool(fs: Fs, read: set<String>, resolve: String -> String, operation: String, path: String,
                     content: String, oldText: String, newText: String, osError: String): (s: Step)
    ensures s.read == read
    ensures operation == "write" && |content| == 0 ==> s.fs == fs && s.out == "Error: content parameter is required"
    ensures operation == "edit" && (|oldText| == 0 || |newText| == 0) ==>
      s.fs == fs && s.out == "Error: both old_text and new_text parameters are required for edit operation"
    ensures operation != "write" && operation != "edit" ==> s.fs == fs && s.out == "Error: Unsupported operation '" + operation + "'"
  {
    if operation == "write" then
      if |content| == 0 then Step("Error: content parameter is required", fs, read)
      else WriteFile(fs, read, resolve, path, content, osError)
    else if operation == "edit" then
      if |oldText| == 0 || |newText| == 0 then Step("Error: both old_text and new_text parameters are required for edit operation", fs, read)
      else EditFile(fs, read, resolve, path, oldText, newText)
    else Step("Error: Unsupported operation '" + operation + "'", fs, read)
  }

  /**
   * The gate: a write or edit changes an existing file only if it was read,
   * changes no path but its own, and never adds to the read set.
   */
  lemma WriteGate(fs: Fs, read: set<String>, resolve: String -> String, operation: String, path: String,
                  content: String, oldText: String, newText: String, osError: String)
    ensures var s := WriteTool(fs, read, resolve, operation, path, content, oldText, newText, osError);
      s.read == read
      && (resolve(path) in fs && resolve(path) !in read ==> s.fs == fs)
      && forall q :: q != resolve(path) ==> (q in s.fs <==> q in fs) && (q in fs ==> s.fs[q] == fs[q])
  {
  }

  /**
   * Writing does not count as reading: a second write to a file the tool
   * itself just created is refused.
   */
  lemma SecondWriteRefused(fs: Fs, read: set<String>, resolve: String -> String, path: String, c1: String, c2: String, osError: String)
    requires resolve(path) !in fs && resolve(path) !in read && |c1| > 0 && |c2| > 0
    ensures var s1 := WriteTool(fs, read, resolve, "write", path, c1, "", "", osError);
      var s2 := WriteTool(s1.fs, s1.read, resolve, "write", path, c2, "", "", osError);
      s1.fs[resolve(path)] == File(c1)
      && s2.fs == s1.fs && s2.out == NotReadError("write to existing file", path)
  {
  }

  /** Reading first opens the gate: read, then edit, replaces the text. */
  lemma ReadThenEdit(fs: Fs, read: set<String>, resolve: String -> String, path: String, oldText: String, newText: String, osError: String)
    requires resolve(path) in fs && fs[resolve(path)].File? && |oldText| > 0 && |newText| > 0
    requires Contains(fs[resolve(path)].content, oldText)
    ensures var r := ReadFile(fs, read, resolve, path, 0);
      var s := WriteTool(r.fs, r.read, resolve, "edit", path, "", oldText, newText, osError);
      s.fs == fs[resolve(path) := File(Replace(fs[resolve(path)].content, oldText, newText))]
  {
    var r := ReadFile(fs, read, resolve, path, 0);
    EditReplacesAll(r.fs, r.read, resolve, path, oldText, newText);
  }

  // ---------------------------------------------------------------- file_search

  /** A Python truth test on an optional string: present and non-empty. */
  predicate Truthy(o: Option<String>) {
    o.Some? && |o.value| > 0
  }

  /** The mode when none is given: text search to list files by pattern alone, syntax search otherwise. */
  function SearchMode(pattern: String, mode: Option<String>, filePattern: Option<String>): (m: String)
    ensures mode.Some? ==> m == mode.value
    ensures mode.None? ==> (m == "text" <==> |pattern| == 0 && Truthy(filePattern))
    ensures mode.None? ==> (m == "text" || m == "syntax")
  {
    if mode.Some? then mode.value
    else if |pattern| == 0 && Truthy(filePattern) then "text"
    else "syntax"
  }

  /** A language-table entry: the file-pattern key, whose text after its first character is the suffix looked for. */
  datatype LangEntry = LangEntry(key: String, lang: String)

  const Languages: seq<LangEntry> := [
    LangEntry("*.py", "python"), LangEntry("*.js", "javascript"), LangEntry("*.jsx", "javascript"),
    LangEntry("*.ts", "typescript"), LangEntry("*.tsx", "typescript"), LangEntry("*.java", "java"),
    LangEntry("*.c", "c"), LangEntry("*.cpp", "cpp"), LangEntry("*.cc", "cpp"), LangEntry("*.cxx", "cpp"),
    LangEntry("*.cs", "csharp"), LangEntry("*.go", "go"), LangEntry("*.rs", "rust"), LangEntry("*.rb", "ruby"),
    LangEntry("*.php", "php"), LangEntry("*.swift", "swift"), LangEntry("*.kt", "kotlin"), LangEntry("*.scala", "scala"),
    LangEntry("*.r", "r"), LangEntry("*.lua", "lua"), LangEntry("*.dart", "dart"), LangEntry("*.elm", "elm"),
    LangEntry("*.ex", "elixir"), LangEntry("*.exs", "elixir")
  ]

  /** The suffix an entry matches: its key without the leading "*". */
  function Suffix(e: LangEntry): String {
    if |e.key| == 0 then "" else e.key[1..]
  }

  predicate Matches(filePattern: String, e: LangEntry) {
    EndsWith(filePattern, Suffix(e))
  }

  /** `_infer_language` over a table: the first entry whose suffix ends the pattern. */
  function InferIn(table: seq<LangEntry>, filePattern: String): (r: Option<String>)
    ensures r.Some? ==> exists i :: 0 <= i < |table| && Matches(filePattern, table[i]) && r.value == table[i].lang
                                  && forall j :: 0 <= j < i ==> !Matches(filePattern, table[j])
    ensures r.None? ==> forall i :: 0 <= i < |table| ==> !Matches(filePattern, table[i])
    decreases |table|
  {
    if |table| == 0 then None
    else if Matches(filePattern, table[0]) then Some(table[0].lang)
    else
      var r := InferIn(table[1..], filePattern);
      assert forall i :: 1 <= i < |table| ==> table[i] == table[1..][i - 1];
      r
  }

  function InferLanguage(filePattern: String): Option<String> {
    InferIn(Languages, filePattern)
  }

  /** Every suffix is a dot and a dot-free extension. */
  predicate DotExtension(s: String) {
    |s| >= 2 && s[0] == '.' && forall k :: 1 <= k < |s| ==> s[k] != '.'
  }

  /** The dot of a dot extension that ends `fp` sits at or before the dot of any other. */
  lemma DotNotInside(fp: String, a: String, b: String)
    requires DotExtension(a) && DotExtension(b) && EndsWith(fp, a) && EndsWith(fp, b)
    ensures |b| <= |a|
  {
    assert fp[|fp| - |a|] == a[0] == '.';
    assert forall k :: |fp| - |b| < k < |fp| ==> fp[k] == b[k - (|fp| - |b|)] != '.';
  }

  /** Two dot extensions that both end the same text are the same extension. */
  lemma DotExtensionsAgree(fp: String, a: String, b: String)
    requires DotExtension(a) && DotExtension(b) && EndsWith(fp, a) && EndsWith(fp, b)
    ensures a == b
  {
    DotNotInside(fp, a, b);
    DotNotInside(fp, b, a);
    assert a == fp[|fp| - |a|..] == b;
  }

  /** Every suffix in the table is a dot extension. */
  predicate WellFormedTable(table: seq<LangEntry>) {
    forall i :: 0 <= i < |table| ==> DotExtension(Suffix(table[i]))
  }

  /**
   * In a well-formed table at most one extension can match: every entry
   * that matches has the suffix of the entry chosen, so the order of the
   * entries only matters between entries for the same suffix.
   */
  lemma InferOrderFree(table: seq<LangEntry>, filePattern: String, i: int)
    requires WellFormedTable(table) && 0 <= i < |table| && Matches(filePattern, table[i])
    ensures exists k :: 0 <= k < |table| && Suffix(table[k]) == Suffix(table[i]) && InferIn(table, filePattern) == Some(table[k].lang)
  {
    var r := InferIn(table, filePattern);
    var k :| 0 <= k < |table| && Matches(filePattern, table[k]) && r.value == table[k].lang;
    DotExtensionsAgree(filePattern, Suffix(table[i]), Suffix(table[k]));
  }

  /** A key of the form "*.ext" with a dot-free extension. */
  predicate StarDot(key: String) {
    |key| >= 3 && key[0] == '*' && key[1] == '.' && forall k :: 2 <= k < |key| ==> key[k] != '.'
  }

  lemma StarDotSuffix(e: LangEntry)
    requires StarDot(e.key)
    ensures DotExtension(Suffix(e))
  {
    var s := Suffix(e);
    assert forall k :: 1 <= k < |s| ==> s[k] == e.key[k + 1];
  }

  /** The language table is well formed. */
  lemma LanguagesWellFormed()
    ensures WellFormedTable(Languages)
  {
    LanguageKeysLow();
    LanguageKeysHigh();
    forall i | 0 <= i < |Languages|
      ensures DotExtension(Suffix(Languages[i]))
    {
      StarDotSuffix(Languages[i]);
    }
  }

  lemma LanguageKeysLow()
    ensures forall i :: 0 <= i < 12 ==> StarDot(Languages[i].key)
  {
  }

  lemma LanguageKeysHigh()
    ensures forall i :: 12 <= i < 24 ==> StarDot(Languages[i].key)
  {
  }

  /** The search command the tool runs, or the error it answers without running one. */
  datatype Search = AstGrep(args: seq<String>) | Ripgrep(args: seq<String>) | Refused(message: String)

  /** The language arguments: the given language, else the one the file pattern suggests. */
  function LangArgs(language: Option<String>, filePattern: Option<String>): seq<String> {
    if Truthy(language) then ["--lang", language.value]
    else if Truthy(filePattern) && InferLanguage(filePattern.value).Some? then ["--lang", InferLanguage(filePattern.value).value]
    else []
  }

  const NeedsPattern: String := "Error: Syntax search requires a pattern. Use mode='text' to find files by name."

  /** `FileSearchTool.execute` up to the command it runs. */
  function SearchCommand(pattern: String, path: String, mode: Option<String>, language: Option<String>, filePattern: Option<String>): (c: Search)
    ensures c.Ripgrep? <==> SearchMode(pattern, mode, filePattern) == "text"
    ensures c.AstGrep? <==> SearchMode(pattern, mode, filePattern) == "syntax" && |pattern| > 0
    ensures c.AstGrep? ==> |c.args| >= 4 && c.args[..3] == ["ast-grep", "-p", pattern] && c.args[|c.args| - 1] == path
    ensures c.Refused? ==> c.message == (if SearchMode(pattern, mode, filePattern) == "syntax" then NeedsPattern
                                         else "Error: Unsupported search mode '" + SearchMode(pattern, mode, filePattern) + "'")
  {
    var m := SearchMode(pattern, mode, filePattern);
    if m == "syntax" then
      if |pattern| == 0 then Refused(NeedsPattern)
      else
        var globs := if Truthy(filePattern) then ["--include", filePattern.value] else [];
        var args := ["ast-grep", "-p", pattern] + LangArgs(language, filePattern) + globs + [path];
        assert args[..3] == ["ast-grep", "-p", pattern];
        AstGrep(args)
    else if m == "text" then
      if |pattern| == 0 && Truthy(filePattern) then Ripgrep(["rg", "--files", "--glob", filePattern.value, path])
      else Ripgrep(["rg", pattern, path, "--no-heading", "--line-number", "--color=never"]
                   + (if Truthy(filePattern) then ["--glob", filePattern.value] else []))
    else Refused("Error: Unsupported search mode '" + m + "'")
  }
}
