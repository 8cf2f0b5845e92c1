/**
 * The `bash` tool with a persistent session: a working directory, an
 * environment and a history that outlive single commands. The shell
 * itself is not modelled: what a run printed and how it ended is given
 * (`Proc` for a normal run, `Stream` for a streamed one), and so are the
 * filesystem questions the session asks (`Paths`). The session file that
 * each command sources is modelled as its text.
 */
module BashSession {
  import opened Wrappers
  import opened Text

  /** One history record: the command, its output cut to 500 characters, its exit status. */
  datatype Entry = Entry(command: String, output: String, exitCode: int)

  datatype Session = Session(env: map<String, String>, cwd: String, history: seq<Entry>, script: String)

  /** What the process reports at the time of a reset: its environment and working directory. */
  datatype Host = Host(env: map<String, String>, cwd: String)

  /** `os.path.isdir`, `os.path.expanduser` and `os.path.normpath`. */
  datatype Paths = Paths(isDir: String -> bool, expandUser: String -> String, normpath: String -> String)

  /** A normal run: it finished with its two outputs, ran out of time, or could not be started. */
  datatype Proc = Finished(stdout: String, stderr: String, exitCode: int) | TimedOut | Crashed(message: String)

  /** A streamed run: the lines it collected (a timeout adds its own line) and the exit status, or a failure to start. */
  datatype Stream = Streamed(lines: seq<String>, exitCode: int) | StreamCrashed(message: String)

  datatype Request = Request(command: Option<String>, timeout: int, stream: bool, resetSession: bool, getHistory: bool)

  datatype Step = Step(out: String, session: Session)

  /** The session file as a fresh session writes it. */
  function InitScript(cwd: String): String {
    "#!/bin/bash\n# Bash session state file\ncd \"" + cwd + "\"\n"
  }

  /** `_reset_session`: the process's environment and directory, no history, a fresh session file. */
  function Reset(host: Host): (s: Session)
    ensures s.history == [] && s.env == host.env && s.cwd == host.cwd
  {
    Session(host.env, host.cwd, [], InitScript(host.cwd))
  }

  // ---- cd ----

  /** `os.path.join(a, b)` for a relative `b`. */
  function PathJoin(a: String, b: String): String {
    if |a| == 0 || a[|a| - 1] == '/' then a + b else a + "/" + b
  }

  /** The directory a `cd` asks for: everything after "cd " in the stripped command, stripped. */
  function CdTarget(command: String): (r: Option<String>)
    ensures r.Some? ==> |r.value| > 0 && StartsWith(Strip(command), "cd ")
  {
    var c := Strip(command);
    if StartsWith(c, "cd ") then
      var d := Strip(c[3..]);
      if |d| > 0 then Some(d) else None
    else None
  }

  /** A home-relative path is expanded, a relative one joined to the current directory; the result is normalised. */
  function Resolve(cwd: String, d: String, paths: Paths): String
    requires |d| > 0
  {
    paths.normpath(
      if d[0] == '~' then paths.expandUser(d)
      else if d[0] != '/' then PathJoin(cwd, d)
      else d)
  }

  /** The `cd` half of `_update_session_state`. */
  function UpdateCwd(s: Session, command: String, paths: Paths): Session {
    match CdTarget(command)
    case None => s
    case Some(d) =>
      var dir := Resolve(s.cwd, d, paths);
      if paths.isDir(dir) then s.(cwd := dir, script := s.script + "\ncd \"" + dir + "\"\n") else s
  }

  // ---- export ----

  /** One ";"-separated part as an export: the name before the first '=' and the value after it, unquoted. */
  function ExportOf(part: String): Option<(String, String)> {
    var p := Strip(part);
    if StartsWith(p, "export ") then Assignment(Strip(p[7..])) else None
  }

  /** `NAME=VALUE` split at the first '=', the name stripped, the value stripped of spaces and then of quotes. */
  function Assignment(a: String): Option<(String, String)> {
    var i := IndexOf(a, '=');
    if i >= 0 then Some((Strip(a[..i]), StripChar(StripChar(Strip(a[i + 1..]), '"'), '\''))) else None
  }

  /** What `f` finds in each part, in order, skipping the parts where it finds nothing. */
  function Collect(f: String -> Option<(String, String)>, parts: seq<String>): (r: seq<(String, String)>)
    ensures |r| <= |parts|
    decreases |parts|
  {
    if |parts| == 0 then []
    else
      var rest := Collect(f, parts[1..]);
      match f(parts[0])
      case Some(nv) => [nv] + rest
      case None => rest
  }

  /** The assignments of the parts that are exports. */
  function ExportsIn(parts: seq<String>): seq<(String, String)> {
    Collect(ExportOf, parts)
  }

  /** The assignments a command makes, in the order it makes them. */
  function Exports(command: String): seq<(String, String)> {
    if Contains(command, "export ") then ExportsIn(Split(command, ';')) else []
  }

  function ApplyExport(s: Session, nv: (String, String)): Session {
    s.(env := s.env[nv.0 := nv.1], script := s.script + "\nexport " + nv.0 + "=\"" + nv.1 + "\"\n")
  }

  /** The assignments applied in order. */
  function ApplyExports(s: Session, pairs: seq<(String, String)>): (r: Session)
    ensures r.cwd == s.cwd && r.history == s.history
    decreases |pairs|
  {
    if |pairs| == 0 then s else ApplyExport(ApplyExports(s, pairs[..|pairs| - 1]), pairs[|pairs| - 1])
  }

  /** `_update_session_state`: the `cd` rule, then the `export` rule. */
  function UpdateState(s: Session, command: String, paths: Paths): (r: Session)
    ensures r.history == s.history
  {
    ApplyExports(UpdateCwd(s, command, paths), Exports(command))
  }

  // ---- running ----

  function ExitSuffix(exitCode: int): String {
    if exitCode != 0 then "\n\nExit code: " + IntToString(exitCode) else ""
  }

  /** Common tail of both run modes: update the state, record the run, report the exit status. */
  function Record(s: Session, command: String, output: String, exitCode: int, paths: Paths): (r: Step)
    ensures r.session.history == s.history + [Entry(command, Take(output, 500), exitCode)]
    ensures StartsWith(r.out, output)
    ensures r.out == output + ExitSuffix(exitCode)
  {
    var s1 := UpdateState(s, command, paths);
    var r := Step(output + ExitSuffix(exitCode), s1.(history := s1.history + [Entry(command, Take(output, 500), exitCode)]));
    assert r.out[..|output|] == output;
    r
  }

  /** The normal run's text: stdout, then "STDERR:" and stderr, each with trailing whitespace dropped. */
  function NormalOutput(stdout: String, stderr: String): (out: String)
    ensures |stdout| == 0 && |stderr| == 0 ==> out == "(no output)"
    ensures |stdout| > 0 && |stderr| == 0 ==> out == RStrip(stdout)
    ensures |stdout| == 0 && |stderr| > 0 ==> out == StderrPart(stderr)
    ensures |stdout| > 0 && |stderr| > 0 ==> out == RStrip(stdout) + "\n" + StderrPart(stderr)
  {
    var parts := (if |stdout| > 0 then [RStrip(stdout)] else [])
               + (if |stderr| > 0 then [StderrPart(stderr)] else []);
    if |parts| == 0 then "(no output)"
    else
      assert |parts| == 2 ==> parts[1..] == [StderrPart(stderr)] && Join(parts, "\n") == parts[0] + "\n" + parts[1];
      Join(parts, "\n")
  }

  function StderrPart(stderr: String): String {
    "STDERR:\n" + RStrip(stderr)
  }

  /** `_execute_normal`: a timeout or a failure to start reports an error and changes nothing. */
  function RunNormal(s: Session, command: String, timeout: int, proc: Proc, paths: Paths): (r: Step)
    ensures !proc.Finished? ==> r.session == s && StartsWith(r.out, "Error")
    ensures proc.Finished? ==>
      var output := NormalOutput(proc.stdout, proc.stderr);
      r.out == output + ExitSuffix(proc.exitCode)
      && r.session.history == s.history + [Entry(command, Take(output, 500), proc.exitCode)]
  {
    match proc
    case TimedOut => Step(TimeoutMessage(timeout), s)
    case Crashed(m) => Step(CrashMessage(m), s)
    case Finished(o, e, code) => Record(s, command, NormalOutput(o, e), code, paths)
  }

  function TimeoutMessage(timeout: int): (out: String)
    ensures StartsWith(out, "Error")
  {
    var out := "Error: Command timed out after " + IntToString(timeout) + " seconds";
    assert out[..5] == "Error";
    out
  }

  function CrashMessage(m: String): (out: String)
    ensures StartsWith(out, "Error")
  {
    var out := "Error executing command: " + m;
    assert out[..5] == "Error";
    out
  }

  /** `_execute_streaming`: the collected lines, joined; a timeout still records the run. */
  function RunStreaming(s: Session, command: String, stream: Stream, paths: Paths): (r: Step)
    ensures stream.StreamCrashed? ==> r.session == s && StartsWith(r.out, "Error")
    ensures stream.Streamed? && |stream.lines| == 0 ==>
      r.out == "(no output)" + ExitSuffix(stream.exitCode)
      && r.session.history == s.history + [Entry(command, "(no output)", stream.exitCode)]
    ensures stream.Streamed? && |stream.lines| > 0 ==>
      var output := Join(stream.lines, "\n");
      r.out == output + ExitSuffix(stream.exitCode)
      && r.session.history == s.history + [Entry(command, Take(output, 500), stream.exitCode)]
  {
    match stream
    case StreamCrashed(m) => Step(CrashMessage(m), s)
    case Streamed(lines, code) =>
      Record(s, command, if |lines| > 0 then Join(lines, "\n") else "(no output)", code, paths)
  }

  /** `if not command`: absent or empty. */
  predicate Given(command: Option<String>) {
    command.Some? && |command.value| > 0
  }

  /** `BashEnhancedTool.execute` */
  function Execute(s: Session, req: Request, host: Host, paths: Paths, proc: Proc, stream: Stream): (r: Step)
    ensures req.getHistory ==> r == Step(HistoryText(s), s)
    ensures !req.getHistory && !Given(req.command) ==>
      r == if req.resetSession then Step("Session reset successfully", Reset(host))
           else Step("Error: No command provided", s)
  {
    if req.getHistory then Step(HistoryText(s), s)
    else
      var base := if req.resetSession then Reset(host) else s;
      if !Given(req.command) then
        if req.resetSession then Step("Session reset successfully", base)
        else Step("Error: No command provided", base)
      else if req.stream then RunStreaming(base, req.command.value, stream, paths)
      else RunNormal(base, req.command.value, req.timeout, proc, paths)
  }

  // ---- history view ----

  function Min(a: int, b: int): int {
    if a < b then a else b
  }

  const Truncated: String := "   > ... (output truncated)"

  /** The stored output as the history shows it: its first three lines, then a marker if there were more. */
  function OutputLines(output: String): seq<String> {
    if |output| > 0 then
      var pieces := Split(output, '\n');
      var first := pieces[..Min(3, |pieces|)];
      seq(|first|, k requires 0 <= k < |first| => "   > " + first[k])
        + (if |pieces| > 3 then [Truncated] else [])
    else []
  }

  /** The line that names an entry's command. */
  function Heading(i: int, command: String): String {
    IntToString(i) + ". Command: " + command
  }

  /** One entry as `_get_history` shows it: heading, exit status, the output lines, a blank line. */
  function EntryLines(i: int, e: Entry): (r: seq<String>)
    ensures |r| >= 3
    ensures r[0] == Heading(i, e.command)
    ensures r[1] == "   Exit code: " + IntToString(e.exitCode)
    ensures |r| == 3 + |OutputLines(e.output)| && r[2..|r| - 1] == OutputLines(e.output)
    ensures r[|r| - 1] == ""
  {
    [Heading(i, e.command), "   Exit code: " + IntToString(e.exitCode)] + OutputLines(e.output) + [""]
  }

  /** The lines of each item in turn, the items numbered from `i` on. */
  function Numbered(block: (int, Entry) -> seq<String>, i: int, h: seq<Entry>): seq<String>
    decreases |h|
  {
    if |h| == 0 then [] else block(i, h[0]) + Numbered(block, i + 1, h[1..])
  }

  /** The entries from number `i` on. */
  function EntriesLines(i: int, h: seq<Entry>): seq<String> {
    Numbered(EntryLines, i, h)
  }

  const HistoryTitle: String := "Command History"
  const NoHistory: String := "No commands executed yet"

  /** The lines of the history view: the title, the working directory, the count, then every command under its number. */
  function HistoryLines(s: Session): (r: seq<String>)
    ensures |r| >= 5 && r[0] == HistoryTitle
    ensures r[2] == "Session working directory: " + s.cwd
    ensures r[3] == "Total commands: " + NatToString(|s.history|)
    ensures forall k :: 0 <= k < |s.history| ==> Heading(k + 1, s.history[k].command) in r
    ensures r[5..] == EntriesLines(1, s.history)
  {
    var head := HistoryHead(s);
    var entries := EntriesLines(1, s.history);
    assert forall k :: 0 <= k < |s.history| ==> Heading(k + 1, s.history[k].command) in head + entries by {
      forall k | 0 <= k < |s.history| {
        EntriesListCommands(1, s.history, k);
      }
    }
    assert (head + entries)[5..] == entries;
    head + entries
  }

  /** The view shows every command's whole block: its heading, exit code, output lines and blank line. */
  lemma HistoryShowsEveryEntry(s: Session, k: int)
    requires 0 <= k < |s.history|
    ensures Shows(HistoryLines(s), EntryLines(k + 1, s.history[k]))
  {
    EntriesShowEntry(1, s.history, k);
    ShowsDrop(HistoryLines(s), 5, EntryLines(k + 1, s.history[k]));
  }

  /** What a suffix shows, the whole shows. */
  lemma ShowsDrop(r: seq<String>, d: nat, b: seq<String>)
    requires d <= |r| && Shows(r[d..], b)
    ensures Shows(r, b)
  {
    var off :| 0 <= off && off + |b| <= |r[d..]| && Window(r[d..], off, |b|) == b;
    WindowDrop(r, d, off, |b|);
  }

  /** A window of a suffix is a window of the whole, moved by where the suffix starts. */
  lemma WindowDrop(r: seq<String>, d: nat, off: nat, n: nat)
    requires d + off + n <= |r|
    ensures Window(r, d + off, n) == Window(r[d..], off, n)
  {
  }

  /** `block` appears as consecutive lines of `lines`. */
  ghost predicate Shows(lines: seq<String>, block: seq<String>) {
    exists off :: 0 <= off && off + |block| <= |lines| && Window(lines, off, |block|) == block
  }

  /** The `n` lines from `off` on. */
  function Window(lines: seq<String>, off: int, n: int): seq<String>
    requires 0 <= off && 0 <= n && off + n <= |lines|
  {
    lines[off..off + n]
  }

  function HistoryHead(s: Session): (r: seq<String>)
    ensures |r| == 5 && r[0] == HistoryTitle
    ensures r[2] == "Session working directory: " + s.cwd
    ensures r[3] == "Total commands: " + NatToString(|s.history|)
  {
    [HistoryTitle, seq(60, _ => '='), "Session working directory: " + s.cwd, "Total commands: " + NatToString(|s.history|), ""]
  }

  /** `_get_history`: the notice exactly when nothing ran, otherwise the view's lines, opening with the title. */
  function HistoryText(s: Session): (r: String)
    ensures |s.history| == 0 <==> r == NoHistory
    ensures |s.history| > 0 ==> StartsWith(r, HistoryTitle)
    ensures |s.history| > 0 ==> r == Join(HistoryLines(s), "\n")
  {
    if |s.history| == 0 then NoHistory
    else
      var lines := HistoryLines(s);
      JoinStartsWithFirst(lines, "\n");
      assert Join(lines, "\n")[0] == 'C';
      Join(lines, "\n")
  }

  // ---- properties ----

  /** Asking for the history runs nothing and changes nothing. */
  lemma HistoryIsReadOnly(s: Session, req: Request, host: Host, paths: Paths, proc: Proc, stream: Stream)
    requires req.getHistory
    ensures Execute(s, req, host, paths, proc, stream).session == s
    ensures |s.history| == 0 <==> Execute(s, req, host, paths, proc, stream).out == NoHistory
  {
    if |s.history| > 0 {
      var lines := HistoryLines(s);
      JoinStartsWithFirst(lines, "\n");
      assert Join(lines, "\n")[0] == 'C';
    }
  }

  /** A reset followed by a command runs it in the host's directory with an empty history before it. */
  lemma ResetThenRun(s: Session, req: Request, host: Host, paths: Paths, proc: Proc)
    requires !req.getHistory && req.resetSession && Given(req.command) && !req.stream && proc.Finished?
    ensures Execute(s, req, host, paths, proc, Streamed([], 0)).session.history
      == [Entry(req.command.value, Take(NormalOutput(proc.stdout, proc.stderr), 500), proc.exitCode)]
  {
  }

  /** A finished normal run adds exactly one record, and the output carries the exit status exactly when it is not 0. */
  lemma NormalRunRecorded(s: Session, command: String, timeout: int, proc: Proc, paths: Paths)
    requires proc.Finished?
    ensures var r := RunNormal(s, command, timeout, proc, paths);
      var output := NormalOutput(proc.stdout, proc.stderr);
      r.session.history == s.history + [Entry(command, Take(output, 500), proc.exitCode)]
      && (proc.exitCode == 0 <==> r.out == output)
      && (proc.exitCode != 0 ==> r.out == output + "\n\nExit code: " + IntToString(proc.exitCode))
  {
    var output := NormalOutput(proc.stdout, proc.stderr);
    var r := RunNormal(s, command, timeout, proc, paths);
    if proc.exitCode != 0 {
      assert |r.out| > |output|;
    }
  }

  /** Every stored output is at most 500 characters long. */
  predicate Bounded(s: Session) {
    forall k :: 0 <= k < |s.history| ==> |s.history[k].output| <= 500
  }

  /** Every request keeps the history's outputs bounded. */
  lemma ExecuteKeepsBounded(s: Session, req: Request, host: Host, paths: Paths, proc: Proc, stream: Stream)
    requires Bounded(s)
    ensures Bounded(Execute(s, req, host, paths, proc, stream).session)
  {
    var base := if req.resetSession then Reset(host) else s;
    assert Bounded(base);
    if !req.getHistory && Given(req.command) {
      if req.stream {
        RunStreamingKeepsBounded(base, req.command.value, stream, paths);
      } else {
        RunNormalKeepsBounded(base, req.command.value, req.timeout, proc, paths);
      }
    }
  }

  lemma RunNormalKeepsBounded(s: Session, command: String, timeout: int, proc: Proc, paths: Paths)
    requires Bounded(s)
    ensures Bounded(RunNormal(s, command, timeout, proc, paths).session)
  {
    if proc.Finished? {
      AppendKeepsBounded(s.history, Entry(command, Take(NormalOutput(proc.stdout, proc.stderr), 500), proc.exitCode));
    }
  }

  lemma RunStreamingKeepsBounded(s: Session, command: String, stream: Stream, paths: Paths)
    requires Bounded(s)
    ensures Bounded(RunStreaming(s, command, stream, paths).session)
  {
    if stream.Streamed? && |stream.lines| > 0 {
      AppendKeepsBounded(s.history, Entry(command, Take(Join(stream.lines, "\n"), 500), stream.exitCode));
    } else if stream.Streamed? {
      AppendKeepsBounded(s.history, Entry(command, "(no output)", stream.exitCode));
    }
  }

  /** A record whose output is at most 500 characters keeps a bounded history bounded. */
  lemma AppendKeepsBounded(h: seq<Entry>, e: Entry)
    requires forall k :: 0 <= k < |h| ==> |h[k].output| <= 500
    requires |e.output| <= 500
    ensures forall k :: 0 <= k < |h + [e]| ==> |(h + [e])[k].output| <= 500
  {
  }

  /** The working directory changes only by a `cd` whose whole remainder, resolved, is an existing directory. */
  lemma CwdRule(s: Session, command: String, paths: Paths)
    ensures var r := UpdateState(s, command, paths);
      r.cwd == match CdTarget(command)
               case None => s.cwd
               case Some(d) => if paths.isDir(Resolve(s.cwd, d, paths)) then Resolve(s.cwd, d, paths) else s.cwd
  {
  }

  /** A `cd` asks for everything after it: `cd /tmp && pwd` asks for the directory "/tmp && pwd", not "/tmp". */
  lemma CdTakesWholeRemainder(dir: String)
    requires Plain(dir)
    ensures CdTarget("cd " + dir) == Some(dir)
  {
    var c := "cd " + dir;
    StripNone(c);
    assert StartsWith(c, "cd ") by { assert c[..3] == "cd "; }
    assert c[3..] == dir;
    StripNone(dir);
  }

  /** The names a list of assignments sets. */
  function Names(pairs: seq<(String, String)>): set<String> {
    set k | 0 <= k < |pairs| :: pairs[k].0
  }

  /** The value of the last assignment to `name`. */
  function LastValue(pairs: seq<(String, String)>, name: String): String
    requires name in Names(pairs)
    decreases |pairs|
  {
    var n := |pairs| - 1;
    if pairs[n].0 == name then pairs[n].1
    else
      assert name in Names(pairs[..n]) by {
        var k :| 0 <= k < |pairs| && pairs[k].0 == name;
        assert pairs[..n][k].0 == name;
      }
      LastValue(pairs[..n], name)
  }

  /** Assignments in order: the last one to a name wins, and names nobody assigns keep their values. */
  lemma {:induction false} ExportsLastWins(s: Session, pairs: seq<(String, String)>, name: String)
    ensures var env := ApplyExports(s, pairs).env;
      if name in Names(pairs) then name in env && env[name] == LastValue(pairs, name)
      else (name in env <==> name in s.env) && (name in s.env ==> env[name] == s.env[name])
    decreases |pairs|
  {
    if |pairs| > 0 {
      var n := |pairs| - 1;
      var init := pairs[..n];
      ExportsLastWins(s, init, name);
      assert Names(pairs) == Names(init) + {pairs[n].0} by {
        forall x | x in Names(pairs) ensures x in Names(init) + {pairs[n].0} {
          var k :| 0 <= k < |pairs| && pairs[k].0 == x;
          if k < n { assert init[k].0 == x; }
        }
        forall x | x in Names(init) ensures x in Names(pairs) {
          var k :| 0 <= k < |init| && init[k].0 == x;
          assert pairs[k].0 == x;
        }
      }
    }
  }

  /** Text with something in it and no whitespace at either end. */
  predicate Plain(s: String) {
    |s| > 0 && !IsSpace(s[0]) && !IsSpace(s[|s| - 1])
  }

  /**
   * A single `export NAME=VALUE` sets NAME to everything after the '=', so
   * `export MY_VAR=123 && echo $MY_VAR` sets MY_VAR to "123 && echo $MY_VAR".
   */
  lemma ExportTakesWholeRemainder(name: String, value: String)
    requires Plain(name) && '=' !in name && ';' !in name
    requires Plain(value) && ';' !in value
    requires value[0] != '"' && value[0] != '\'' && value[|value| - 1] != '"' && value[|value| - 1] != '\''
    ensures Exports("export " + name + "=" + value) == [(name, value)]
  {
    var c := "export " + name + "=" + value;
    ExportLine(name, value);
    SinglePart(c);
    ExportOfPlain(name, value);
    CollectOne(ExportOf, c);
  }

  lemma ExportLine(name: String, value: String)
    requires ';' !in name && ';' !in value
    ensures var c := "export " + name + "=" + value;
      Contains(c, "export ") && IndexOf(c, ';') < 0
  {
    var c := "export " + name + "=" + value;
    assert OccursAt(c, "export ", 0);
    assert ';' !in "export " + name + "=";
  }

  /** A command without ';' is one part. */
  lemma SinglePart(c: String)
    requires Contains(c, "export ") && IndexOf(c, ';') < 0
    ensures Exports(c) == ExportsIn([c])
  {
    assert Split(c, ';') == [c];
  }

  lemma CollectOne(f: String -> Option<(String, String)>, c: String)
    requires f(c).Some?
    ensures Collect(f, [c]) == [f(c).value]
  {
    assert [c][1..] == [];
  }

  lemma ExportOfPlain(name: String, value: String)
    requires Plain(name) && '=' !in name
    requires Plain(value)
    requires value[0] != '"' && value[0] != '\'' && value[|value| - 1] != '"' && value[|value| - 1] != '\''
    ensures ExportOf("export " + name + "=" + value) == Some((name, value))
  {
    var c := "export " + name + "=" + value;
    assert StartsWith(c, "export ") by { assert c[..7] == "export "; }
    StripNone(c);
    var a := c[7..];
    assert a == name + "=" + value;
    StripNone(a);
    AssignmentPlain(name, value);
  }

  lemma AssignmentPlain(name: String, value: String)
    requires Plain(name) && '=' !in name
    requires Plain(value)
    requires value[0] != '"' && value[0] != '\'' && value[|value| - 1] != '"' && value[|value| - 1] != '\''
    ensures Assignment(name + "=" + value) == Some((name, value))
  {
    var a := name + "=" + value;
    assert a[..|name|] == name;
    assert IndexOf(a, '=') == |name| by { assert a[|name|] == '='; }
    assert a[|name| + 1..] == value;
    StripNone(name);
    StripNone(value);
    StripCharNone(value, '"');
    StripCharNone(value, '\'');
  }

  /** The parts of a command are read in order: an export before the first ';' comes first. */
  lemma ExportsInOrder(x: String, y: String)
    requires StartsWith(x, "export ") && ';' !in x
    ensures Exports(x + ";" + y) == ExportsIn([x]) + ExportsIn(Split(y, ';'))
  {
    var c := x + ";" + y;
    assert Contains(c, "export ") by { assert c[..7] == x[..7]; assert OccursAt(c, "export ", 0); }
    assert IndexOf(c, ';') == |x| by { assert c[..|x|] == x; assert c[|x|] == ';'; }
    assert c[..|x|] == x && c[|x| + 1..] == y;
    assert Split(c, ';') == [x] + Split(y, ';');
    ExportsInCons(x, Split(y, ';'));
  }

  lemma ExportsInCons(p: String, rest: seq<String>)
    ensures ExportsIn([p] + rest) == ExportsIn([p]) + ExportsIn(rest)
  {
    CollectCons(ExportOf, p, rest);
  }

  lemma CollectCons(f: String -> Option<(String, String)>, p: String, rest: seq<String>)
    ensures Collect(f, [p] + rest) == Collect(f, [p]) + Collect(f, rest)
  {
    assert ([p] + rest)[1..] == rest;
    assert [p][1..] == [];
  }

  /** The history view lists every command under its number. */
  lemma EntriesListCommands(i: int, h: seq<Entry>, k: int)
    requires 0 <= k < |h|
    ensures Heading(i + k, h[k].command) in EntriesLines(i, h)
  {
    BlockAt(EntryLines, i, h, k);
    var lines := EntriesLines(i, h);
    assert lines[Offset(EntryLines, i, h, k)] == EntryLines(i + k, h[k])[0];
  }

  /** Every entry's whole block, exit code and output lines included, appears in the listing. */
  lemma EntriesShowEntry(i: int, h: seq<Entry>, k: int)
    requires 0 <= k < |h|
    ensures Shows(EntriesLines(i, h), EntryLines(i + k, h[k]))
  {
    NumberedShows(EntryLines, i, h, k);
  }

  /** A numbered listing shows the block of each of its items. */
  lemma NumberedShows(block: (int, Entry) -> seq<String>, i: int, h: seq<Entry>, k: int)
    requires 0 <= k < |h|
    ensures Shows(Numbered(block, i, h), block(i + k, h[k]))
  {
    var off := BlockSliceAt(block, i, h, k);
    assert Window(Numbered(block, i, h), off, |block(i + k, h[k])|) == block(i + k, h[k]);
  }

  /** The listing grows by one entry's block per command, numbered after the ones before it. */
  lemma EntriesLinesSnoc(i: int, h: seq<Entry>, e: Entry)
    ensures EntriesLines(i, h + [e]) == EntriesLines(i, h) + EntryLines(i + |h|, e)
  {
    NumberedSnoc(EntryLines, i, h, e);
  }

  lemma {:induction false} NumberedSnoc(block: (int, Entry) -> seq<String>, i: int, h: seq<Entry>, e: Entry)
    ensures Numbered(block, i, h + [e]) == Numbered(block, i, h) + block(i + |h|, e)
    decreases |h|
  {
    if |h| == 0 {
      assert h + [e] == [e];
      assert [e][1..] == [];
    } else {
      var t := h[1..];
      assert (h + [e])[0] == h[0] && (h + [e])[1..] == t + [e];
      NumberedSnoc(block, i + 1, t, e);
      assert i + 1 + |t| == i + |h|;
    }
  }

  /** The lines of item `k` are consecutive lines of the listing, starting at its offset. */
  lemma {:induction false} BlockSliceAt(block: (int, Entry) -> seq<String>, i: int, h: seq<Entry>, k: int) returns (off: nat)
    requires 0 <= k < |h|
    ensures var b := block(i + k, h[k]);
      off + |b| <= |Numbered(block, i, h)| && Numbered(block, i, h)[off..off + |b|] == b
    decreases k
  {
    var head, tail := block(i, h[0]), Numbered(block, i + 1, h[1..]);
    assert Numbered(block, i, h) == head + tail;
    if k == 0 {
      off := 0;
      assert (head + tail)[..|head|] == head;
    } else {
      var j := BlockSliceAt(block, i + 1, h[1..], k - 1);
      var b := block(i + k, h[k]);
      assert h[1..][k - 1] == h[k];
      assert i + 1 + (k - 1) == i + k;
      off := |head| + j;
      assert (head + tail)[off..off + |b|] == tail[j..j + |b|];
    }
  }

  /** Where the lines of item `k` begin. */
  ghost function Offset(block: (int, Entry) -> seq<String>, i: int, h: seq<Entry>, k: int): nat
    requires 0 <= k < |h|
    decreases k
  {
    if k == 0 then 0 else |block(i, h[0])| + Offset(block, i + 1, h[1..], k - 1)
  }

  /** The lines of item `k` begin at its offset. */
  lemma {:induction false} BlockAt(block: (int, Entry) -> seq<String>, i: int, h: seq<Entry>, k: int)
    requires 0 <= k < |h|
    requires |block(i + k, h[k])| > 0
    ensures Offset(block, i, h, k) < |Numbered(block, i, h)|
    ensures Numbered(block, i, h)[Offset(block, i, h, k)] == block(i + k, h[k])[0]
    decreases k
  {
    var head, tail := block(i, h[0]), Numbered(block, i + 1, h[1..]);
    assert Numbered(block, i, h) == head + tail;
    if k > 0 {
      var j := Offset(block, i + 1, h[1..], k - 1);
      assert Offset(block, i, h, k) == |head| + j;
      assert h[1..][k - 1] == h[k];
      assert i + 1 + (k - 1) == i + k;
      BlockAt(block, i + 1, h[1..], k - 1);
      assert (head + tail)[|head| + j] == tail[j];
    }
  }

  /** An entry shows the first three lines of the stored output, and the marker when there were more. */
  lemma OutputShowsThreeLines(output: String)
    requires |output| > 0
    ensures var pieces := Split(output, '\n');
      var r := OutputLines(output);
      |r| == Min(3, |pieces|) + (if |pieces| > 3 then 1 else 0)
      && (forall k :: 0 <= k < Min(3, |pieces|) ==> r[k] == "   > " + pieces[k])
      && (|pieces| > 3 ==> r[3] == Truncated)
  {
    var pieces := Split(output, '\n');
    var first := pieces[..Min(3, |pieces|)];
    var shown := seq(|first|, k requires 0 <= k < |first| => "   > " + first[k]);
    var tail := if |pieces| > 3 then [Truncated] else [];
    assert OutputLines(output) == shown + tail;
    assert forall k :: 0 <= k < |first| ==> (shown + tail)[k] == "   > " + pieces[k];
    if |pieces| > 3 {
      assert (shown + tail)[3] == Truncated;
    }
  }
}
