// The lifecycle of a user script: the `/// @tag value` header read when the
// script is loaded, its log list, the run/tick state machine driven from the
// editor's frame tick, and the manager that reloads and ticks every script.
// Evaluating the script, reading files, listing directories and parsing a
// version string are outside this model and enter as parameters.
module Scripting {
  import opened Wrappers
  import JsMarshal
  import QjsHandles

  // ---------------------------------------------------------------------
  // Logs

  /** `JsScript::Log::Level`, in declaration order. */
  datatype Level = Status | Info | Warning | Error

  /** The enum's underlying value, which severity comparisons use. */
  function Rank(l: Level): nat
  {
    match l
    case Status => 0
    case Info => 1
    case Warning => 2
    case Error => 3
  }

  /** The declaration order is a strict order on the four levels. */
  lemma RankOrdersLevels(a: Level, b: Level)
    ensures Rank(Status) < Rank(Info) < Rank(Warning) < Rank(Error)
    ensures Rank(a) == Rank(b) <==> a == b
  {
  }

  datatype Log = Log(level: Level, message: string)

  /** The version triple of `VersionInfo`; parsing one is an oracle. */
  datatype Version = Version(major: nat, minor: nat, patch: nat)

  const DEFAULT_AUTHOR := "[Unknown]"
  const DEFAULT_VERSION := Version(1, 0, 0)
  const READY := "Ready to run script"
  const FINISHED := "Finished running script with value "
  const CLASS_SETUP_FAILED := "Unable to setup GameObject class: "

  // ---------------------------------------------------------------------
  // Characters and trimming

  /** `std::isspace` in the "C" locale. */
  predicate IsSpace(c: char)
  {
    c == ' ' || c == '\t' || c == '\n' || c == '\U{0B}' || c == '\U{0C}' || c == '\r'
  }

  /** `std::isalnum` in the "C" locale. */
  predicate IsAlnum(c: char)
  {
    'a' <= c <= 'z' || 'A' <= c <= 'Z' || '0' <= c <= '9'
  }

  /** Drops leading whitespace. */
  function TrimStart(s: string): string
  {
    if s != [] && IsSpace(s[0]) then TrimStart(s[1..]) else s
  }

  /** Drops trailing whitespace. */
  function TrimEnd(s: string): string
  {
    if s != [] && IsSpace(s[|s| - 1]) then TrimEnd(s[..|s| - 1]) else s
  }

  /** `string::trimIP`: whitespace removed from both ends. */
  function Trim(s: string): string
  {
    TrimEnd(TrimStart(s))
  }

  /** TrimStart removes a leading run of whitespace and nothing else. */
  lemma {:induction false} TrimStartFacts(s: string)
    ensures var r := TrimStart(s);
      && |r| <= |s| && r == s[|s| - |r|..]
      && (r == [] || !IsSpace(r[0]))
      && (forall i :: 0 <= i < |s| - |r| ==> IsSpace(s[i]))
    decreases |s|
  {
    if s != [] && IsSpace(s[0]) {
      TrimStartFacts(s[1..]);
    }
  }

  /** TrimEnd removes a trailing run of whitespace and nothing else. */
  lemma {:induction false} TrimEndFacts(s: string)
    ensures var r := TrimEnd(s);
      && |r| <= |s| && r == s[..|r|]
      && (r == [] || !IsSpace(r[|r| - 1]))
      && (forall i :: |r| <= i < |s| ==> IsSpace(s[i]))
    decreases |s|
  {
    if s != [] && IsSpace(s[|s| - 1]) {
      TrimEndFacts(s[..|s| - 1]);
    }
  }

  /**
   * Trimming gives the empty string exactly for an all-whitespace string,
   * and otherwise a non-empty slice of it that neither starts nor ends with
   * whitespace, with only whitespace cut on either side.
   */
  lemma TrimFacts(s: string)
    ensures Trim(s) == [] <==> forall i :: 0 <= i < |s| ==> IsSpace(s[i])
    ensures Trim(s) != [] ==> !IsSpace(Trim(s)[0]) && !IsSpace(Trim(s)[|Trim(s)| - 1])
  {
    var t := TrimStart(s);
    var r := TrimEnd(t);
    TrimStartFacts(s);
    TrimEndFacts(t);
    if r != [] {
      assert t[0] == r[0];
    }
  }

  // ---------------------------------------------------------------------
  // Lines

  /** The index of the first '\n' at or after `i`, or the end of `data`. */
  function LineEnd(data: string, i: nat): (k: nat)
    requires i <= |data|
    ensures i <= k <= |data|
    decreases |data| - i
  {
    if i == |data| || data[i] == '\n' then i else LineEnd(data, i + 1)
  }

  /** The line ends at the first '\n'. */
  lemma {:induction false} LineEndFacts(data: string, i: nat)
    requires i <= |data|
    ensures forall j :: i <= j < LineEnd(data, i) ==> data[j] != '\n'
    ensures LineEnd(data, i) < |data| ==> data[LineEnd(data, i)] == '\n'
    decreases |data| - i
  {
    if i < |data| && data[i] != '\n' {
      LineEndFacts(data, i + 1);
    }
  }

  /**
   * The lines `std::getline` reads one after another: split at each '\n',
   * with no empty line after a final '\n' and none for empty data.
   */
  function SplitLines(data: string): seq<string>
    decreases |data|
  {
    if data == [] then []
    else
      var k := LineEnd(data, 0);
      if k == |data| then [data] else [data[..k]] + SplitLines(data[k + 1..])
  }

  /** Every line followed by a '\n'. */
  function Terminated(lines: seq<string>): string
  {
    if lines == [] then "" else lines[0] + "\n" + Terminated(lines[1..])
  }

  /** No line holds a '\n'. */
  lemma {:induction false} SplitLinesHaveNoNewline(data: string)
    ensures forall i :: 0 <= i < |SplitLines(data)| ==> '\n' !in SplitLines(data)[i]
    decreases |data|
  {
    if data != [] {
      var k := LineEnd(data, 0);
      LineEndFacts(data, 0);
      if k < |data| {
        SplitLinesHaveNoNewline(data[k + 1..]);
      }
    }
  }

  /** Splitting loses no character: the lines give back the data, with a final '\n' added when it had none. */
  lemma {:induction false} SplitLinesRestoresData(data: string)
    ensures Terminated(SplitLines(data)) == if data == [] || data[|data| - 1] == '\n' then data else data + "\n"
    decreases |data|
  {
    if data != [] {
      var k := LineEnd(data, 0);
      if k == |data| {
        LastLineRestores(data);
      } else {
        LineEndFacts(data, 0);
        SplitLinesRestoresData(data[k + 1..]);
        NextLineRestores(data, k);
      }
    }
  }

  /** Data without a '\n' is one line, terminated on output. */
  lemma LastLineRestores(data: string)
    requires data != [] && LineEnd(data, 0) == |data|
    ensures Terminated(SplitLines(data)) == data + "\n" && data[|data| - 1] != '\n'
  {
    LineEndFacts(data, 0);
    assert SplitLines(data) == [data];
    assert Terminated([data]) == data + "\n" + Terminated([]);
  }

  /** The first line and its '\n', then the rest as it restores. */
  lemma NextLineRestores(data: string, k: nat)
    requires k < |data| && data[k] == '\n'
    requires k == LineEnd(data, 0)
    requires var rest := data[k + 1..];
      Terminated(SplitLines(rest)) == if rest == [] || rest[|rest| - 1] == '\n' then rest else rest + "\n"
    ensures Terminated(SplitLines(data)) == if data[|data| - 1] == '\n' then data else data + "\n"
  {
    var line, rest := data[..k], data[k + 1..];
    var r := Terminated(SplitLines(rest));
    assert Terminated(SplitLines(data)) == line + "\n" + r by {
      assert SplitLines(data) == [line] + SplitLines(rest);
      TerminatedCons(line, SplitLines(rest));
    }
    assert data == line + "\n" + rest by {
      assert data == data[..k] + [data[k]] + data[k + 1..];
    }
    if rest != [] {
      assert data[|data| - 1] == rest[|rest| - 1];
      if rest[|rest| - 1] != '\n' {
        assert line + "\n" + (rest + "\n") == (line + "\n" + rest) + "\n";
      }
    }
  }

  lemma TerminatedCons(line: string, lines: seq<string>)
    ensures Terminated([line] + lines) == line + "\n" + Terminated(lines)
  {
    assert ([line] + lines)[1..] == lines;
  }

  // ---------------------------------------------------------------------
  // Header directives

  /** The first index at or after `i` that is not whitespace, or the end of `line`. */
  function SkipSpaces(line: string, i: nat): (j: nat)
    requires i <= |line|
    ensures i <= j <= |line|
    decreases |line| - i
  {
    if i < |line| && IsSpace(line[i]) then SkipSpaces(line, i + 1) else i
  }

  /** SkipSpaces stops at the first character that is not whitespace. */
  lemma {:induction false} SkipSpacesFacts(line: string, i: nat)
    requires i <= |line|
    ensures forall k :: i <= k < SkipSpaces(line, i) ==> IsSpace(line[k])
    ensures SkipSpaces(line, i) == |line| || !IsSpace(line[SkipSpaces(line, i)])
    decreases |line| - i
  {
    if i < |line| && IsSpace(line[i]) {
      SkipSpacesFacts(line, i + 1);
    }
  }

  /** The end of the alphanumeric run starting at `i`. */
  function AlnumEnd(line: string, i: nat): (j: nat)
    requires i <= |line|
    ensures i <= j <= |line|
    decreases |line| - i
  {
    if i < |line| && IsAlnum(line[i]) then AlnumEnd(line, i + 1) else i
  }

  /** AlnumEnd stops at the first character that is not alphanumeric. */
  lemma {:induction false} AlnumEndFacts(line: string, i: nat)
    requires i <= |line|
    ensures forall k :: i <= k < AlnumEnd(line, i) ==> IsAlnum(line[k])
    ensures AlnumEnd(line, i) == |line| || !IsAlnum(line[AlnumEnd(line, i)])
    decreases |line| - i
  {
    if i < |line| && IsAlnum(line[i]) {
      AlnumEndFacts(line, i + 1);
    }
  }

  /**
   * A `/// @tag rest` line: its tag and the rest of the line. The rest is
   * None when the tag runs to the end of the line: the read of the tag then
   * hit the end of the stream, so the following `std::getline` reads nothing.
   */
  datatype Directive = Directive(tag: string, rest: Option<string>)

  /** The directive a header line holds, if any. */
  function ParseDirective(line: string): Option<Directive>
  {
    if |line| < 3 || line[..3] != "///" then None
    else
      var at := SkipSpaces(line, 3);
      if at == |line| || line[at] != '@' then None
      else
        var end := AlnumEnd(line, at + 1);
        Some(Directive(line[at + 1..end], if end == |line| then None else Some(line[end..])))
  }

  /**
   * Only lines starting with "///" whose first non-whitespace character after
   * the slashes is '@' are directives, and the tag is the longest
   * alphanumeric run after the '@'.
   */
  lemma DirectiveRecognition(line: string)
    ensures ParseDirective(line).Some? <==>
      (|line| >= 3 && line[..3] == "///" && SkipSpaces(line, 3) < |line| && line[SkipSpaces(line, 3)] == '@')
    ensures ParseDirective(line).Some? ==>
      var at := SkipSpaces(line, 3);
      var tag := ParseDirective(line).value.tag;
      && at + 1 + |tag| <= |line|
      && tag == line[at + 1..at + 1 + |tag|]
      && (forall k :: 0 <= k < |tag| ==> IsAlnum(tag[k]))
      && (at + 1 + |tag| == |line| || !IsAlnum(line[at + 1 + |tag|]))
      && (ParseDirective(line).value.rest.None? <==> at + 1 + |tag| == |line|)
  {
    if |line| >= 3 && line[..3] == "///" {
      var at := SkipSpaces(line, 3);
      SkipSpacesFacts(line, 3);
      if at < |line| && line[at] == '@' {
        AlnumEndFacts(line, at + 1);
      }
    }
  }

  /** The script's metadata and creation logs as the header scan builds them. */
  datatype Meta = Meta(title: string, author: string, version: Version, logs: seq<Log>, runnable: bool)

  /** An Error log that also makes the script not runnable. */
  function Fail(m: Meta, message: string): Meta
  {
    m.(logs := m.logs + [Log(Error, message)], runnable := false)
  }

  /**
   * One directive. `@name` and `@by` read the rest of the line into the
   * field, trim it and refuse an empty result; `@version` parses the trimmed
   * rest; any other tag, the empty one included, is refused.
   */
  function ApplyDirective(m: Meta, d: Directive, parseVersion: string -> Result<Version>): (r: Meta)
    ensures r.logs == m.logs || (|r.logs| == |m.logs| + 1 && r.logs == m.logs + [Log(Error, r.logs[|m.logs|].message)])
    ensures r.runnable <==> m.runnable && r.logs == m.logs
    ensures d.tag != "name" && d.tag != "by" && d.tag != "version" ==>
      r == Fail(m, "Invalid metadata tag '" + d.tag + "'")
    ensures d.tag == "name" && d.rest.Some? ==>
      r.title == Trim(d.rest.value) && (r.logs == m.logs <==> Trim(d.rest.value) != [])
  {
    if d.tag == "name" then
      var t := Trim(d.rest.UnwrapOr(m.title));
      if t == [] then Fail(m.(title := t), "Script metadata `@name` requires a value") else m.(title := t)
    else if d.tag == "by" then
      var a := Trim(d.rest.UnwrapOr(m.author));
      if a == [] then Fail(m.(author := a), "Script metadata `@by` requires a value") else m.(author := a)
    else if d.tag == "version" then
      var parsed := parseVersion(Trim(d.rest.UnwrapOr("")));
      if parsed.Ok? then m.(version := parsed.value)
      else Fail(m, "Script metadata `@version` has invalid value: " + parsed.error)
    else
      Fail(m, "Invalid metadata tag '" + d.tag + "'")
  }

  function ApplyLine(m: Meta, line: string, parseVersion: string -> Result<Version>): Meta
  {
    match ParseDirective(line)
    case None => m
    case Some(d) => ApplyDirective(m, d, parseVersion)
  }

  /** The header scan over the lines, in order. */
  function ScanHeader(lines: seq<string>, m: Meta, parseVersion: string -> Result<Version>): Meta
  {
    if lines == [] then m
    else ApplyLine(ScanHeader(lines[..|lines| - 1], m, parseVersion), lines[|lines| - 1], parseVersion)
  }

  /** The state before the scan: the defaults, and an Error for a file that could not be read. */
  function Initial(filename: string, contents: Result<string>): Meta
  {
    Meta(filename, DEFAULT_AUTHOR, DEFAULT_VERSION,
         if contents.Err? then [Log(Error, contents.error)] else [], contents.Ok?)
  }

  /** Everything `JsScript::create` decides about a script. */
  function Created(filename: string, contents: Result<string>, parseVersion: string -> Result<Version>): Meta
  {
    var lines := SplitLines(if contents.Ok? then contents.value else "");
    var scanned := ScanHeader(lines, Initial(filename, contents), parseVersion);
    if scanned.runnable then scanned.(logs := scanned.logs + [Log(Status, READY)]) else scanned
  }

  /**
   * The scan only adds Error logs, never makes a script runnable again, and
   * leaves it runnable exactly when it added no log to a runnable start.
   */
  lemma {:induction false} ScanHeaderOnlyFails(lines: seq<string>, m: Meta, parseVersion: string -> Result<Version>)
    ensures var r := ScanHeader(lines, m, parseVersion);
      && |m.logs| <= |r.logs| && r.logs[..|m.logs|] == m.logs
      && (forall i :: |m.logs| <= i < |r.logs| ==> r.logs[i].level == Error)
      && (r.runnable <==> m.runnable && r.logs == m.logs)
    decreases |lines|
  {
    if lines != [] {
      var before := ScanHeader(lines[..|lines| - 1], m, parseVersion);
      ScanHeaderOnlyFails(lines[..|lines| - 1], m, parseVersion);
      var r := ScanHeader(lines, m, parseVersion);
      assert r == ApplyLine(before, lines[|lines| - 1], parseVersion);
      assert r.logs[..|before.logs|] == before.logs;
      assert r.logs[..|m.logs|] == before.logs[..|m.logs|];
    }
  }

  /**
   * A created script is runnable exactly when its only log is the Status
   * "Ready to run script"; otherwise it has logged at least one Error and
   * nothing but Errors.
   */
  lemma CreatedReadyIffClean(filename: string, contents: Result<string>, parseVersion: string -> Result<Version>)
    ensures var c := Created(filename, contents, parseVersion);
      c.runnable <==> c.logs == [Log(Status, READY)]
    ensures var c := Created(filename, contents, parseVersion);
      !c.runnable ==> |c.logs| >= 1 && forall i :: 0 <= i < |c.logs| ==> c.logs[i].level == Error
  {
    var lines := SplitLines(if contents.Ok? then contents.value else "");
    var start := Initial(filename, contents);
    ScanHeaderOnlyFails(lines, start, parseVersion);
    var scanned := ScanHeader(lines, start, parseVersion);
    var c := Created(filename, contents, parseVersion);
    if scanned.runnable {
      assert start.logs == [];
      assert c.logs == [Log(Status, READY)];
    } else {
      assert c == scanned;
      assert scanned.logs != [] by {
        if contents.Ok? {
          assert scanned.logs != start.logs;
        } else {
          assert |start.logs| == 1;
        }
      }
      assert forall i :: 0 <= i < |start.logs| ==> start.logs[i].level == Error;
      forall i | 0 <= i < |c.logs| ensures c.logs[i].level == Error {
        if i < |start.logs| {
          assert c.logs[i] == c.logs[..|start.logs|][i];
        }
      }
      assert c.logs[0].level == Error;
    }
  }

  /** A file that cannot be read is not runnable, logs the read error first and keeps the default metadata. */
  lemma UnreadableFile(filename: string, message: string, parseVersion: string -> Result<Version>)
    ensures var c := Created(filename, Err(message), parseVersion);
      && !c.runnable && c.logs == [Log(Error, message)]
      && c.title == filename && c.author == DEFAULT_AUTHOR && c.version == DEFAULT_VERSION
  {
    assert SplitLines("") == [];
  }

  /** Lines that hold no directive change nothing. */
  lemma {:induction false} NoDirectivesKeepDefaults(lines: seq<string>, m: Meta, parseVersion: string -> Result<Version>)
    requires forall i :: 0 <= i < |lines| ==> ParseDirective(lines[i]).None?
    ensures ScanHeader(lines, m, parseVersion) == m
    decreases |lines|
  {
    if lines != [] {
      NoDirectivesKeepDefaults(lines[..|lines| - 1], m, parseVersion);
    }
  }

  // A directive with nothing after the tag: "/// @name" at the end of a line.

  /** The tag of a bare "/// @name" runs to the end of the line. */
  lemma BareNameDirective()
    ensures ParseDirective("/// @name") == Some(Directive("name", None))
  {
    var line := "/// @name";
    assert line[..3] == "///";
    assert SkipSpaces(line, 4) == 4;
    assert SkipSpaces(line, 3) == 4;
    assert AlnumEnd(line, 9) == 9;
    assert AlnumEnd(line, 5) == 9;
    assert line[5..9] == "name";
  }

  /**
   * As written, a bare "/// @name" reads no value, keeps the file name as
   * the title, logs nothing and leaves the script runnable.
   */
  lemma BareNameKeepsTitle(parseVersion: string -> Result<Version>)
    ensures Created("a.js", Ok("/// @name"), parseVersion)
      == Meta("a.js", DEFAULT_AUTHOR, DEFAULT_VERSION, [Log(Status, READY)], true)
  {
    var data := "/// @name";
    assert LineEnd(data, 0) == |data|;
    assert SplitLines(data) == [data];
    BareNameDirective();
    var start := Initial("a.js", Ok(data));
    assert ScanHeader([data], start, parseVersion) == ApplyLine(ScanHeader([], start, parseVersion), data, parseVersion);
    assert Trim("a.js") == "a.js";
  }

  /** The directive as its messages intend: a missing value counts as an empty one. */
  function ApplyDirectiveIntended(m: Meta, d: Directive, parseVersion: string -> Result<Version>): (r: Meta)
    ensures d.tag == "name" ==> (r.runnable <==> m.runnable && Trim(d.rest.UnwrapOr("")) != [])
    ensures d.tag == "by" ==> (r.runnable <==> m.runnable && Trim(d.rest.UnwrapOr("")) != [])
  {
    ApplyDirective(m, d.(rest := Some(d.rest.UnwrapOr(""))), parseVersion)
  }

  /** With the intended reading, a bare "/// @name" is refused with "requires a value". */
  lemma BareNameIntended(m: Meta, parseVersion: string -> Result<Version>)
    ensures ApplyDirectiveIntended(m, Directive("name", None), parseVersion)
      == Fail(m.(title := ""), "Script metadata `@name` requires a value")
  {
    assert Trim("") == "";
  }

  // ---------------------------------------------------------------------
  // Running and ticking

  /** What a script's lifecycle fields hold: logs, the notification flag and count, finished, whether a module is loaded. */
  datatype RunState = RunState(logs: seq<Log>, queuedLogEvent: bool, scheduledEvents: nat, finished: bool, moduleLoaded: bool)

  /**
   * `log`: one entry appended; a notification is scheduled on the main
   * thread only when none is pending.
   */
  function Logged(s: RunState, entry: Log): (r: RunState)
    ensures r.logs == s.logs + [entry] && r.queuedLogEvent
    ensures r.scheduledEvents == s.scheduledEvents + (if s.queuedLogEvent then 0 else 1)
    ensures r.finished == s.finished && r.moduleLoaded == s.moduleLoaded
  {
    RunState(s.logs + [entry], true, if s.queuedLogEvent then s.scheduledEvents else s.scheduledEvents + 1,
             s.finished, s.moduleLoaded)
  }

  /** Any number of logs in a row schedule at most one notification, and none while one is pending. */
  lemma {:induction false} LogBurstSchedulesOnce(s: RunState, entries: seq<Log>)
    ensures var r := LogAll(s, entries);
      && r.logs == s.logs + entries
      && r.scheduledEvents == s.scheduledEvents + (if s.queuedLogEvent || entries == [] then 0 else 1)
    decreases |entries|
  {
    if entries != [] {
      LogBurstSchedulesOnce(s, entries[..|entries| - 1]);
      assert s.logs + entries[..|entries| - 1] + [entries[|entries| - 1]] == s.logs + entries;
    }
  }

  function LogAll(s: RunState, entries: seq<Log>): RunState
  {
    if entries == [] then s else Logged(LogAll(s, entries[..|entries| - 1]), entries[|entries| - 1])
  }

  /** What one `tick` returns, whether the script is finished after it, and the log it adds. */
  datatype TickStep = TickStep(ret: bool, finished: bool, entry: Option<Log>)

  /**
   * `JsScript::tick` given the module tick's result: a finished script
   * returns true; an error finishes it with one Error log and returns false;
   * a value finishes it with one Status log; no value yet changes nothing.
   */
  function TickOf(finished: bool, res: Result<Option<JsMarshal.JsVal>>, text: JsMarshal.JsVal -> string): (t: TickStep)
    ensures !t.ret <==> !finished && res.Err?
    ensures t.finished <==> finished || res.Err? || res.value.Some?
    ensures t.entry.Some? <==> !finished && (res.Err? || res.value.Some?)
    ensures t.entry.Some? && res.Err? ==> t.entry.value == Log(Error, res.error)
    ensures t.entry.Some? && res.Ok? ==> t.entry.value == Log(Status, FINISHED + text(res.value.value))
  {
    if finished then TickStep(true, true, None)
    else if res.Err? then TickStep(false, true, Some(Log(Error, res.error)))
    else if res.value.Some? then TickStep(true, true, Some(Log(Status, FINISHED + text(res.value.value))))
    else TickStep(true, false, None)
  }

  /** The module tick's inputs from the engine: the promise's state and the outcome of its next job. */
  datatype TickInput = TickInput(state: Option<QjsHandles.PromiseState>, job: QjsHandles.JobOutcome)

  /** One tick of a script, on its lifecycle fields. */
  function TickEffect(s: RunState, input: TickInput, text: JsMarshal.JsVal -> string): RunState
  {
    var t := TickOf(s.finished, QjsHandles.Tick(s.moduleLoaded, input.state, input.job), text);
    var after := s.(finished := t.finished);
    if t.entry.Some? then Logged(after, t.entry.value) else after
  }

  function TickReturn(s: RunState, input: TickInput, text: JsMarshal.JsVal -> string): bool
  {
    TickOf(s.finished, QjsHandles.Tick(s.moduleLoaded, input.state, input.job), text).ret
  }

  /** Ticks in a row: the returns and the final state. */
  function TickMany(s: RunState, inputs: seq<TickInput>, text: JsMarshal.JsVal -> string): (seq<bool>, RunState)
    decreases |inputs|
  {
    if inputs == [] then ([], s)
    else
      var next := TickMany(TickEffect(s, inputs[0], text), inputs[1..], text);
      ([TickReturn(s, inputs[0], text)] + next.0, next.1)
  }

  /**
   * However many frames tick a script, it logs at most one entry and returns
   * false at most once; once finished it logs nothing and always returns true.
   */
  lemma {:induction false} TicksReportOnce(s: RunState, inputs: seq<TickInput>, text: JsMarshal.JsVal -> string)
    ensures var (rets, r) := TickMany(s, inputs, text);
      && |rets| == |inputs|
      && s.logs <= r.logs && |r.logs| <= |s.logs| + 1
      && (s.finished ==> r.logs == s.logs && r.finished && forall i :: 0 <= i < |rets| ==> rets[i])
      && (forall i, j :: 0 <= i < j < |rets| && !rets[i] ==> rets[j])
      && (r.logs == s.logs ==> forall i :: 0 <= i < |rets| ==> rets[i])
    decreases |inputs|
  {
    if inputs != [] {
      var s1 := TickEffect(s, inputs[0], text);
      var ret0 := TickReturn(s, inputs[0], text);
      TicksReportOnce(s1, inputs[1..], text);
      var (rest, r) := TickMany(s1, inputs[1..], text);
      var rets := TickMany(s, inputs, text).0;
      assert rets == [ret0] + rest;
      if s1.logs != s.logs {
        assert s1.finished;
        assert r.logs == s1.logs;
      }
      if !ret0 {
        assert s1.finished;
      }
      assert forall i :: 1 <= i < |rets| ==> rets[i] == rest[i - 1];
    }
  }

  /** Before any run, and after a failed one, no module is loaded: ticking it returns true and changes nothing. */
  lemma NoModuleTicksQuietly(s: RunState, input: TickInput, text: JsMarshal.JsVal -> string)
    requires !s.moduleLoaded
    ensures TickReturn(s, input, text) && TickEffect(s, input, text) == s
  {
  }

  /**
   * The entries `run` logs: a failed class setup stops the run after its one
   * Error (see README, Left out), otherwise a failed evaluation logs one Error.
   */
  function RunLogs(classCreated: Result<nat>, evaluated: Result<()>): (logs: seq<Log>)
    ensures |logs| == (if classCreated.Err? || evaluated.Err? then 1 else 0)
    ensures forall i :: 0 <= i < |logs| ==> logs[i].level == Error
    ensures classCreated.Err? ==> logs == [Log(Error, CLASS_SETUP_FAILED + classCreated.error)]
    ensures classCreated.Ok? && evaluated.Err? ==> logs == [Log(Error, evaluated.error)]
  {
    if classCreated.Err? then [Log(Error, CLASS_SETUP_FAILED + classCreated.error)]
    else if evaluated.Err? then [Log(Error, evaluated.error)]
    else []
  }

  /** `run` on a runnable script: logs cleared, unfinished, the failure logged, a module loaded iff the class was set up and evaluation succeeded. */
  function RunEffect(s: RunState, classCreated: Result<nat>, evaluated: Result<()>): RunState
  {
    LogAll(s.(logs := [], finished := false, moduleLoaded := false), RunLogs(classCreated, evaluated))
      .(moduleLoaded := classCreated.Ok? && evaluated.Ok?)
  }

  // ---------------------------------------------------------------------
  // The printed line

  /** The line `print` logs: its arguments' texts joined by single spaces. */
  function JoinWithSpaces(texts: seq<string>): (r: string)
    ensures texts == [] ==> r == ""
    ensures |texts| == 1 ==> r == texts[0]
  {
    if |texts| <= 1 then (if texts == [] then "" else texts[0])
    else JoinWithSpaces(texts[..|texts| - 1]) + " " + texts[|texts| - 1]
  }

  /** The index of the last ' ' in `s`, or -1. */
  function LastSpace(s: string): (k: int)
    ensures -1 <= k < |s|
    ensures k >= 0 ==> s[k] == ' '
    ensures forall j :: k < j < |s| ==> s[j] != ' '
  {
    if s == [] then -1 else if s[|s| - 1] == ' ' then |s| - 1 else LastSpace(s[..|s| - 1])
  }

  /** Splitting at every ' '. */
  function SplitSpaces(s: string): (r: seq<string>)
    decreases |s|
  {
    var k := LastSpace(s);
    if k < 0 then [s] else SplitSpaces(s[..k]) + [s[k + 1..]]
  }

  /** Texts without spaces can be read back from the printed line. */
  lemma {:induction false} PrintedLineSplits(texts: seq<string>)
    requires texts != []
    requires forall i :: 0 <= i < |texts| ==> ' ' !in texts[i]
    ensures SplitSpaces(JoinWithSpaces(texts)) == texts
    decreases |texts|
  {
    var n := |texts|;
    if n == 1 {
      assert LastSpace(texts[0]) == -1;
    } else {
      var init := texts[..n - 1];
      var prefix := JoinWithSpaces(init);
      var s := prefix + " " + texts[n - 1];
      assert JoinWithSpaces(texts) == s;
      assert forall j :: |prefix| < j < |s| ==> s[j] == texts[n - 1][j - |prefix| - 1];
      assert s[|prefix|] == ' ';
      assert LastSpace(s) == |prefix|;
      assert s[..|prefix|] == prefix;
      assert s[|prefix| + 1..] == texts[n - 1];
      PrintedLineSplits(init);
      assert init + [texts[n - 1]] == texts;
    }
  }

  // ---------------------------------------------------------------------
  // Script input items

  /** `ScriptInput::Type`. */
  datatype InputType = IntInput | NumberInput | StringInput

  /** A script input item; the description is optional. */
  datatype ScriptInput = ScriptInput(kind: InputType, name: string, description: Option<string>)

  const MISSING_TYPE := "Script input item is missing required property \"type\""
  const MISSING_NAME := "Script input item is missing required property \"name\""

  function InputTypeOf(s: string): Option<InputType>
  {
    if s == "int" then Some(IntInput)
    else if s == "number" then Some(NumberInput)
    else if s == "string" then Some(StringInput)
    else None
  }

  /** The error one entry of an item is refused with, if any. */
  function EntryError(key: string, value: string): Option<string>
  {
    if key == "type" then
      (if InputTypeOf(value).Some? then None else Some("Invalid type script input item type \"" + value + "\""))
    else if key == "name" || key == "description" then None
    else Some("Invalid script input item key \"" + key + "\"")
  }

  /** Entry `k` of the iteration order is the first refused one. */
  ghost predicate FirstBadEntryAt(entries: map<string, string>, order: seq<string>, k: int)
  {
    && 0 <= k < |order| && order[k] in entries
    && EntryError(order[k], entries[order[k]]).Some?
    && forall j :: 0 <= j < k ==> order[j] in entries && EntryError(order[j], entries[order[j]]).None?
  }

  /**
   * The `ScriptInput` validator over an object already converted to a
   * string-to-string map (an error there is tagged "(in script input item)").
   * `order` is the map's iteration order, which the hash map leaves
   * unspecified: with several bad entries, which one is reported depends on it.
   */
  method ValidateInput(parsed: Result<map<string, string>>, order: seq<string>) returns (r: Result<ScriptInput>)
    requires parsed.Ok? ==> forall k :: k in order <==> k in parsed.value
    requires forall i, j :: 0 <= i < j < |order| ==> order[i] != order[j]
    ensures parsed.Err? ==> r == Err(parsed.error + " (in script input item)")
    ensures parsed.Ok? && "type" !in parsed.value ==> r == Err(MISSING_TYPE)
    ensures parsed.Ok? && "type" in parsed.value && "name" !in parsed.value ==> r == Err(MISSING_NAME)
    ensures parsed.Ok? && "type" in parsed.value && "name" in parsed.value ==>
      var m := parsed.value;
      (r.Ok? <==> forall k :: k in order ==> EntryError(k, m[k]).None?)
      && (r.Ok? ==> r.value == ScriptInput(InputTypeOf(m["type"]).value, m["name"],
                                           if "description" in m then Some(m["description"]) else None))
      && (r.Err? ==> exists k :: FirstBadEntryAt(m, order, k) && r.error == EntryError(order[k], m[order[k]]).value)
  {
    if parsed.Err? {
      return Err(parsed.error + " (in script input item)");
    }
    var m := parsed.value;
    if "type" !in m {
      return Err(MISSING_TYPE);
    }
    if "name" !in m {
      return Err(MISSING_NAME);
    }
    var kind := IntInput;
    var name := "";
    var description: Option<string> := None;
    for i := 0 to |order|
      invariant forall j :: 0 <= j < i ==> order[j] in m && EntryError(order[j], m[order[j]]).None?
      invariant "type" in order[..i] ==> kind == InputTypeOf(m["type"]).value
      invariant "name" in order[..i] ==> name == m["name"]
      invariant "description" in order[..i] ==> description == Some(m["description"])
      invariant "description" !in order[..i] ==> description == None
    {
      var key := order[i];
      var value := m[key];
      assert order[..i + 1] == order[..i] + [key];
      if key == "type" {
        var t := InputTypeOf(value);
        if t.None? {
          assert FirstBadEntryAt(m, order, i);
          return Err("Invalid type script input item type \"" + value + "\"");
        }
        kind := t.value;
      } else if key == "name" {
        name := value;
      } else if key == "description" {
        description := Some(value);
      } else {
        assert FirstBadEntryAt(m, order, i);
        return Err("Invalid script input item key \"" + key + "\"");
      }
    }
    assert order[..|order|] == order;
    assert forall k :: k in order ==> EntryError(k, m[k]).None? by {
      forall k | k in order ensures EntryError(k, m[k]).None? {
        var j :| 0 <= j < |order| && order[j] == k;
      }
    }
    if "description" !in m {
      assert "description" !in order;
    }
    return Ok(ScriptInput(kind, name, description));
  }

  // ---------------------------------------------------------------------
  // Script files

  /** The index of the last `c` among the first `n` characters of `s`, or -1. */
  function LastIndexFrom(s: string, c: char, n: nat): (k: int)
    requires n <= |s|
    ensures -1 <= k < n
    decreases n
  {
    if n == 0 then -1 else if s[n - 1] == c then n - 1 else LastIndexFrom(s, c, n - 1)
  }

  /** LastIndexFrom finds a `c` with none after it. */
  lemma {:induction false} LastIndexFromFacts(s: string, c: char, n: nat)
    requires n <= |s|
    ensures LastIndexFrom(s, c, n) >= 0 ==> s[LastIndexFrom(s, c, n)] == c
    ensures forall j :: LastIndexFrom(s, c, n) < j < n ==> s[j] != c
    decreases n
  {
    if n > 0 && s[n - 1] != c {
      LastIndexFromFacts(s, c, n - 1);
    }
  }

  /** A directory separator of a Windows path: '/' or '\\'. */
  predicate IsSeparator(c: char)
  {
    c == '/' || c == '\\'
  }

  /** The index of the last separator among the first `n` characters of `s`, or -1. */
  function LastSeparatorFrom(s: string, n: nat): (k: int)
    requires n <= |s|
    ensures -1 <= k < n
    decreases n
  {
    if n == 0 then -1 else if IsSeparator(s[n - 1]) then n - 1 else LastSeparatorFrom(s, n - 1)
  }

  /** `std::filesystem::path::filename` on Windows: what follows the path's last '/' or '\\'. */
  function FileName(path: string): string
  {
    path[LastSeparatorFrom(path, |path|) + 1..]
  }

  /** The index of the last '.' in `s`, or -1. */
  function LastDot(s: string): int
  {
    LastIndexFrom(s, '.', |s|)
  }

  /**
   * `std::filesystem::path::extension` of a file name: from its last '.' to
   * the end, except that "." and ".." and names whose only '.' is their first
   * character have none.
   */
  function Extension(name: string): string
  {
    var k := LastDot(name);
    if name == "." || name == ".." || k <= 0 then "" else name[k..]
  }

  /**
   * An extension is empty or a proper suffix of the name that starts with
   * its only '.'.
   */
  lemma ExtensionIsLastDotSuffix(name: string)
    ensures var e := Extension(name);
      e == [] || (e[0] == '.' && 0 < |name| - |e| && e == name[|name| - |e|..] && '.' !in e[1..])
  {
    var k := LastDot(name);
    LastIndexFromFacts(name, '.', |name|);
    if !(name == "." || name == ".." || k <= 0) {
      var e := name[k..];
      assert forall j :: 1 <= j < |e| ==> e[j] != '.' by {
        forall j | 1 <= j < |e| ensures e[j] != '.' {
          assert e[j] == name[k + j];
        }
      }
    }
  }

  predicate IsScriptFile(path: string)
  {
    Extension(FileName(path)) == ".js" || Extension(FileName(path)) == ".mjs"
  }

  /** The file name of a path is what follows its last separator, whichever of '/' and '\\' it is. */
  lemma FileNameAfterSeparator(dir: string, sep: char, name: string)
    requires IsSeparator(sep)
    requires forall j :: 0 <= j < |name| ==> !IsSeparator(name[j])
    ensures FileName(dir + [sep] + name) == name
  {
    var path := dir + [sep] + name;
    SeparatorScan(path, |dir|, |path|);
    assert path[|dir| + 1..] == name;
  }

  /** Scanning back from `n` over characters that are not separators stops at the separator at `at`. */
  lemma {:induction false} SeparatorScan(path: string, at: nat, n: nat)
    requires at < n <= |path| && IsSeparator(path[at])
    requires forall j :: at < j < |path| ==> !IsSeparator(path[j])
    ensures LastSeparatorFrom(path, n) == at
    decreases n
  {
    if n - 1 != at {
      SeparatorScan(path, at, n - 1);
    }
  }

  /** A Windows path: `C:\scripts\a.js` names the file "a.js". */
  lemma BackslashPathFileName()
    ensures FileName("C:\\scripts\\a.js") == "a.js"
  {
    assert "C:\\scripts\\a.js" == "C:\\scripts" + ['\\'] + "a.js";
    FileNameAfterSeparator("C:\\scripts", '\\', "a.js");
  }

  /** A hidden file named ".js" has no extension, so it is not a script. */
  lemma HiddenJsIsNotScript()
    ensures !IsScriptFile("scripts/.js")
  {
    assert "scripts/.js" == "scripts" + ['/'] + ".js";
    FileNameAfterSeparator("scripts", '/', ".js");
    assert LastIndexFrom(".js", '.', 1) == 0;
    assert LastIndexFrom(".js", '.', 2) == 0;
    assert LastIndexFrom(".js", '.', 3) == 0;
  }

  /** "a.mjs" is a script. */
  lemma ModuleFileIsScript()
    ensures IsScriptFile("scripts/a.mjs")
  {
    assert "scripts/a.mjs" == "scripts" + ['/'] + "a.mjs";
    FileNameAfterSeparator("scripts", '/', "a.mjs");
    assert LastIndexFrom("a.mjs", '.', 2) == 1;
    assert LastIndexFrom("a.mjs", '.', 3) == 1;
    assert LastIndexFrom("a.mjs", '.', 4) == 1;
    assert LastIndexFrom("a.mjs", '.', 5) == 1;
    assert "a.mjs"[1..] == ".mjs";
  }

  /** The script files of one directory listing, in listing order. */
  function ScriptsIn(files: seq<string>): seq<string>
  {
    if files == [] then []
    else ScriptsIn(files[..|files| - 1]) + (if IsScriptFile(files[|files| - 1]) then [files[|files| - 1]] else [])
  }

  lemma ScriptsInStep(files: seq<string>, f: nat)
    requires f < |files|
    ensures ScriptsIn(files[..f + 1]) == ScriptsIn(files[..f]) + if IsScriptFile(files[f]) then [files[f]] else []
  {
    assert files[..f + 1][..f] == files[..f];
  }

  /** Exactly the listed files with a ".js" or ".mjs" extension are loaded. */
  lemma {:induction false} ScriptsInSelects(files: seq<string>)
    ensures forall i :: 0 <= i < |ScriptsIn(files)| ==> IsScriptFile(ScriptsIn(files)[i]) && ScriptsIn(files)[i] in files
    ensures forall f :: f in files && IsScriptFile(f) ==> f in ScriptsIn(files)
    decreases |files|
  {
    if files != [] {
      var init := files[..|files| - 1];
      ScriptsInSelects(init);
      assert files == init + [files[|files| - 1]];
    }
  }

  /** The script paths of the listed directories, in order; a directory that cannot be listed contributes nothing. */
  function ScriptFiles(listings: seq<Option<seq<string>>>): seq<string>
  {
    if listings == [] then []
    else
      var last := listings[|listings| - 1];
      ScriptFiles(listings[..|listings| - 1]) + (if last.Some? then ScriptsIn(last.value) else [])
  }

  // ---------------------------------------------------------------------
  // The script object

  class JsScript {
    const path: string
    var data: string
    var title: string
    var author: string
    var version: Version
    var logs: seq<Log>
    var queuedLogEvent: bool
    var runnable: bool
    var finished: bool
    /** Notifications queued on the main thread so far. */
    var scheduledEvents: nat
    /** Whether the module handle holds an evaluated module; the null module has no context. */
    var moduleLoaded: bool

    /** The member defaults: no queued event, runnable, finished, null runtime, context and module. */
    constructor (path: string)
      ensures this.path == path && data == "" && logs == []
      ensures !queuedLogEvent && runnable && finished && !moduleLoaded && scheduledEvents == 0
    {
      this.path := path;
      data := "";
      title := "";
      author := "";
      version := Version(0, 0, 0);
      logs := [];
      queuedLogEvent := false;
      runnable := true;
      finished := true;
      scheduledEvents := 0;
      moduleLoaded := false;
    }

    function Header(): Meta
      reads this
    {
      Meta(title, author, version, logs, runnable)
    }

    function Lifecycle(): RunState
      reads this
    {
      RunState(logs, queuedLogEvent, scheduledEvents, finished, moduleLoaded)
    }

    /** What running and ticking never change: the header's fields, the runnable flag and the script text. */
    function Metadata(): (string, string, Version, bool, string)
      reads this
    {
      (title, author, version, runnable, data)
    }

    /** `log`. */
    method LogMessage(level: Level, message: string)
      modifies this
      ensures Lifecycle() == Logged(old(Lifecycle()), Log(level, message))
      ensures title == old(title) && author == old(author) && version == old(version)
      ensures runnable == old(runnable) && data == old(data)
    {
      logs := logs + [Log(level, message)];
      if !queuedLogEvent {
        queuedLogEvent := true;
        scheduledEvents := scheduledEvents + 1;
      }
    }

    /** The queued main-thread callback, run while the script is still alive: clears the flag and posts the event. */
    method DeliverLogEvent()
      modifies this
      ensures !queuedLogEvent
      ensures logs == old(logs) && scheduledEvents == old(scheduledEvents) && finished == old(finished)
      ensures moduleLoaded == old(moduleLoaded) && runnable == old(runnable)
    {
      queuedLogEvent := false;
    }

    /** `getLastRunSeverity`: the most severe level logged, Status when there is none. */
    method LastRunSeverity() returns (highest: Level)
      ensures forall i :: 0 <= i < |logs| ==> Rank(logs[i].level) <= Rank(highest)
      ensures highest == Status || exists i :: 0 <= i < |logs| && logs[i].level == highest
    {
      highest := Status;
      for i := 0 to |logs|
        invariant forall j :: 0 <= j < i ==> Rank(logs[j].level) <= Rank(highest)
        invariant highest == Status || exists j :: 0 <= j < i && logs[j].level == highest
      {
        if Rank(logs[i].level) > Rank(highest) {
          highest := logs[i].level;
        }
      }
    }

    /** The header loop of `JsScript::create`: every line read, every directive applied in order. */
    method ScanLines(lines: seq<string>, parseVersion: string -> Result<Version>)
      requires queuedLogEvent
      modifies this
      ensures Header() == ScanHeader(lines, old(Header()), parseVersion)
      ensures queuedLogEvent && scheduledEvents == old(scheduledEvents) && data == old(data)
      ensures finished == old(finished) && moduleLoaded == old(moduleLoaded)
    {
      ghost var start := Header();
      for i := 0 to |lines|
        invariant Header() == ScanHeader(lines[..i], start, parseVersion)
        invariant queuedLogEvent && scheduledEvents == old(scheduledEvents) && data == old(data)
        invariant finished == old(finished) && moduleLoaded == old(moduleLoaded)
      {
        assert lines[..i + 1][..i] == lines[..i];
        var d := ScanDirective(lines[i]);
        if d.Some? {
          ApplyTag(d.value, parseVersion);
        }
      }
      assert lines[..|lines|] == lines;
    }

    /** One header directive, applied to the script while it is being created. */
    method ApplyTag(d: Directive, parseVersion: string -> Result<Version>)
      requires queuedLogEvent
      modifies this
      ensures Header() == ApplyDirective(old(Header()), d, parseVersion)
      ensures queuedLogEvent && scheduledEvents == old(scheduledEvents) && data == old(data)
      ensures finished == old(finished) && moduleLoaded == old(moduleLoaded)
    {
      ghost var m := Header();
      if d.tag == "name" {
        title := Trim(d.rest.UnwrapOr(title));
        if title == [] {
          LogMessage(Error, "Script metadata `@name` requires a value");
          runnable := false;
        }
        assert Header() == ApplyDirective(m, d, parseVersion);
      } else if d.tag == "by" {
        author := Trim(d.rest.UnwrapOr(author));
        if author == [] {
          LogMessage(Error, "Script metadata `@by` requires a value");
          runnable := false;
        }
        assert Header() == ApplyDirective(m, d, parseVersion);
      } else if d.tag == "version" {
        var parsed := parseVersion(Trim(d.rest.UnwrapOr("")));
        if parsed.Ok? {
          version := parsed.value;
        } else {
          LogMessage(Error, "Script metadata `@version` has invalid value: " + parsed.error);
          runnable := false;
        }
        assert Header() == ApplyDirective(m, d, parseVersion);
      } else {
        LogMessage(Error, "Invalid metadata tag '" + d.tag + "'");
        runnable := false;
        assert Header() == Fail(m, "Invalid metadata tag '" + d.tag + "'");
      }
    }

    /**
     * `run`: a script that is not runnable is left alone. Otherwise the logs
     * are cleared, the script is unfinished, the previous module is dropped;
     * a failed GameObject class setup is logged and ends the run, and
     * otherwise it ends with a module loaded exactly when evaluation succeeded.
     */
    method Run(classCreated: Result<nat>, evaluated: Result<()>) returns (ok: bool)
      modifies this
      ensures !old(runnable) ==> !ok && Lifecycle() == old(Lifecycle())
      ensures old(runnable) ==> (ok <==> classCreated.Ok? && evaluated.Ok?)
      ensures old(runnable) ==> Lifecycle() == RunEffect(old(Lifecycle()), classCreated, evaluated)
      ensures title == old(title) && author == old(author) && version == old(version)
      ensures runnable == old(runnable) && data == old(data)
    {
      if !runnable {
        return false;
      }
      logs := [];
      finished := false;
      moduleLoaded := false;
      ghost var start := Lifecycle();
      assert start == old(Lifecycle()).(logs := [], finished := false, moduleLoaded := false);
      if classCreated.Err? {
        LogMessage(Error, CLASS_SETUP_FAILED + classCreated.error);
        assert Lifecycle() == LogAll(start, RunLogs(classCreated, evaluated));
        return false;
      }
      if evaluated.Err? {
        LogMessage(Error, evaluated.error);
        assert Lifecycle() == LogAll(start, RunLogs(classCreated, evaluated));
        return false;
      }
      assert RunLogs(classCreated, evaluated) == [];
      moduleLoaded := true;
      return true;
    }

    /** `tick`, with the engine's state for the module's promise and next job. */
    method Tick(input: TickInput, text: JsMarshal.JsVal -> string) returns (ret: bool)
      modifies this
      ensures ret == TickReturn(old(Lifecycle()), input, text)
      ensures Lifecycle() == TickEffect(old(Lifecycle()), input, text)
      ensures title == old(title) && author == old(author) && version == old(version)
      ensures runnable == old(runnable) && data == old(data)
    {
      if finished {
        return true;
      }
      var res := QjsHandles.Tick(moduleLoaded, input.state, input.job);
      if res.Err? {
        finished := true;
        LogMessage(Error, res.error);
        return false;
      }
      if res.value.Some? {
        finished := true;
        LogMessage(Status, FINISHED + text(res.value.value));
      }
      return true;
    }

    /** The `print` global: the arguments' texts joined by spaces, logged as Info. */
    method Print(texts: seq<string>)
      modifies this
      ensures Lifecycle() == Logged(old(Lifecycle()), Log(Info, JoinWithSpaces(texts)))
      ensures title == old(title) && author == old(author) && version == old(version)
      ensures runnable == old(runnable) && data == old(data)
    {
      var line := "";
      for i := 0 to |texts|
        invariant line == JoinWithSpaces(texts[..i])
      {
        if i > 0 {
          line := line + " ";
        }
        line := line + texts[i];
        assert texts[..i + 1][..i] == texts[..i];
      }
      assert texts[..|texts|] == texts;
      LogMessage(Info, line);
    }
  }

  /**
   * `JsScript::create`: reads the header with the notification flag held so
   * that no notification is scheduled, then releases the flag.
   */
  method Create(path: string, contents: Result<string>, parseVersion: string -> Result<Version>) returns (s: JsScript)
    ensures fresh(s) && s.path == path
    ensures HoldsCreated(s, contents, parseVersion)
    ensures s.data == (if contents.Ok? then contents.value else "")
    ensures !s.queuedLogEvent && s.scheduledEvents == 0 && s.finished && !s.moduleLoaded
  {
    s := new JsScript(path);
    s.queuedLogEvent := true;
    if contents.Ok? {
      s.data := contents.value;
    } else {
      s.LogMessage(Error, contents.error);
      s.runnable := false;
    }
    s.title := FileName(path);
    s.author := DEFAULT_AUTHOR;
    s.version := DEFAULT_VERSION;
    assert s.Header() == Initial(FileName(path), contents);
    s.ScanLines(SplitLines(s.data), parseVersion);
    if s.runnable {
      s.LogMessage(Status, READY);
    }
    s.queuedLogEvent := false;
  }

  /** The per-line scan: the slashes, any whitespace, the '@', then the alphanumeric tag. */
  method ScanDirective(line: string) returns (d: Option<Directive>)
    ensures d == ParseDirective(line)
  {
    if |line| < 3 || line[..3] != "///" {
      return None;
    }
    var at := 3;
    while at < |line| && IsSpace(line[at])
      invariant 3 <= at <= |line|
      invariant SkipSpaces(line, 3) == SkipSpaces(line, at)
    {
      at := at + 1;
    }
    if at == |line| || line[at] != '@' {
      return None;
    }
    var end := at + 1;
    while end < |line| && IsAlnum(line[end])
      invariant at + 1 <= end <= |line|
      invariant AlnumEnd(line, at + 1) == AlnumEnd(line, end)
    {
      end := end + 1;
    }
    var rest := if end == |line| then None else Some(line[end..]);
    return Some(Directive(line[at + 1..end], rest));
  }

  // ---------------------------------------------------------------------
  // The manager

  /** `success &= !tick()` over the returns of every tick, none skipped. */
  function TickAllResult(rets: seq<bool>): (success: bool)
    ensures success <==> forall i :: 0 <= i < |rets| ==> !rets[i]
  {
    if rets == [] then true else TickAllResult(rets[..|rets| - 1]) && !rets[|rets| - 1]
  }

  /** As written, one healthy script (its tick returned true) makes the aggregate false. */
  lemma HealthyTickReportsFailure()
    ensures !TickAllResult([true]) && TickAllResult([false, false])
  {
  }

  /** The aggregate its name suggests: true exactly when no tick reported an error. */
  function TickAllIntended(rets: seq<bool>): (success: bool)
    ensures success <==> forall i :: 0 <= i < |rets| ==> rets[i]
  {
    if rets == [] then true else TickAllIntended(rets[..|rets| - 1]) && rets[|rets| - 1]
  }

  /** With the intended aggregate, healthy scripts report success and an error reports failure. */
  lemma TickAllIntendedReportsErrors(s: RunState, inputs: seq<TickInput>, text: JsMarshal.JsVal -> string)
    requires inputs != []
    ensures TickAllIntended([TickReturn(s, inputs[0], text)]) <==>
      (s.finished || QjsHandles.Tick(s.moduleLoaded, inputs[0].state, inputs[0].job).Ok?)
  {
  }

  /** The script's metadata and creation logs are those `create` decides for its file's contents. */
  ghost predicate HoldsCreated(s: JsScript, contents: Result<string>, parseVersion: string -> Result<Version>)
    reads s
  {
    s.Header() == Created(FileName(s.path), contents, parseVersion)
  }

  /** The scripts are the ones created from `paths`, in order. */
  ghost predicate CreatedFrom(ss: seq<JsScript>, paths: seq<string>, read: string -> Result<string>,
                              parseVersion: string -> Result<Version>)
    reads ss
  {
    && |ss| == |paths|
    && forall i :: 0 <= i < |ss| ==>
      ss[i].path == paths[i] && HoldsCreated(ss[i], read(paths[i]), parseVersion)
  }

  lemma CreatedFromAppend(ss: seq<JsScript>, paths: seq<string>, s: JsScript, read: string -> Result<string>,
                          parseVersion: string -> Result<Version>)
    requires CreatedFrom(ss, paths, read, parseVersion) && HoldsCreated(s, read(s.path), parseVersion)
    ensures CreatedFrom(ss + [s], paths + [s.path], read, parseVersion)
  {
    var ss' := ss + [s];
    var paths' := paths + [s.path];
    forall i | 0 <= i < |ss'|
      ensures ss'[i].path == paths'[i] && HoldsCreated(ss'[i], read(paths'[i]), parseVersion)
    {
      if i < |ss| {
        assert ss'[i] == ss[i] && paths'[i] == paths[i];
      }
    }
  }

  /**
   * The inner loop of `reloadScripts`: one directory's script files, each
   * created in listing order, as the scripts it appends.
   */
  method LoadDirectory(files: seq<string>, read: string -> Result<string>, parseVersion: string -> Result<Version>)
    returns (added: seq<JsScript>)
    ensures CreatedFrom(added, ScriptsIn(files), read, parseVersion)
    ensures forall i :: 0 <= i < |added| ==> fresh(added[i])
    ensures forall i, j :: 0 <= i < j < |added| ==> added[i] != added[j]
  {
    added := [];
    for f := 0 to |files|
      invariant CreatedFrom(added, ScriptsIn(files[..f]), read, parseVersion)
      invariant forall i :: 0 <= i < |added| ==> fresh(added[i])
      invariant forall i, j :: 0 <= i < j < |added| ==> added[i] != added[j]
    {
      ScriptsInStep(files, f);
      if IsScriptFile(files[f]) {
        var s := CreateNext(files[f], added, ScriptsIn(files[..f]), read, parseVersion);
        assert forall i :: 0 <= i < |added| ==> added[i] != s;
        added := added + [s];
      } else {
        assert ScriptsIn(files[..f + 1]) == ScriptsIn(files[..f]);
      }
    }
    assert files[..|files|] == files;
  }

  /** Two lists of distinct scripts with none in common make one list of distinct scripts. */
  lemma DistinctConcat(a: seq<JsScript>, b: seq<JsScript>)
    requires forall i, j :: 0 <= i < j < |a| ==> a[i] != a[j]
    requires forall i, j :: 0 <= i < j < |b| ==> b[i] != b[j]
    requires forall i, j :: 0 <= i < |a| && 0 <= j < |b| ==> a[i] != b[j]
    ensures forall i, j :: 0 <= i < j < |a + b| ==> (a + b)[i] != (a + b)[j]
  {
  }

  /** The script for `path`, created after `ss` and fit to follow them. */
  method CreateNext(path: string, ghost ss: seq<JsScript>, ghost paths: seq<string>, read: string -> Result<string>,
                    parseVersion: string -> Result<Version>) returns (s: JsScript)
    requires CreatedFrom(ss, paths, read, parseVersion)
    ensures fresh(s) && s.path == path
    ensures CreatedFrom(ss + [s], paths + [path], read, parseVersion)
  {
    s := Create(path, read(path), parseVersion);
    CreatedFromAppend(ss, paths, s, read, parseVersion);
  }

  lemma CreatedFromConcat(ss: seq<JsScript>, paths: seq<string>, more: seq<JsScript>, morePaths: seq<string>,
                          read: string -> Result<string>, parseVersion: string -> Result<Version>)
    requires CreatedFrom(ss, paths, read, parseVersion) && CreatedFrom(more, morePaths, read, parseVersion)
    ensures CreatedFrom(ss + more, paths + morePaths, read, parseVersion)
  {
    var all, allPaths := ss + more, paths + morePaths;
    forall i | 0 <= i < |all|
      ensures all[i].path == allPaths[i] && HoldsCreated(all[i], read(allPaths[i]), parseVersion)
    {
      if i < |ss| {
        assert all[i] == ss[i] && allPaths[i] == paths[i];
      } else {
        assert all[i] == more[i - |ss|] && allPaths[i] == morePaths[i - |ss|];
      }
    }
  }

  class ScriptManager {
    var scripts: seq<JsScript>

    constructor ()
      ensures scripts == []
    {
      scripts := [];
    }

    /** Each script is held once. */
    predicate Valid()
      reads this
    {
      forall i, j :: 0 <= i < j < |scripts| ==> scripts[i] != scripts[j]
    }

    /**
     * `reloadScripts`: the scripts of the listed directories, in listing
     * order, each created from its file's contents.
     */
    method ReloadScripts(listings: seq<Option<seq<string>>>, read: string -> Result<string>,
                         parseVersion: string -> Result<Version>)
      modifies this
      ensures Valid() && CreatedFrom(scripts, ScriptFiles(listings), read, parseVersion)
      ensures forall i :: 0 <= i < |scripts| ==> fresh(scripts[i])
    {
      scripts := [];
      for d := 0 to |listings|
        invariant Valid() && CreatedFrom(scripts, ScriptFiles(listings[..d]), read, parseVersion)
        invariant forall i :: 0 <= i < |scripts| ==> fresh(scripts[i])
      {
        assert listings[..d + 1][..d] == listings[..d];
        if listings[d].Some? {
          var added := LoadDirectory(listings[d].value, read, parseVersion);
          CreatedFromConcat(scripts, ScriptFiles(listings[..d]), added, ScriptsIn(listings[d].value), read, parseVersion);
          assert forall i, j :: 0 <= i < |scripts| && 0 <= j < |added| ==> scripts[i] != added[j];
          DistinctConcat(scripts, added);
          scripts := scripts + added;
        }
      }
      assert listings[..|listings|] == listings;
    }
    /**
     * `tickAll`: every script is ticked, in order, none skipped, and the
     * result is true exactly when every tick returned false.
     */
    /** One step of `tickAll`: tick the script at `index`; every other script keeps its state, and none changes its metadata. */
    method TickOne(index: nat, input: TickInput, text: JsMarshal.JsVal -> string) returns (ret: bool)
      requires Valid() && index < |scripts|
      modifies scripts[index]
      ensures ret == TickReturn(old(scripts[index].Lifecycle()), input, text)
      ensures scripts[index].Lifecycle() == TickEffect(old(scripts[index].Lifecycle()), input, text)
      ensures forall k :: 0 <= k < |scripts| && k != index ==> scripts[k].Lifecycle() == old(scripts[k].Lifecycle())
      ensures forall k :: 0 <= k < |scripts| ==> scripts[k].Metadata() == old(scripts[k].Metadata())
    {
      ret := scripts[index].Tick(input, text);
      forall k | 0 <= k < |scripts| && k != index
        ensures scripts[k] != scripts[index]
      {
        if k < index {
          assert scripts[k] != scripts[index];
        }
      }
    }

    method TickAll(inputs: seq<TickInput>, text: JsMarshal.JsVal -> string) returns (success: bool)
      requires Valid() && |inputs| == |scripts|
      modifies set i | 0 <= i < |scripts| :: scripts[i]
      ensures success <==> forall i :: 0 <= i < |scripts| ==> !TickReturn(old(scripts[i].Lifecycle()), inputs[i], text)
      ensures forall i :: 0 <= i < |scripts| ==>
        scripts[i].Lifecycle() == TickEffect(old(scripts[i].Lifecycle()), inputs[i], text)
      ensures forall i :: 0 <= i < |scripts| ==> scripts[i].Metadata() == old(scripts[i].Metadata())
    {
      success := true;
      for i := 0 to |scripts|
        invariant success <==> forall k :: 0 <= k < i ==> !TickReturn(old(scripts[k].Lifecycle()), inputs[k], text)
        invariant forall k :: 0 <= k < i ==> scripts[k].Lifecycle() == TickEffect(old(scripts[k].Lifecycle()), inputs[k], text)
        invariant forall k :: i <= k < |scripts| ==> scripts[k].Lifecycle() == old(scripts[k].Lifecycle())
        invariant forall k :: 0 <= k < |scripts| ==> scripts[k].Metadata() == old(scripts[k].Metadata())
      {
        var r := TickOne(i, inputs[i], text);
        success := success && !r;
      }
    }
  }
}
