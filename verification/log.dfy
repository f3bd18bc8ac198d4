/** The logger of `Log`: process-wide display flags and an optional log
    file, a per-instance call site captured when the instance is built, and
    one leveled call per severity that renders fixed-layout lines to
    standard output, standard error and the file.

    The static configuration is an explicit `LogState`; every call is a pure
    step from one state to the next that also returns the text it wrote to
    each sink. Locking is not modelled: each call is one atomic step. */
module Log {

  import opened Optional
  import UString
  import Decimal
  import Slices

  // ---------------------------------------------------------------------
  // Tags and colour codes

  datatype Level = Debug | Info | Warning | Error

  /** The category tag printed in front of every line of a level. */
  function Tag(level: Level): (r: string)
    ensures |r| == 12
    ensures r[0] == '[' && r[10] == ']' && r[11] == ' '
  {
    match level
    case Debug => "[  DEBUG  ] "
    case Info => "[  INFO   ] "
    case Warning => "[ WARNING ] "
    case Error => "[  ERROR  ] "
  }

  /** Every level has its own tag. */
  lemma TagInjective(a: Level, b: Level)
    ensures Tag(a) == Tag(b) <==> a == b
  {
  }

  datatype Colour = Red | Green | Yellow | Blue | Cyan | Magenta | Reset

  const Esc: char := '\U{1B}'

  /** A Select Graphic Rendition control sequence (section 8.3.117 of
      ECMA-48): ESC, `[`, parameters made of digits and `;`, then `m`. */
  predicate IsSgr(s: string) {
    && |s| >= 3
    && s[0] == Esc && s[1] == '['
    && s[|s| - 1] == 'm'
    && forall i :: 2 <= i < |s| - 1 ==> Decimal.IsDigit(s[i]) || s[i] == ';'
  }

  /** The terminal colour code of each colour helper. */
  function Code(c: Colour): (r: string)
    ensures IsSgr(r)
  {
    match c
    case Red => "\U{1B}[0;31m"
    case Green => "\U{1B}[1;32m"
    case Yellow => "\U{1B}[1;33m"
    case Blue => "\U{1B}[1;34m"
    case Cyan => "\U{1B}[0;36m"
    case Magenta => "\U{1B}[0;35m"
    case Reset => "\U{1B}[0m"
  }

  /** Every colour has its own code. */
  lemma CodeInjective(a: Colour, b: Colour)
    ensures Code(a) == Code(b) <==> a == b
  {
  }

  // ---------------------------------------------------------------------
  // State

  /** The file name and line of the code that built a logger. */
  datatype SourceLocation = SourceLocation(fileName: string, line: nat)

  /** A logger instance: only the call site captured when it was built. */
  datatype Logger = Logger(source: SourceLocation)

  /** The static configuration. `file` is `None` while no log file stream is
      open, and otherwise holds the text written since it was opened. */
  datatype LogState = LogState(showInfo: bool, showWarn: bool, file: Option<string>)

  /** The result of one call: the next state and what it wrote to standard
      output, to standard error and to the file. */
  datatype Step = Step(state: LogState, stdout: string, stderr: string, fileOut: string)

  /** Both display flags start false, and no file is open. */
  const InitialState := LogState(false, false, None)

  // ---------------------------------------------------------------------
  // Line layout

  /** `file_name():line()`. */
  function Site(loc: SourceLocation): string {
    loc.fileName + ":" + Decimal.Render(loc.line)
  }

  /** The line written to the file: no colour codes. */
  function FileLine(level: Level, loc: SourceLocation, message: string): string {
    Tag(level) + Site(loc) + " > " + message + "\n"
  }

  /** First console line of an info, warning or error record. */
  function ConsoleHeader(colour: Colour, level: Level, loc: SourceLocation): string {
    Code(colour) + Tag(level) + Code(Blue) + Site(loc)
  }

  /** Second console line of an info, warning or error record. */
  function ConsoleBody(message: string): string {
    Code(Reset) + " > " + message
  }

  function ConsoleRecord(colour: Colour, level: Level, loc: SourceLocation, message: string): string {
    ConsoleHeader(colour, level, loc) + "\n" + ConsoleBody(message) + "\n"
  }

  /** The one console line of a debug record; it carries no call site. */
  function DebugRecord(message: string): string {
    Code(Cyan) + Tag(Debug) + Code(Reset) + " > " + message + "\n"
  }

  /** What writing `text` to the file stream does: appended when the stream
      is open, lost when it is not. */
  function WriteFile(file: Option<string>, text: string): (r: (Option<string>, string))
    ensures r.0.Some? <==> file.Some?
    ensures file.Some? ==> r.0.value == file.value + text && r.1 == text
    ensures file.None? ==> r.1 == ""
  {
    match file
    case None => (None, "")
    case Some(t) => (Some(t + text), text)
  }

  // ---------------------------------------------------------------------
  // Operations

  /** `Log::init`. A non-empty path replaces the file stream with one opened
      in truncate mode; `openOk` says whether that open succeeded. The flag
      arguments are ignored: both flags are assigned to themselves. */
  function Init(s: LogState, filePath: string, showInfo: bool, showWarn: bool, openOk: bool): (r: LogState)
    ensures r.showInfo == s.showInfo && r.showWarn == s.showWarn
    ensures filePath == "" ==> r.file == s.file
    ensures filePath != "" && openOk ==> r.file == Some("")
    ensures filePath != "" && !openOk ==> r.file == None
  {
    var file := if filePath != "" then (if openOk then Some("") else None) else s.file;
    LogState(s.showInfo, s.showWarn, file)
  }

  /** `Log::debug`: one line to standard output, only in a build with
      `DEBUG` defined; never the file, never standard error, whatever the
      flags. */
  function LogDebug(s: LogState, logger: Logger, message: string, debugBuild: bool): (r: Step)
    ensures r.state == s && r.stderr == "" && r.fileOut == ""
    ensures r.stdout != "" <==> debugBuild
    ensures debugBuild ==> r.stdout == DebugRecord(message)
  {
    Step(s, if debugBuild then DebugRecord(message) else "", "", "")
  }

  /** `Log::info`: one line to the file when it is open, whatever the flags;
      a two-line record to standard output exactly when `showInfo` is set. */
  function LogInfo(s: LogState, logger: Logger, message: string): (r: Step)
    ensures r.state.showInfo == s.showInfo && r.state.showWarn == s.showWarn
    ensures r.state.file.Some? <==> s.file.Some?
    ensures s.file.Some? ==> r.fileOut == FileLine(Info, logger.source, message)
                             && r.state.file.value == s.file.value + r.fileOut
    ensures s.file.None? ==> r.fileOut == ""
    ensures r.stdout != "" <==> s.showInfo
    ensures s.showInfo ==> r.stdout == ConsoleRecord(Cyan, Info, logger.source, message)
    ensures r.stderr == ""
  {
    var (file, written) := WriteFile(s.file, FileLine(Info, logger.source, message));
    var out := if s.showInfo then ConsoleRecord(Cyan, Info, logger.source, message) else "";
    Step(s.(file := file), out, "", written)
  }

  /** `Log::warn`: as `info`, with the warning tag in yellow and gated by
      `showWarn`. */
  function LogWarn(s: LogState, logger: Logger, message: string): (r: Step)
    ensures r.state.showInfo == s.showInfo && r.state.showWarn == s.showWarn
    ensures r.state.file.Some? <==> s.file.Some?
    ensures s.file.Some? ==> r.fileOut == FileLine(Warning, logger.source, message)
                             && r.state.file.value == s.file.value + r.fileOut
    ensures s.file.None? ==> r.fileOut == ""
    ensures r.stdout != "" <==> s.showWarn
    ensures s.showWarn ==> r.stdout == ConsoleRecord(Yellow, Warning, logger.source, message)
    ensures r.stderr == ""
  {
    var (file, written) := WriteFile(s.file, FileLine(Warning, logger.source, message));
    var out := if s.showWarn then ConsoleRecord(Yellow, Warning, logger.source, message) else "";
    Step(s.(file := file), out, "", written)
  }

  /** `Log::error`: one line to the file when it is open, and always a red
      two-line record to standard error, never to standard output. */
  function LogError(s: LogState, logger: Logger, message: string): (r: Step)
    ensures r.state.showInfo == s.showInfo && r.state.showWarn == s.showWarn
    ensures r.state.file.Some? <==> s.file.Some?
    ensures s.file.Some? ==> r.fileOut == FileLine(Error, logger.source, message)
                             && r.state.file.value == s.file.value + r.fileOut
    ensures s.file.None? ==> r.fileOut == ""
    ensures r.stdout == ""
    ensures r.stderr == ConsoleRecord(Red, Error, logger.source, message)
  {
    var (file, written) := WriteFile(s.file, FileLine(Error, logger.source, message));
    Step(s.(file := file), "", ConsoleRecord(Red, Error, logger.source, message), written)
  }

  // The templated overloads: format the template with the arguments, then
  // make the plain call with the result. There is no overload for zero
  // arguments. Each contract names the message through the reference
  // definitions: a template without placeholder is logged verbatim whatever
  // the arguments, and otherwise the message is every argument after the
  // same prefix, joined without separator.

  function LogDebugFormat(s: LogState, logger: Logger, template: string, args: seq<string>, debugBuild: bool): (r: Step)
    requires |args| >= 1
    ensures var message := if UString.HasPlaceholder(template)
                           then UString.Join(UString.Prefixed(UString.Prefix(template), args))
                           else template;
            r == LogDebug(s, logger, message, debugBuild)
  {
    LogDebug(s, logger, UString.Format(template, args), debugBuild)
  }

  function LogInfoFormat(s: LogState, logger: Logger, template: string, args: seq<string>): (r: Step)
    requires |args| >= 1
    ensures var message := if UString.HasPlaceholder(template)
                           then UString.Join(UString.Prefixed(UString.Prefix(template), args))
                           else template;
            r == LogInfo(s, logger, message)
  {
    LogInfo(s, logger, UString.Format(template, args))
  }

  function LogWarnFormat(s: LogState, logger: Logger, template: string, args: seq<string>): (r: Step)
    requires |args| >= 1
    ensures var message := if UString.HasPlaceholder(template)
                           then UString.Join(UString.Prefixed(UString.Prefix(template), args))
                           else template;
            r == LogWarn(s, logger, message)
  {
    LogWarn(s, logger, UString.Format(template, args))
  }

  function LogErrorFormat(s: LogState, logger: Logger, template: string, args: seq<string>): (r: Step)
    requires |args| >= 1
    ensures var message := if UString.HasPlaceholder(template)
                           then UString.Join(UString.Prefixed(UString.Prefix(template), args))
                           else template;
            r == LogError(s, logger, message)
  {
    LogError(s, logger, UString.Format(template, args))
  }

  // ---------------------------------------------------------------------
  // Line properties

  /** The file line is exactly one line and carries no colour code, as long
      as the file name and the message carry neither. */
  lemma FileLineShape(level: Level, loc: SourceLocation, message: string)
    requires '\n' !in loc.fileName && '\n' !in message
    requires Esc !in loc.fileName && Esc !in message
    ensures var line := FileLine(level, loc, message);
            |line| >= 1 && line[|line| - 1] == '\n' &&
            '\n' !in line[..|line| - 1] && Esc !in line
  {
    var line := FileLine(level, loc, message);
    var body := Tag(level) + Site(loc) + " > " + message;
    assert line == body + "\n";
    assert line[..|line| - 1] == body;
    DigitsPlain(Decimal.Render(loc.line));
    TagPlain(level);
  }

  /** The message reaches the file unescaped, right before the final
      newline: a newline inside it splits the file line, and an escape
      sequence inside it is written to the file as is. */
  lemma FileLineCarriesMessage(level: Level, loc: SourceLocation, message: string)
    ensures var line := FileLine(level, loc, message);
            |message| + 1 <= |line| &&
            line[|line| - 1 - |message|..|line| - 1] == message
  {
    var head := Tag(level) + Site(loc) + " > ";
    assert FileLine(level, loc, message) == head + message + "\n";
    Slices.SliceMiddle(head, message, "\n");
  }

  /** A console record of info, warning or error is exactly two lines: the
      only newlines are the one ending the header (the coloured tag and call
      site) and the one ending the body (the reset code and the message). */
  lemma ConsoleRecordShape(colour: Colour, level: Level, loc: SourceLocation, message: string)
    requires '\n' !in loc.fileName && '\n' !in message
    ensures var header := ConsoleHeader(colour, level, loc);
            var r := ConsoleRecord(colour, level, loc, message);
            && |header| + 1 < |r|
            && (forall i :: 0 <= i < |r| ==> (r[i] == '\n' <==> i == |header| || i == |r| - 1))
    ensures ConsoleHeader(colour, level, loc)[..|Code(colour)|] == Code(colour)
    ensures ConsoleBody(message)[..|Code(Reset)|] == Code(Reset)
  {
    DigitsPlain(Decimal.Render(loc.line));
    TagPlain(level);
    CodePlain(colour);
    CodePlain(Blue);
    CodePlain(Reset);
    var header := ConsoleHeader(colour, level, loc);
    var body := ConsoleBody(message);
    var r := ConsoleRecord(colour, level, loc, message);
    assert '\n' !in header && '\n' !in body;
    assert r == header + "\n" + body + "\n";
    forall i | 0 <= i < |r|
      ensures r[i] == '\n' <==> i == |header| || i == |r| - 1
    {
      if i < |header| {
        assert r[i] == header[i];
      } else if |header| < i < |r| - 1 {
        assert r[i] == body[i - |header| - 1];
      }
    }
  }

  lemma DigitsPlain(s: string)
    requires Decimal.IsDigits(s)
    ensures '\n' !in s && Esc !in s
  {

  }

  lemma TagPlain(level: Level)
    ensures '\n' !in Tag(level) && Esc !in Tag(level)
  {
  }

  lemma CodePlain(c: Colour)
    ensures '\n' !in Code(c)
  {
  }

  /** `line` shows the call site `loc` right after the 12-character tag: the
      file name, a colon and a line number that reads back as `loc.line`. */
  predicate ShowsSite(line: string, loc: SourceLocation) {
    var digits := Decimal.Render(loc.line);
    var n := |loc.fileName|;
    && 13 + n + |digits| <= |line|
    && line[12..12 + n] == loc.fileName
    && line[12 + n] == ':'
    && line[13 + n..13 + n + |digits|] == digits
    && Decimal.Value(digits) == loc.line
  }

  /** A file line shows its call site right after the tag. */
  lemma FileLineSite(level: Level, loc: SourceLocation, message: string)
    ensures ShowsSite(FileLine(level, loc, message), loc)
  {
    var line := FileLine(level, loc, message);
    var tag := Tag(level);
    var digits := Decimal.Render(loc.line);
    var tail := " > " + message + "\n";
    assert line == tag + loc.fileName + (":" + digits + tail);
    Slices.SliceMiddle(tag, loc.fileName, ":" + digits + tail);
    assert line == (tag + loc.fileName + ":") + digits + tail;
    Slices.SliceMiddle(tag + loc.fileName + ":", digits, tail);
  }

  /** The call site is the one captured when the logger was built: whatever
      the state and the message, every file line that `info`, `warn` and
      `error` write through one logger shows that logger's file name and a
      line number that reads back as its line. */
  lemma SiteFixedAtConstruction(s: LogState, logger: Logger, message: string)
    requires s.file.Some?
    ensures ShowsSite(LogInfo(s, logger, message).fileOut, logger.source)
    ensures ShowsSite(LogWarn(s, logger, message).fileOut, logger.source)
    ensures ShowsSite(LogError(s, logger, message).fileOut, logger.source)
  {
    FileLineSite(Info, logger.source, message);
    FileLineSite(Warning, logger.source, message);
    FileLineSite(Error, logger.source, message);
  }

  // ---------------------------------------------------------------------
  // Runs of calls

  /** One call on the logger's public interface. */
  datatype Call =
    | InitCall(filePath: string, showInfo: bool, showWarn: bool, openOk: bool)
    | DebugCall(logger: Logger, message: string)
    | InfoCall(logger: Logger, message: string)
    | WarnCall(logger: Logger, message: string)
    | ErrorCall(logger: Logger, message: string)

  function Apply(s: LogState, call: Call, debugBuild: bool): Step {
    match call
    case InitCall(path, info, warn, openOk) => Step(Init(s, path, info, warn, openOk), "", "", "")
    case DebugCall(logger, message) => LogDebug(s, logger, message, debugBuild)
    case InfoCall(logger, message) => LogInfo(s, logger, message)
    case WarnCall(logger, message) => LogWarn(s, logger, message)
    case ErrorCall(logger, message) => LogError(s, logger, message)
  }

  /** The state after a sequence of calls and everything they wrote to the
      two console streams, in order. */
  datatype Trace = Trace(state: LogState, stdout: string, stderr: string)

  function Run(s: LogState, calls: seq<Call>, debugBuild: bool): Trace
    decreases |calls|
  {
    if |calls| == 0 then Trace(s, "", "")
    else
      var step := Apply(s, calls[0], debugBuild);
      Prepend(step, Run(step.state, calls[1..], debugBuild))
  }

  /** A step's output followed by the rest of a run. */
  function Prepend(step: Step, rest: Trace): Trace {
    Trace(rest.state, step.stdout + rest.stdout, step.stderr + rest.stderr)
  }

  /** No call changes the display flags, `init` included. */
  lemma {:induction false} RunKeepsFlags(s: LogState, calls: seq<Call>, debugBuild: bool)
    ensures Run(s, calls, debugBuild).state.showInfo == s.showInfo
    ensures Run(s, calls, debugBuild).state.showWarn == s.showWarn
    decreases |calls|
  {
    if |calls| > 0 {
      RunKeepsFlags(Apply(s, calls[0], debugBuild).state, calls[1..], debugBuild);
    }
  }

  /** Hence both flags stay false for the life of the process. */
  lemma FlagsStayFalse(calls: seq<Call>, debugBuild: bool)
    ensures !Run(InitialState, calls, debugBuild).state.showInfo
    ensures !Run(InitialState, calls, debugBuild).state.showWarn
  {
    RunKeepsFlags(InitialState, calls, debugBuild);
  }

  /** With both flags off, a build without `DEBUG` never writes to standard
      output, whatever is logged and however `init` is called. */
  lemma {:induction false} QuietRunWritesNoStdout(s: LogState, calls: seq<Call>)
    requires !s.showInfo && !s.showWarn
    ensures Run(s, calls, false).stdout == ""
    decreases |calls|
  {
    if |calls| > 0 {
      var step := Apply(s, calls[0], false);
      QuietRunWritesNoStdout(step.state, calls[1..]);
    }
  }

  /** In particular, from the initial state. */
  lemma ReleaseBuildStdoutEmpty(calls: seq<Call>)
    ensures Run(InitialState, calls, false).stdout == ""
  {
    QuietRunWritesNoStdout(InitialState, calls);
  }

  /** An error always reaches standard error, after everything written
      there before it, and adds nothing to standard output. */
  lemma ErrorReachesStderr(s: LogState, calls: seq<Call>, logger: Logger, message: string, debugBuild: bool)
    ensures var before := Run(s, calls, debugBuild);
            var after := Run(s, calls + [ErrorCall(logger, message)], debugBuild);
            && after.stderr == before.stderr + ConsoleRecord(Red, Error, logger.source, message)
            && after.stdout == before.stdout
  {
    var call := ErrorCall(logger, message);
    var before := Run(s, calls, debugBuild);
    RunAppend(s, calls, [call], debugBuild);
    assert Run(s, calls + [call], debugBuild)
        == Trace(Run(before.state, [call], debugBuild).state,
                 before.stdout + Run(before.state, [call], debugBuild).stdout,
                 before.stderr + Run(before.state, [call], debugBuild).stderr);
    RunSingle(before.state, call, debugBuild);
    var step := LogError(before.state, logger, message);
    assert step.stdout == "" && step.stderr == ConsoleRecord(Red, Error, logger.source, message);
  }

  /** Between two `init` calls the file is only ever appended to: what it
      held before is a prefix of what it holds after. */
  lemma {:induction false} FileOnlyGrows(s: LogState, calls: seq<Call>, debugBuild: bool)
    requires forall i :: 0 <= i < |calls| ==> !calls[i].InitCall?
    ensures Run(s, calls, debugBuild).state.file.Some? <==> s.file.Some?
    ensures s.file.Some? ==> s.file.value <= Run(s, calls, debugBuild).state.file.value
    decreases |calls|
  {
    if |calls| > 0 {
      var s' := Apply(s, calls[0], debugBuild).state;
      FileOnlyGrows(s', calls[1..], debugBuild);
    }
  }

  /** Re-initialising with a path whose open succeeds leaves no line of
      anything logged before. */
  lemma ReinitTruncates(s: LogState, calls: seq<Call>, path: string, showInfo: bool, showWarn: bool, debugBuild: bool)
    requires path != ""
    ensures Run(s, calls + [InitCall(path, showInfo, showWarn, true)], debugBuild).state.file == Some("")
  {
    var call := InitCall(path, showInfo, showWarn, true);
    RunAppend(s, calls, [call], debugBuild);
    RunSingle(Run(s, calls, debugBuild).state, call, debugBuild);
  }

  /** A run of one call is that call's step. */
  lemma RunSingle(s: LogState, call: Call, debugBuild: bool)
    ensures var step := Apply(s, call, debugBuild);
            Run(s, [call], debugBuild) == Trace(step.state, step.stdout, step.stderr)
  {

  }

  /** Running two sequences of calls one after the other is running their
      concatenation: the state threads through and the output accumulates. */
  lemma {:induction false} RunAppend(s: LogState, xs: seq<Call>, ys: seq<Call>, debugBuild: bool)
    ensures RunsCompose(s, xs, ys, debugBuild)
    decreases |xs|
  {
    if |xs| == 0 {
      assert xs + ys == ys;
      assert Run(s, xs, debugBuild) == Trace(s, "", "");
      var second := Run(s, ys, debugBuild);
      assert "" + second.stdout == second.stdout && "" + second.stderr == second.stderr;
    } else {
      RunAppend(Apply(s, xs[0], debugBuild).state, xs[1..], ys, debugBuild);
      RunAppendStep(s, xs, ys, debugBuild);
    }
  }

  ghost predicate RunsCompose(s: LogState, xs: seq<Call>, ys: seq<Call>, debugBuild: bool) {
    var first := Run(s, xs, debugBuild);
    var second := Run(first.state, ys, debugBuild);
    Run(s, xs + ys, debugBuild)
    == Trace(second.state, first.stdout + second.stdout, first.stderr + second.stderr)
  }

  lemma RunAppendStep(s: LogState, xs: seq<Call>, ys: seq<Call>, debugBuild: bool)
    requires |xs| > 0
    requires RunsCompose(Apply(s, xs[0], debugBuild).state, xs[1..], ys, debugBuild)
    ensures RunsCompose(s, xs, ys, debugBuild)
  {
    var step := Apply(s, xs[0], debugBuild);
    var mid := Run(step.state, xs[1..], debugBuild);
    var second := Run(mid.state, ys, debugBuild);
    assert Run(s, xs, debugBuild) == Prepend(step, mid) by {
      RunUnfold(s, xs, debugBuild);
    }
    RunUnfoldAppend(s, xs, ys, debugBuild);
    PrependAssoc(step, mid, second);
  }

  lemma RunUnfoldAppend(s: LogState, xs: seq<Call>, ys: seq<Call>, debugBuild: bool)
    requires |xs| > 0
    ensures var step := Apply(s, xs[0], debugBuild);
            Run(s, xs + ys, debugBuild) == Prepend(step, Run(step.state, xs[1..] + ys, debugBuild))
  {
    assert (xs + ys)[0] == xs[0];
    assert (xs + ys)[1..] == xs[1..] + ys;
    RunUnfold(s, xs + ys, debugBuild);
  }

  lemma RunUnfold(s: LogState, calls: seq<Call>, debugBuild: bool)
    requires |calls| > 0
    ensures var step := Apply(s, calls[0], debugBuild);
            Run(s, calls, debugBuild) == Prepend(step, Run(step.state, calls[1..], debugBuild))
  {
  }

  lemma PrependAssoc(step: Step, mid: Trace, second: Trace)
    ensures Prepend(step, Trace(second.state, mid.stdout + second.stdout, mid.stderr + second.stderr))
            == Trace(second.state, Prepend(step, mid).stdout + second.stdout,
                     Prepend(step, mid).stderr + second.stderr)
  {

  }

  /** From the initial state, info and warnings are dropped entirely and an
      error reaches standard error only. */
  lemma InitialStateRouting(logger: Logger, message: string)
    ensures LogInfo(InitialState, logger, message) == Step(InitialState, "", "", "")
    ensures LogWarn(InitialState, logger, message) == Step(InitialState, "", "", "")
    ensures LogError(InitialState, logger, message)
            == Step(InitialState, "", ConsoleRecord(Red, Error, logger.source, message), "")
  {
  }

}
