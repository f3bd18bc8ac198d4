# A Dafny model of the `Log` / `UString` logging utilities

The model covers two small C++ utilities.

- `UString` joins and formats strings. `concat` writes its arguments one after another into a string stream. `format` substitutes its arguments into a template at the `{}` placeholder.
- `Log` is a leveled logger. `Log::init` opens an optional log file stream. It takes `showInfo` and `showWarn` but never stores them, so the process-wide flags keep their initial value (see below). Each `Log` instance remembers the source location where it was constructed. `debug`, `info`, `warn` and `error` write tagged, coloured lines to standard output or standard error. Only `info`, `warn` and `error` also write an uncoloured line to the log file; `debug` never does.

Files:

- `optional.dfy`: module `Optional`, the `Option` type. It stands for a search result, where `None` is `npos`, and for a file stream that may be closed.
- `decimal.dfy`: module `Decimal`. It renders a line number as a stream prints it, and parses the digits back.
- `slices.dfy`: module `Slices`, one fact about slicing a concatenation, used by both modules below.
- `ustring.dfy`: module `UString`, covering `concat`, `_concat`, `format` and both `_format` overloads.
- `log.dfy`: module `Log`. It covers the tags, colour codes, static state, `init`, the four leveled calls and their templated overloads. It also defines runs of calls, used to state properties over a whole process.

Each argument is taken as its already-converted text (`string`). Argument lists are `seq<string>`. There is no overload for an empty pack, so `concat` and `format` both require at least one argument.

The logger's static configuration is the explicit value `LogState(showInfo, showWarn, file)`. In it, `file` is `None` while no stream is open. Otherwise `file` holds the text written since the stream was opened. Each call is a pure function from a state to a `Step`: the next state plus the text written to standard output, to standard error and to the file. Locking is not modelled, so each call is one atomic step.

## Where the code and its documentation disagree

The model follows the code.

- **The format template is never advanced.** The comment at `src/UString.hpp:62` says the used placeholder is removed, but the template is passed by `const&` and never changed. Every argument therefore receives the same prefix, the text before the first `{}`, and nothing after the first `{}` is ever emitted. So `format("{} and {}", 1, 2)` yields `"12"`, not `"1 and 2"` (`UString.FormatTwoPlaceholdersExample`). With a placeholder, extra arguments are never dropped: each one is emitted after its own copy of the prefix. A template with no `{}` is emitted exactly once, and every argument is ignored, the first one included, because that branch never writes the argument (`src/UString.hpp:70-72`).
- **`init` ignores its flag arguments.** It assigns `_showInfo` and `_showWarn` to themselves (`src/Log.cpp:23-24`). Both flags therefore stay `false` for the whole process (`Log.FlagsStayFalse`). As a consequence, in a build without `DEBUG`, nothing is ever written to standard output (`Log.ReleaseBuildStdoutEmpty`).
- **The call site is captured once, at construction.** Every call through the same `Log` instance reports that one location (`Log.SiteFixedAtConstruction`).

## Model

| member | source | states |
|---|---|---|
| UString.ConcatInto | src/UString.hpp:40-46 | `_concat` extends the stream by the arguments, in order and without separators: the result is the stream's old text followed by the reference join of the arguments |
| UString.Concat | src/UString.hpp:14-19 | `concat` of one or more arguments equals `a1 + a2 + ... + an`, given by the independent reference `Join` |
| UString.ConcatLength | src/UString.hpp:41-45 | the length of `concat` is the sum of the argument lengths |
| UString.ConcatAppend | src/UString.hpp:41-45 | `concat(xs + ys) == concat(xs) + concat(ys)` for non-empty `xs` and `ys` |
| UString.ConcatArgumentAt | src/UString.hpp:40-46 | argument `i` appears in the result at the offset given by the lengths of the arguments before it |
| UString.ConcatExample | src/UString.hpp:14-19 | `concat(1, "x", 2.5)` with pre-rendered arguments is `"1x2.5"` |
| UString.FindFrom | src/UString.hpp:69 | the search returns the least index at or after the start where `{}` begins, or `None` exactly when there is none |
| UString.Find | src/UString.hpp:69 | `find("{}")` is `None` exactly when the template has no placeholder; otherwise it gives the position of a placeholder with none before it |
| UString.PrefixHasNoPlaceholder | src/UString.hpp:69-74 | the prefix emitted before each argument, `template[..pos]`, holds no `{}` of its own |
| UString.FormatOne | src/UString.hpp:67-80 | the single-argument `_format` reports true exactly when the template holds `{}`; it appends the whole template if not, and the prefix followed by the argument if so |
| UString.FormatInto | src/UString.hpp:55-60 | the variadic `_format` appends the template once if it has no placeholder; otherwise it appends every argument, each after the same unadvanced prefix |
| UString.Format | src/UString.hpp:26-31 | `format` returns a template without `{}` verbatim, whatever the arguments; otherwise it returns `(prefix + a1) + ... + (prefix + an)` |
| UString.FormatLength | src/UString.hpp:56-78 | with the first placeholder at `pos`, the output length is `n * pos` plus the sum of the argument lengths |
| UString.FormatArgumentAt | src/UString.hpp:73-78 | no argument is dropped: at offset `i * pos` plus the lengths of the earlier arguments, the output holds the prefix immediately followed by argument `i` |
| UString.FormatAppend | src/UString.hpp:55-60 | with a placeholder, formatting `xs + ys` is formatting `xs` then formatting `ys`; without one, the template still appears only once |
| UString.FormatIgnoresRest | src/UString.hpp:56-58 | replacing everything after the first `{}` with any other text leaves the output unchanged |
| UString.FormatTwoPlaceholdersExample | src/UString.hpp:56-60 | `format("{} and {}", "1", "2")` is `"12"` |
| UString.FormatRepeatedPrefixExample | src/UString.hpp:73-78 | `format("x={}!", "1", "2")` is `"x=1x=2"`: the prefix repeats and the text after `{}` is lost |
| Decimal.Render | src/Log.cpp:37 | a line number prints as a canonical numeral (digits only, no leading zero) that parses back to the number |
| Decimal.RenderValue | src/Log.cpp:37 | rendering inverts parsing on canonical numerals |
| Decimal.RenderInjective | src/Log.cpp:37 | two line numbers print the same text exactly when they are equal |
| Log.Tag | src/Log.hpp:58-61 | every tag is 12 characters, bracketed, and followed by one space |
| Log.TagInjective | src/Log.hpp:58-61 | the four tags are pairwise distinct |
| Log.Code | src/Log.hpp:64-70 | every colour code is an ECMA-48 SGR sequence: ESC, `[`, digits and `;`, then `m` |
| Log.CodeInjective | src/Log.hpp:64-70 | the seven colour codes are pairwise distinct |
| Log.WriteFile | src/Log.cpp:36-38 | a write to an open stream appends its text, and a write to a closed stream is lost |
| Log.Init | src/Log.cpp:19-25 | `init` never changes the flags; an empty path leaves the file as it was; a non-empty path replaces it with an empty file, or no file if the open fails |
| Log.LogDebug | src/Log.cpp:27-32 | `debug` writes one line to standard output exactly in a `DEBUG` build, and never writes to standard error or the file |
| Log.LogInfo | src/Log.cpp:34-44 | `info` appends one file line when the file is open, whatever the flags; it writes the two-line console record to standard output exactly when `showInfo` is set, and nothing to standard error |
| Log.LogWarn | src/Log.cpp:46-56 | `warn` behaves like `info` with the warning tag, yellow colour and `showWarn` as the gate |
| Log.LogError | src/Log.cpp:58-64 | `error` appends one file line when the file is open, always writes the red record to standard error, and never writes to standard output |
| Log.LogDebugFormat | src/Log.hpp:25-28 | templated `debug` is plain `debug` on the formatted message: the template itself when it has no `{}`, otherwise every argument after the same prefix, joined without separator |
| Log.LogInfoFormat | src/Log.hpp:31-34 | templated `info` is plain `info` on the formatted message: the template itself when it has no `{}`, otherwise every argument after the same prefix, joined without separator |
| Log.LogWarnFormat | src/Log.hpp:37-40 | templated `warn` is plain `warn` on the formatted message: the template itself when it has no `{}`, otherwise every argument after the same prefix, joined without separator |
| Log.LogErrorFormat | src/Log.hpp:43-46 | templated `error` is plain `error` on the formatted message: the template itself when it has no `{}`, otherwise every argument after the same prefix, joined without separator |
| Log.FileLineShape | src/Log.cpp:37 | when neither the file name nor the message holds a newline or an ESC, a file line is exactly one newline-terminated line with no colour codes |
| Log.FileLineCarriesMessage | src/Log.cpp:37 | the message is written into the file line verbatim, just before the final newline, so its own newlines and escape sequences reach the file |
| Log.ConsoleRecordShape | src/Log.cpp:41-42 | when neither the file name nor the message holds a newline, a console record is exactly two lines: its only newlines end the header, which starts with the level's colour code, and end the body, which starts with the reset code |
| Log.FileLineSite | src/Log.cpp:37 | a file line shows, right after the 12-character tag, the file name, `:` and a line number that parses back to the location's line |
| Log.SiteFixedAtConstruction | src/Log.cpp:15-17 | for one logger, in any state with an open file and for any message, what `info`, `warn` and `error` write to the file shows the file name and line the logger captured when it was built |
| Log.RunKeepsFlags | src/Log.cpp:23-24 | no sequence of calls, `init` included, changes either display flag |
| Log.FlagsStayFalse | src/Log.cpp:9-10 | from the initial state both flags remain false after any sequence of calls |
| Log.QuietRunWritesNoStdout | src/Log.cpp:39-55 | with both flags off, a build without `DEBUG` writes nothing to standard output |
| Log.ReleaseBuildStdoutEmpty | src/Log.cpp:27-32 | from the initial state, a build without `DEBUG` never writes to standard output |
| Log.ErrorReachesStderr | src/Log.cpp:63-64 | after any history, an error appends its record to standard error and adds nothing to standard output |
| Log.FileOnlyGrows | src/Log.cpp:36-38 | between `init` calls, the file stays open or closed and its old text is a prefix of its new text |
| Log.ReinitTruncates | src/Log.cpp:20-22 | a successful re-`init` with a non-empty path leaves an empty file, whatever was logged before |
| Log.InitialStateRouting | src/Log.cpp:9-13 | in the initial state, `info` and `warn` write nothing anywhere, and `error` writes only its record to standard error |

## Left out

- Locking: the `std::mutex` and `scoped_lock` serialisation is not modelled. Each call is treated as one atomic step.
- Real I/O: stream writes, `std::endl` flushing, and whether `std::ofstream` really opens the file are not modelled. Whether the open succeeds is the parameter `openOk` of `Init`. A newline written by `std::endl` is the character `'\n'`.
- Textual conversion: `operator<<` on arbitrary argument types, including floating-point formatting, is not modelled. Arguments are already-rendered strings. Line numbers are `nat` printed by `Decimal.Render`, without the 32-bit width of `uint_least32_t`, which no real line number reaches.
- Call-site capture: the `std::source_location::current()` mechanism is not modelled. A `Logger` is built from a plain `(fileName, line)` value.
- The build mode: `#ifdef DEBUG` becomes the `debugBuild` parameter of `LogDebug`.
- Dangling references: the tag and colour helpers return `const std::string&` to temporaries. Only their literal values are modelled.
- Dead code: the unused file-scope `_source` in `src/Log.cpp` is not modelled.
- Copy and move deletion: the deleted copy constructor, move constructor and assignment of `Log` are not modelled.
- Compile-level defects: the non-standard `<ofstream>` include is not modelled. So is passing a `std::string_view` where `const std::string&` is expected, in the templated overloads. Only the intended delegation to `UString::format` is modelled.
