# lgr log-record pipeline

A Dafny model of how the `lgr` logger turns one `Logf` call into output. The
behaviour modelled is the one its test suite pins down with exact expected
strings, under a fixed clock. The pipeline has five stages:

- **Level classifier** (`Classifier`). A leading `LEVEL ` or `[LEVEL] ` tag
  (TRACE, DEBUG, INFO, WARN, ERROR, PANIC, FATAL) sets the severity. The tag is
  removed together with the space after it. Text without a tag is INFO and is
  kept as it is.
- **Minimum-level gate** (`Logging.Enabled`). The defaults drop DEBUG and
  TRACE. The `Debug` option lets DEBUG through. The `Trace` option lets
  everything through.
- **Template builder** (`Templates.TemplateFromOptions`). It maps the layout
  options `Msec`, `LevelBraces`, `CallerFile`, `CallerFunc` and `CallerPkg`
  to the template text. The named preset formats (`WithMsec`, `WithPkg`,
  `ShortDebug`, `FuncDebug`, `FullDebug`) are modelled too. Template text
  is compiled into a closed vocabulary of segments (`Templates.Compile`).
- **Line renderer** (`Rendering`). It writes:
  - the timestamp, with `.000` milliseconds when asked (`Clock`);
  - the level column, padded to five characters, or to seven with braces
    (`Levels.Column`);
  - the parenthesised caller group, when any caller option is set;
  - the message, followed by exactly one line break.
- **Stream router** (`Logging.Emit`, `Logging.Logger.Logf`). Every line goes
  to the standard stream. ERROR and above are also copied to the error
  stream. PANIC and FATAL add the stack dump after that copy and trigger the
  fatal action, which the model counts.

`Logging.Logger` is a class. Its fields are:

- the settings and the compiled template, fixed at construction;
- the two output streams, as strings that `Logf` appends to;
- the count of fatal actions.

The clock reading, the stack of caller frames, the stack dump and the
already-interpolated message are parameters of `Logf`.

`Scenarios` replays the test cases. Each replay is a lemma over any message,
any clock reading and any caller frame. Small lemmas then pin the test's
fixed values: 2018/01/07 13:02:34, with 0 or 123 ms, and the caller lines 79,
97, 123 and 125.

## Model

| member | source | states |
|---|---|---|
| `Decimal.Digits` | logger_test.go:54 | The caller line is written as its minimal decimal form: only digits, no leading zero, and its value is the number. |
| `Decimal.ZeroPad` | logger_test.go:22 | A time field written with a fixed width has exactly that many digits when it fits, and still denotes the number. |
| `Levels.Name` | logger_test.go:22-31 | Every level label is four or five upper-case letters. |
| `Levels.Column` | logger_test.go:22-31 | The level column is five wide, or seven with braces. It starts with the label (bracketed with braces) and is padded with spaces after it. |
| `Levels.ColumnInjective` | logger_test.go:22-31 | No two levels share a column, with or without braces. |
| `Clock.Stamp` | logger_test.go:22 | The timestamp the template writes: date, time and, in millisecond mode, the milliseconds. `Clock.StampFields` and `Clock.StampParts` state where each field sits and that it reads back as the clock value. |
| `Clock.StampFields` | logger_test.go:54 | Each timestamp field sits at its fixed column and reads back as the clock's value. Milliseconds appear only in millisecond mode, as nanoseconds divided by 10^6. |
| `Clock.StampParts` | logger_test.go:54 | A stamp is the date, a space, the time and, in millisecond mode, a dot and three digits. |
| `Clock.StampMsecExtends` | logger_test.go:239 | The millisecond stamp extends the plain stamp and changes nothing before it. |
| `Classifier.Classify` | logger_test.go:22-31 | The level and message of a call. `Classifier.ClassifyTagged`, `Classifier.ClassifyUntagged` and `Classifier.ClassifySplits` characterise it completely. |
| `Classifier.TagsExclusive` | logger_test.go:22-31 | At most one tag can open a line: the tags are prefix-free. |
| `Classifier.ClassifyTagged` | logger_test.go:24-26 | A leading tag, bare or bracketed, selects its level. It is removed with its space, and the rest is the message unchanged. |
| `Classifier.ClassifyUntagged` | logger_test.go:28 | A line with no tag is INFO and is kept verbatim. |
| `Classifier.ClassifySplits` | logger_test.go:22-31 | Every line is either a tag followed by the message, or untagged INFO with the whole line as the message. |
| `Classifier.InfoTagInvisible` | logger_test.go:25-28 | An explicit INFO tag in front of an untagged line changes nothing. |
| `Classifier.ClassifyNewline` | logger_test.go:27 | A trailing line break never changes the level and stays on the message. |
| `Templates.TemplateFromOptions` | logger_test.go:139-160 | The template text the layout options build. The six table rows below pin it, and `Templates.LayoutText` and `Templates.CompileOptions` tie it to the segment layout for every flag set. |
| `Templates.TemplateFromOptionsNone` | logger_test.go:144 | Table row: no options. |
| `Templates.TemplateFromOptionsMsec` | logger_test.go:145 | Table row: Msec. |
| `Templates.TemplateFromOptionsMsecLevelBraces` | logger_test.go:146 | Table row: Msec and LevelBraces. |
| `Templates.TemplateFromOptionsCallerFile` | logger_test.go:147 | Table row: CallerFile gives `({{.CallerFile}}:{{.CallerLine}})`. |
| `Templates.TemplateFromOptionsFileFuncMsec` | logger_test.go:148-149 | Table row: file:line, then a space, then the function. |
| `Templates.TemplateFromOptionsFuncPkgMsecBraces` | logger_test.go:150-151 | Table row: function, then package, with braces and milliseconds. |
| `Templates.WithMsecPreset` | logger_test.go:34 | The WithMsec preset is the template that the Msec option builds. |
| `Templates.WithPkgPreset` | logger_test.go:111 | The WithPkg preset is the template that Msec and CallerPkg build. |
| `Templates.ShortDebugPreset` | logger_test.go:93 | The ShortDebug preset is the template that Msec and CallerFile build. |
| `Templates.FuncDebugPreset` | logger_test.go:165 | The FuncDebug preset is the template that Msec and CallerFunc build. |
| `Templates.FullDebugPreset` | logger_test.go:73 | The FullDebug preset is the template that Msec, CallerFile and CallerFunc build. |
| `Templates.ExpandLayout` | logger_test.go:144-151 | Any literal-preserving expansion of the options' layout gives the timestamp, the level and the caller group (present exactly when a caller option is set), then the message, separated by single spaces. |
| `Templates.LayoutText` | logger_test.go:139-160 | The compiled layout spells out exactly the template text the options build. |
| `Templates.Compile` | logger_test.go:100-101 | Template text to segments, or `Malformed` at an unknown `{{`. `Templates.CompileSound` and `Templates.CompileText` make it a left inverse of spelling out. |
| `Templates.ActionsPrefixFree` | logger_test.go:100 | No action's text is a prefix of another action's text followed by anything. |
| `Templates.MatchAction` | logger_test.go:100 | A match is a recognised action whose text opens the input. No match means no recognised action opens it. |
| `Templates.CompileSound` | logger_test.go:100-101 | Whatever compiles spells out the text it came from. |
| `Templates.CompileText` | logger_test.go:219 | A template with no `{` or `[` literal compiles back from its own text: compiling is a left inverse of spelling out. |
| `Templates.LayoutLiterals` | logger_test.go:144-151 | The options' layouts hold no literal text other than spaces, parentheses and the colon. |
| `Templates.CompileOptions` | logger_test.go:139-160 | The template the options build compiles to the options' layout. |
| `Rendering.Render` | logger_test.go:53-54 | A record written out through a compiled template. `Rendering.RenderLayout` equates it with `Rendering.Line` for every options layout. |
| `Rendering.Line` | logger_test.go:53-54 | The reference line: stamp, space, level column, space, caller group, message. It is built without templates, so `Rendering.RenderLayout` checks the renderer against it. |
| `Rendering.RenderLayout` | logger_test.go:53-54 | Rendering a record through an options layout gives the stamp, a space, the level column, a space, the caller group of the selected caller values, then the message. |
| `Rendering.LayoutFields` | logger_test.go:53-54 | The record's stamp, column, caller values and message fill the places the layout expansion leaves for them. |
| `Rendering.MessageAligned` | logger_test.go:22-31 | The message closes the line and starts at the same column whatever the level. |
| `Rendering.LevelColumnAt` | logger_test.go:29-30 | The level column comes right after the stamp and a space, and a space follows it. |
| `Rendering.CallerIrrelevant` | logger_test.go:85-91 | A template without caller fields renders the same line whatever the caller frame is. |
| `Rendering.LayoutUsesCaller` | logger_test.go:139-160 | A layout uses caller fields if and only if some caller option is set. |
| `Rendering.RenderOneLine` | logger_test.go:213 | A break-free template renders a break-free record as one unbroken line. |
| `Rendering.LayoutNoBreak` | logger_test.go:213 | The options' layouts hold no line break. |
| `Logging.Configure` | logger_test.go:144-151 | The settings the option list selects. `Logging.ConfigureSwitches`, `Logging.ConfigureNoFormat`, `Logging.ConfigureLastFormat`, `Logging.ConfigureNoDepth` and `Logging.ConfigureLastDepth` characterise it. |
| `Logging.ConfigureSwitches` | logger_test.go:148-151 | The switches are set exactly by the options that name them, whatever their order or repetition. |
| `Logging.ConfigureNoFormat` | logger_test.go:224 | Without a Format option the format stays empty, so the options build the template. |
| `Logging.ConfigureLastFormat` | logger_test.go:34 | The last Format option sets the format, whatever follows it. |
| `Logging.ConfigureNoDepth` | logger_test.go:73 | Without a CallerDepth option the depth is 0. |
| `Logging.ConfigureLastDepth` | logger_test.go:119 | The last CallerDepth option sets the depth. |
| `Logging.DefaultTemplate` | logger_test.go:187-192 | Without an explicit format the template compiles to the flags' layout. |
| `Logging.Enabled` | logger_test.go:23-24 | The minimum-level gate. `Logging.GateIsThreshold` states it is a threshold on the rank, and `Logging.SwitchesOpenGate` and `Logging.TerminalAlwaysEmitted` give its cases. |
| `Logging.GateIsThreshold` | logger_test.go:233-256 | The gate is a minimum level: a line passes if and only if its rank is at least the threshold's (TRACE with Trace, DEBUG with Debug, INFO otherwise). |
| `Logging.Resolve` | logger_test.go:117-137 | The caller frame at the configured depth, or the empty frame when the stack is too shallow. `Logging.ResolveThroughWrapper` states the depth arithmetic. |
| `Logging.ResolveThroughWrapper` | logger_test.go:122-125 | One more level of depth through a one-frame wrapper reports the wrapper's caller. |
| `Logging.TrimNewline` | logger_test.go:27 | Exactly one trailing line break is dropped, and only when present. |
| `Logging.RecordOf` | logger_test.go:22-31 | The record of a call: the classified level, the message without its trailing line break, the caller at the configured depth. `Logging.EmitTrailingNewline` and `Logging.EmitTaggedLayout` state its effect. |
| `Logging.ErrPart` | logger_test.go:30-31 | The error stream's share of a line. `Logging.EmitRoute` characterises it by level. |
| `Logging.Emit` | logger_test.go:169-176 | Everything one call writes. `Logging.EmitGate` and `Logging.EmitRoute` characterise it, and `Logging.Logger.Logf` appends it to the streams. |
| `Logging.EmitGate` | logger_test.go:23-24 | A call writes anything if and only if its level passes the gate. A dropped call writes nothing anywhere, and a written line ends with a line break. |
| `Logging.EmitRoute` | logger_test.go:30-31 | The error stream is empty if and only if the level is below ERROR. At ERROR it is the line itself; for PANIC and FATAL it is the line and then the dump. The fatal action runs if and only if the level is PANIC or FATAL. |
| `Logging.TerminalAlwaysEmitted` | logger_test.go:187-192 | PANIC and FATAL pass the gate under any options. |
| `Logging.EmitTrailingNewline` | logger_test.go:27 | A text ending in a line break writes the same as without it. |
| `Logging.EmitInfoTag` | logger_test.go:25-28 | An explicit INFO tag writes the same as no tag. |
| `Logging.EmitLayoutLine` | logger_test.go:224-230 | With the flags' own layout, the standard stream gets the line that the flags describe. |
| `Logging.DebugNeedsSwitch` | logger_test.go:23-24 | Without Debug or Trace, DEBUG calls write nothing. |
| `Logging.TraceNeedsSwitch` | logger_test.go:251-256 | Without Trace, TRACE calls write nothing. |
| `Logging.SwitchesOpenGate` | logger_test.go:235-249 | Trace lets every level through; Debug lets through every level but TRACE. |
| `Logging.EmitTaggedLayout` | logger_test.go:22-31 | A tagged call through a layout writes the lead, the message and a line break, routed by the tag's level. |
| `Logging.NewlinesConcat` | logger_test.go:213 | Line breaks add up over concatenation. |
| `Logging.MessageOneLine` | logger_test.go:213 | A break-free text stays break-free once classified. |
| `Logging.EmitOneLine` | logger_test.go:213 | A call that writes, with break-free parts, adds exactly one line break. |
| `Logging.Logger.constructor` | logger_test.go:34 | The logger keeps the settings of its options and the compiled template, whose text is the template text. Both streams start empty and the count at zero. |
| `Logging.Logger.Logf` | logger_test.go:40 | Each stream gains exactly what the call emits. The fatal count goes up by one exactly for a fatal call. |
| `Scenarios.PlainStamps` | logger_test.go:192 | The test clock prints as `2018/01/07 13:02:34` without milliseconds. |
| `Scenarios.MsecStamp0` | logger_test.go:22 | With 0 ns, the millisecond stamp ends in `.000`. |
| `Scenarios.MsecStamp123` | logger_test.go:54 | With 123000000 ns, the millisecond stamp ends in `.123`. |
| `Scenarios.TableOptions` | logger_test.go:144-151 | The option lists of the table select the expected flags. |
| `Scenarios.FormatOnly` | logger_test.go:34 | A single Format option changes only the format. |
| `Scenarios.GroupFileOnly` | logger_test.go:98 | The file-only caller group is `(file:line) `. |
| `Scenarios.GroupFuncOnly` | logger_test.go:106 | The function-only caller group is `(func) `. |
| `Scenarios.GroupPkgOnly` | logger_test.go:114 | The package-only caller group is `(pkg) `. |
| `Scenarios.GroupFileFunc` | logger_test.go:54 | The file-and-function caller group is `(file:line func) `. |
| `Scenarios.Line79` | logger_test.go:54 | Line 79 prints as `79`. |
| `Scenarios.Line97` | logger_test.go:98 | Line 97 prints as `97`. |
| `Scenarios.Line123` | logger_test.go:135 | Line 123 prints as `123`. |
| `Scenarios.Line125` | logger_test.go:127 | Line 125 prints as `125`. |
| `Scenarios.Untagged` | logger_test.go:28 | A text opening with a lower-case letter carries no tag. |
| `Scenarios.Columns` | logger_test.go:22-31 | The level columns are `INFO `, `WARN `, `ERROR`, `DEBUG`, `TRACE`, `PANIC` and `FATAL`, and `[INFO] ` and `[ERROR]` with braces. |
| `Scenarios.TestLine` | logger_test.go:40-42 | For a call up to ERROR through a logger whose template the flags build: the exact line, the error copy only at ERROR, no fatal action. |
| `Scenarios.TestTerminalLine` | logger_test.go:169-176 | The same for PANIC and FATAL: the line, then the line and the dump on the error stream, then the fatal action. |
| `Scenarios.LoggedUntagged` | logger_test.go:28 | An untagged text is logged as if it carried the INFO tag. |
| `Scenarios.DebugFormat` | logger_test.go:85 | Debug followed by Format sets just those two settings. |
| `Scenarios.NoDbgSetup` | logger_test.go:34 | The WithMsec logger has the Msec-only template. |
| `Scenarios.NoDbgTagged` | logger_test.go:25-31 | INFO, WARN and ERROR lines carry the stamp with milliseconds and the level column, and no caller group. Only ERROR is copied to the error stream. |
| `Scenarios.NoDbgUntagged` | logger_test.go:22 | An untagged text is an INFO line that keeps the whole text. |
| `Scenarios.NoDbgDebugDropped` | logger_test.go:23-24 | DEBUG calls, bare or bracketed, write nothing. |
| `Scenarios.NoDbgNewline` | logger_test.go:27 | A message already ending in a line break still ends the line with exactly one. |
| `Scenarios.WithDbgSetup` | logger_test.go:73 | The FullDebug logger has the file-and-function template. |
| `Scenarios.WithDbgTagged` | logger_test.go:55-69 | DEBUG to ERROR lines carry `(file:line func) ` after the column. Only ERROR is copied to the error stream. |
| `Scenarios.WithDbgUntagged` | logger_test.go:53-54 | An untagged text is an INFO line with the caller group. |
| `Scenarios.DebugShortDebugSetup` | logger_test.go:93 | The ShortDebug logger has the file-only template. |
| `Scenarios.DebugFuncDebugSetup` | logger_test.go:101 | The function-only logger has the function-only template. |
| `Scenarios.DebugWithPkgSetup` | logger_test.go:111 | The WithPkg logger has the package-only template. |
| `Scenarios.MsecDebug` | logger_test.go:85-91 | With Debug and WithMsec, a DEBUG line passes without a caller group and nothing goes to the error stream. |
| `Scenarios.DebugFormatPlainLine` | logger_test.go:85-91 | For any flags without caller fields, the debug logger's line has no caller group. |
| `Scenarios.DebugFormatLine` | logger_test.go:85-106 | For any flags, a debug logger whose format is the flags' template writes the stamp, the column, the caller group and the message. |
| `Scenarios.ShortDebugLine` | logger_test.go:93-98 | ShortDebug shows `(file:line) ` only. |
| `Scenarios.FuncDebugLine` | logger_test.go:100-106 | The function-only format shows `(func) ` only, for every level from DEBUG to ERROR. |
| `Scenarios.FuncDebugTerminal` | logger_test.go:169-182 | PANIC and FATAL through that format: the line on both streams, the dump after the error copy, the fatal action. |
| `Scenarios.WithPkgLine` | logger_test.go:109-115 | WithPkg shows `(pkg) ` only. |
| `Scenarios.DepthSetup` | logger_test.go:119 | FullDebug with CallerDepth(d) keeps depth d. |
| `Scenarios.CallerDepthLine` | logger_test.go:117-137 | Called through a wrapper, depth 0 reports the wrapper's frame and depth 1 the frame of the wrapper's caller. |
| `Scenarios.DefaultTerminal` | logger_test.go:187-195 | Under the default options a PANIC line is written, without milliseconds or caller, on both streams with the dump, and it triggers the fatal action. |
| `Scenarios.PanicThenFatal` | logger_test.go:162-182 | A PANIC call and then a FATAL call give both lines on the standard stream, each followed by the dump on the error stream, and a fatal count of 2. |
| `Scenarios.FuncDebugTemplate` | logger_test.go:165 | The FuncDebug format compiles to the function-only layout. |
| `Scenarios.BracesFormat` | logger_test.go:219 | The format the test spells out with `[{{.Level}}]` is the template that the LevelBraces option builds. |
| `Scenarios.BracesFormatLine` | logger_test.go:219-222 | That format writes the bracketed label padded to seven columns. |
| `Scenarios.BracesOptionSetup` | logger_test.go:224 | Debug and LevelBraces give the braces-only template. |
| `Scenarios.BracesOptionLine` | logger_test.go:224-230 | The LevelBraces option writes the same line as that format, copied to the error stream at ERROR. |
| `Scenarios.TraceLine` | logger_test.go:233-249 | With Trace, every level up to ERROR is written, TRACE included. |
| `Scenarios.DebugDropsTrace` | logger_test.go:251-256 | With Debug alone, TRACE writes nothing. |
| `Scenarios.DebugOnlySetup` | logger_test.go:200 | A Debug-only logger compiles to the plain layout. |
| `Scenarios.DebugLineOnly` | logger_test.go:207 | A break-free DEBUG call on a debug logger writes one line, nothing to the error stream, and no fatal action. |
| `Scenarios.DebugText` | logger_test.go:207 | A `[DEBUG] ` tag on a break-free message gives a break-free DEBUG call. |
| `Scenarios.Burst` | logger_test.go:198-215 | After n DEBUG calls in a row, the standard stream holds exactly n line breaks, the error stream is empty, and no fatal action has run. |

## Left out

- The mutex and the 1000 concurrent goroutines of logger_test.go:198-215. The model is sequential, and `Scenarios.Burst` makes the calls one after another.
- Scenarios.Burst: it states the number of line breaks on the standard stream (n), not the length of its split on line breaks (n + 1).
- Stack walking. The caller frames are a parameter of `Logf`, innermost first, and the configured depth indexes into them. Go's file, function and package naming is not modelled.
- The contents of the stack dump. It is an opaque string parameter.
- Process exit. The fatal action is a counter, as in the tests.
- `fmt.Sprintf` interpolation and the formatting of `error` values. `Logf` takes the already-interpolated text.
- Go's `text/template` engine. Templates are compiled into a closed vocabulary: the timestamp in two layouts, the level with or without braces, the message, and the four caller fields. Any other `{{` is reported as `Malformed`. Many templates Go accepts fall outside this vocabulary, for example `{{.DT.Format "15:04"}}`, `{{ .Level }}` or a pipeline through `printf`. Such templates are out of scope: the constructor requires a template that compiles in this vocabulary. In Go only text that `text/template` cannot parse fails at construction.
- Classifier.Classify: a tag counts only when exactly one space follows it, and only that space is removed. A label at the end of the text (`ERROR`), or one followed by a line break or a tab, is untagged INFO text. With two spaces after a tag the message keeps a leading space. The tests use only a single space after a tag and do not settle these cases. Stripping all whitespace after the tag is not modelled.
- Templates.CompileText: the compile round trip is proved for templates without `{` and `[` literals, which covers every layout the options build.
- `time.Time` and time zones. The clock reading is broken into integer fields, and `Clock.Valid` bounds them.
- The `bytes.Buffer` writers. The streams are strings that `Logf` appends to. Aliasing between the two writers is not modelled.
- `Reset` between test cases. `Scenarios.PanicThenFatal` keeps both calls' output on the same streams instead.
- The literal format at logger_test.go:100. The model uses the FuncDebug preset in its place, which `Templates.FuncDebugPreset` ties to the function-only options. The character-by-character equality of the literal with the preset is not proved.
- The testify assertions and the benchmarks of logger_test.go:259-279.
- The logger's production source is not part of this model. Everything here follows the behaviour its tests assert. The tests check the dump only after PANIC. FATAL is modelled the same way, adding the dump to the error stream.
