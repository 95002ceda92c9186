/** The logger's test cases replayed on the model: a fixed clock reading,
    fixed caller frames, and the lines the tests expect. */
module Scenarios {
  import opened Decimal
  import opened Levels
  import opened Clock
  import opened Classifier
  import opened Templates
  import opened Rendering
  import opened Logging

  /** 2018-01-07 13:02:34, without and with 123 ms. */
  const T0 := Timestamp(2018, 1, 7, 13, 2, 34, 0)
  const T123 := Timestamp(2018, 1, 7, 13, 2, 34, 123_000_000)

  lemma YearPad()
    ensures ZeroPad(2018, 4) == "2018"
  {
  }

  lemma DayPads()
    ensures ZeroPad(1, 2) == "01" && ZeroPad(7, 2) == "07"
  {
  }

  lemma HourPads()
    ensures ZeroPad(13, 2) == "13" && ZeroPad(2, 2) == "02"
  {
  }

  lemma SecondPad()
    ensures ZeroPad(34, 2) == "34"
  {
  }

  lemma MillisPads()
    ensures ZeroPad(Millis(T0), 3) == "000" && ZeroPad(Millis(T123), 3) == "123"
  {
  }

  lemma TestDate()
    ensures Date(T0) == "2018/01/07" && Date(T123) == Date(T0)
  {
    YearPad();
    DayPads();
  }

  lemma TestTime()
    ensures Time(T0) == "13:02:34" && Time(T123) == Time(T0)
  {
    HourPads();
    SecondPad();
  }

  /** The stamp both clock readings share up to the second. */
  const Stamp0 := "2018/01/07 13:02:34"

  /** The stamps the tests expect for the fixed clock readings. */
  lemma PlainStamps()
    ensures Stamp(T0, false) == Stamp0 && Stamp(T123, false) == Stamp0
  {
    TestDate();
    TestTime();
  }

  lemma MsecStamp0()
    ensures Stamp(T0, true) == Stamp0 + ".000"
  {
    PlainStamps();
    MillisPads();
  }

  lemma MsecStamp123()
    ensures Stamp(T123, true) == Stamp0 + ".123"
  {
    PlainStamps();
    MillisPads();
  }

  // The layout flags of the preset formats and option sets the tests use.
  const Plain := Flags(false, false, false, false, false)
  const MsecOnly := Flags(true, false, false, false, false)
  const BracesOnly := Flags(false, true, false, false, false)
  const FileOnly := Flags(true, false, true, false, false)
  const FuncOnly := Flags(true, false, false, true, false)
  const PkgOnly := Flags(true, false, false, false, true)
  const FileFunc := Flags(true, false, true, true, false)

  /** The option lists of the templateFromOptions table select these flags. */
  lemma TableOptions()
    ensures Configure([]).flags == Plain
    ensures Configure([Msec]).flags == MsecOnly
    ensures Configure([Msec, LevelBraces]).flags == Flags(true, true, false, false, false)
    ensures Configure([CallerFile]).flags == Flags(false, false, true, false, false)
    ensures Configure([CallerFile, CallerFunc, Msec]).flags == FileFunc
    ensures Configure([CallerFunc, CallerPkg, Msec, LevelBraces]).flags == Flags(true, true, false, true, true)
  {
    ConfigureSwitches([Msec, LevelBraces]);
    ConfigureSwitches([CallerFile, CallerFunc, Msec]);
    ConfigureSwitches([CallerFunc, CallerPkg, Msec, LevelBraces]);
  }

  /** A single Format option leaves every switch at its default. */
  lemma FormatOnly(f: string)
    ensures Configure([Format(f)]) == Defaults.(format := f)
  {
    assert [Format(f)][..0] == [];
  }

  // The caller groups of the layouts, for any frame.

  lemma GroupFileOnly(c: Caller)
    ensures Group(FileOnly, c) == "(" + c.file + ":" + Digits(c.line) + ") "
  {
    assert CallerParts(FileOnly, c) == [c.file + ":" + Digits(c.line)];
  }

  lemma GroupFuncOnly(c: Caller)
    ensures Group(FuncOnly, c) == "(" + c.func + ") "
  {
    assert CallerParts(FuncOnly, c) == [c.func];
  }

  lemma GroupPkgOnly(c: Caller)
    ensures Group(PkgOnly, c) == "(" + c.pkg + ") "
  {
    assert CallerParts(PkgOnly, c) == [c.pkg];
  }

  lemma GroupFileFunc(c: Caller)
    ensures Group(FileFunc, c) == "(" + c.file + ":" + Digits(c.line) + " " + c.func + ") "
  {
    JoinTwo(c.file + ":" + Digits(c.line), c.func);
  }

  // The caller lines the tests see.

  lemma Line79()
    ensures Digits(79) == "79"
  {
  }

  lemma Line97()
    ensures Digits(97) == "97"
  {
  }

  lemma Line123()
    ensures Digits(123) == "123"
  {
  }

  lemma Line125()
    ensures Digits(125) == "125"
  {
  }

  /** "aaa" and "blah something 123 ..." start with no level tag. */
  lemma Untagged(s: string)
    requires |s| > 0 && 'a' <= s[0] <= 'z'
    ensures !Tagged(s)
  {
    forall lv, b ensures !(Tag(lv, b) <= s) {
      assert IsUpper(Name(lv)[0]);
      assert Tag(lv, b)[0] == '[' || IsUpper(Tag(lv, b)[0]);
    }
  }

  /** The level columns the tests expect. */
  lemma Columns()
    ensures Column(TRACE, false) == "TRACE" && Column(DEBUG, false) == "DEBUG" && Column(INFO, false) == "INFO "
    ensures Column(WARN, false) == "WARN " && Column(ERROR, false) == "ERROR"
    ensures Column(PANIC, false) == "PANIC" && Column(FATAL, false) == "FATAL"
    ensures Column(INFO, true) == "[INFO] " && Column(ERROR, true) == "[ERROR]"
  {
  }

  /** The compiled template of a logger built from the options; a template
      text that does not compile is refused by the constructor. */
  function TemplateOf(opts: seq<Option>): seq<Segment> {
    match Compile(TemplateText(Configure(opts)))
    case Compiled(t) => t
    case Malformed(_) => []
  }

  /** What a logger built from the options writes for one call: the
      emission its Logf appends to the streams. */
  function Logged(opts: seq<Option>, text: string, dt: Timestamp, frames: seq<Caller>, dump: string): Emission {
    Emit(Configure(opts), TemplateOf(opts), text, dt, frames, dump)
  }

  /** A tagged call, up to ERROR, through a logger whose template text is the
      one some layout flags build, given the caller group's value. */
  lemma TestLine(opts: seq<Option>, fl: Flags, lv: Level, b: bool, m: string, dt: Timestamp,
                 frames: seq<Caller>, dump: string, grp: string)
    requires TemplateText(Configure(opts)) == TemplateFromOptions(fl)
    requires Enabled(Configure(opts), lv) && Rank(lv) <= Rank(ERROR) && !EndsInNewline(m)
    requires Group(fl, Resolve(frames, Configure(opts).depth)) == grp
    ensures var line := Stamp(dt, fl.msec) + " " + Column(lv, fl.levelBraces) + " " + grp + m + "\n";
      Logged(opts, Tag(lv, b) + m, dt, frames, dump) == Emission(line, if lv == ERROR then line else "", false)
  {
    CompileOptions(fl);
    EmitTaggedLayout(Configure(opts), fl, lv, b, m, dt, frames, dump);
    var line := Stamp(dt, fl.msec) + " " + Column(lv, fl.levelBraces) + " " + grp + m + "\n";
    ErrorCopy(lv, line, dump);
  }

  /** The same for PANIC and FATAL: the error stream also gets the dump and
      the fatal action follows. */
  lemma TestTerminalLine(opts: seq<Option>, fl: Flags, lv: Level, b: bool, m: string, dt: Timestamp,
                         frames: seq<Caller>, dump: string, grp: string)
    requires TemplateText(Configure(opts)) == TemplateFromOptions(fl)
    requires Terminal(lv) && !EndsInNewline(m)
    requires Group(fl, Resolve(frames, Configure(opts).depth)) == grp
    ensures var line := Stamp(dt, fl.msec) + " " + Column(lv, fl.levelBraces) + " " + grp + m + "\n";
      Logged(opts, Tag(lv, b) + m, dt, frames, dump) == Emission(line, line + dump, true)
  {
    CompileOptions(fl);
    TerminalAlwaysEmitted(Configure(opts), lv);
    EmitTaggedLayout(Configure(opts), fl, lv, b, m, dt, frames, dump);
    var line := Stamp(dt, fl.msec) + " " + Column(lv, fl.levelBraces) + " " + grp + m + "\n";
    TerminalCopy(lv, line, dump);
  }

  lemma TerminalCopy(lv: Level, line: string, dump: string)
    requires Terminal(lv)
    ensures ErrPart(lv, line, dump) == line + dump
  {
  }

  /** The error stream gets nothing below ERROR and the line itself at ERROR. */
  lemma ErrorCopy(lv: Level, line: string, dump: string)
    requires Rank(lv) <= Rank(ERROR)
    ensures ErrPart(lv, line, dump) == (if lv == ERROR then line else "") && !Terminal(lv)
  {
  }

  /** Without caller options there is no caller group. */
  lemma NoGroup(fl: Flags, c: Caller, lead: string, m: string)
    requires !AnyCaller(fl)
    ensures Group(fl, c) == "" && lead + "" + m + "\n" == lead + m + "\n"
  {
  }

  /** An untagged line is logged as if it carried the INFO tag. */
  lemma LoggedUntagged(opts: seq<Option>, m: string, dt: Timestamp, frames: seq<Caller>, dump: string)
    requires |m| > 0 && 'a' <= m[0] <= 'z'
    ensures Logged(opts, m, dt, frames, dump) == Logged(opts, Tag(INFO, false) + m, dt, frames, dump)
  {
    Untagged(m);
    EmitInfoTag(Configure(opts), TemplateOf(opts), false, m, dt, frames, dump);
  }

  /** The settings of a debug logger with an explicit format. */
  lemma DebugFormat(f: string)
    ensures Configure([Debug, Format(f)]) == Defaults.(dbg := true, format := f)
  {
    assert [Debug, Format(f)][..1] == [Debug];
    assert [Debug][..0] == [];
  }

  // TestLoggerNoDbg: the WithMsec format, no debug option, no caller.

  const NoDbg: seq<Option> := [Format(WithMsec)]

  lemma NoDbgSetup()
    ensures Configure(NoDbg) == Defaults.(format := WithMsec)
    ensures TemplateText(Configure(NoDbg)) == TemplateFromOptions(MsecOnly)
  {
    FormatOnly(WithMsec);
    WithMsecPreset();
  }

  /** INFO, WARN and ERROR lines, bare or bracketed tag: the tag gives the
      level column and goes; only ERROR is copied to the error stream. */
  lemma NoDbgTagged(lv: Level, b: bool, m: string, dt: Timestamp, frames: seq<Caller>, dump: string)
    requires Rank(INFO) <= Rank(lv) <= Rank(ERROR) && !EndsInNewline(m)
    ensures var line := Stamp(dt, true) + " " + Column(lv, false) + " " + m + "\n";
      Logged(NoDbg, Tag(lv, b) + m, dt, frames, dump) == Emission(line, if lv == ERROR then line else "", false)
  {
    NoDbgSetup();
    var c := Resolve(frames, 0);
    NoGroup(MsecOnly, c, Stamp(dt, true) + " " + Column(lv, false) + " ", m);
    TestLine(NoDbg, MsecOnly, lv, b, m, dt, frames, dump, "");
  }

  /** A line without a tag is an INFO line with the text kept whole. */
  lemma NoDbgUntagged(m: string, dt: Timestamp, frames: seq<Caller>, dump: string)
    requires |m| > 0 && 'a' <= m[0] <= 'z' && !EndsInNewline(m)
    ensures Logged(NoDbg, m, dt, frames, dump) == Emission(Stamp(dt, true) + " " + Column(INFO, false) + " " + m + "\n", "", false)
  {
    LoggedUntagged(NoDbg, m, dt, frames, dump);
    NoDbgTagged(INFO, false, m, dt, frames, dump);
  }

  /** DEBUG lines, bare or bracketed, write nothing. */
  lemma NoDbgDebugDropped(b: bool, m: string, dt: Timestamp, frames: seq<Caller>, dump: string)
    ensures Logged(NoDbg, Tag(DEBUG, b) + m, dt, frames, dump) == Emission("", "", false)
  {
    DebugNeedsSwitch(NoDbg, TemplateOf(NoDbg), b, m, dt, frames, dump);
  }

  /** A message that ends in a line break still gives one line break. */
  lemma NoDbgNewline(m: string, dt: Timestamp, frames: seq<Caller>, dump: string)
    requires !EndsInNewline(m)
    ensures Logged(NoDbg, Tag(INFO, true) + m + "\n", dt, frames, dump) ==
      Emission(Stamp(dt, true) + " " + Column(INFO, false) + " " + m + "\n", "", false)
  {
    assert !EndsInNewline(Tag(INFO, true) + m);
    EmitTrailingNewline(Configure(NoDbg), TemplateOf(NoDbg), Tag(INFO, true) + m, dt, frames, dump);
    NoDbgTagged(INFO, true, m, dt, frames, dump);
  }

  // TestLoggerWithDbg: the FullDebug format with the debug option.

  const WithDbg: seq<Option> := [Debug, Format(FullDebug)]

  lemma WithDbgSetup()
    ensures Configure(WithDbg) == Defaults.(dbg := true, format := FullDebug)
    ensures TemplateText(Configure(WithDbg)) == TemplateFromOptions(FileFunc)
  {
    DebugFormat(FullDebug);
    FullDebugPreset();
  }

  /** DEBUG to ERROR lines carry the caller's file, line and function in
      parentheses after the level column. */
  lemma WithDbgTagged(lv: Level, b: bool, m: string, dt: Timestamp, c: Caller, dump: string)
    requires Rank(DEBUG) <= Rank(lv) <= Rank(ERROR) && !EndsInNewline(m)
    ensures var group := "(" + c.file + ":" + Digits(c.line) + " " + c.func + ") ";
      var line := Stamp(dt, true) + " " + Column(lv, false) + " " + group + m + "\n";
      Logged(WithDbg, Tag(lv, b) + m, dt, [c], dump) == Emission(line, if lv == ERROR then line else "", false)
  {
    WithDbgSetup();
    GroupFileFunc(c);
    TestLine(WithDbg, FileFunc, lv, b, m, dt, [c], dump, "(" + c.file + ":" + Digits(c.line) + " " + c.func + ") ");
  }

  lemma WithDbgUntagged(m: string, dt: Timestamp, c: Caller, dump: string)
    requires |m| > 0 && 'a' <= m[0] <= 'z' && !EndsInNewline(m)
    ensures var group := "(" + c.file + ":" + Digits(c.line) + " " + c.func + ") ";
      Logged(WithDbg, m, dt, [c], dump) == Emission(Stamp(dt, true) + " " + Column(INFO, false) + " " + group + m + "\n", "", false)
  {
    LoggedUntagged(WithDbg, m, dt, [c], dump);
    WithDbgTagged(INFO, false, m, dt, c, dump);
  }

  lemma DebugShortDebugSetup()
    ensures Configure([Debug, Format(ShortDebug)]) == Defaults.(dbg := true, format := ShortDebug)
    ensures TemplateText(Configure([Debug, Format(ShortDebug)])) == TemplateFromOptions(FileOnly)
  {
    DebugFormat(ShortDebug);
    ShortDebugPreset();
  }

  lemma DebugFuncDebugSetup()
    ensures Configure([Debug, Format(FuncDebug)]) == Defaults.(dbg := true, format := FuncDebug)
    ensures TemplateText(Configure([Debug, Format(FuncDebug)])) == TemplateFromOptions(FuncOnly)
  {
    DebugFormat(FuncDebug);
    FuncDebugPreset();
  }

  lemma DebugWithPkgSetup()
    ensures Configure([Debug, Format(WithPkg)]) == Defaults.(dbg := true, format := WithPkg)
    ensures TemplateText(Configure([Debug, Format(WithPkg)])) == TemplateFromOptions(PkgOnly)
  {
    DebugFormat(WithPkg);
    WithPkgPreset();
  }

  /** The WithMsec format with the debug option: DEBUG lines pass, and no
      caller is shown whatever the frames. */
  lemma MsecDebug(b: bool, m: string, dt: Timestamp, frames: seq<Caller>, dump: string)
    requires !EndsInNewline(m)
    ensures Logged([Debug, Format(WithMsec)], Tag(DEBUG, b) + m, dt, frames, dump) ==
      Emission(Stamp(dt, true) + " " + Column(DEBUG, false) + " " + m + "\n", "", false)
  {
    WithMsecPreset();
    DebugFormatPlainLine(WithMsec, MsecOnly, DEBUG, b, m, dt, frames, dump);
  }

  /** The same for flags without caller fields: no caller group. */
  lemma DebugFormatPlainLine(f: string, fl: Flags, lv: Level, b: bool, m: string, dt: Timestamp,
                             frames: seq<Caller>, dump: string)
    requires f == TemplateFromOptions(fl) && !AnyCaller(fl)
    requires Rank(DEBUG) <= Rank(lv) <= Rank(ERROR) && !EndsInNewline(m)
    ensures var line := Stamp(dt, fl.msec) + " " + Column(lv, fl.levelBraces) + " " + m + "\n";
      Logged([Debug, Format(f)], Tag(lv, b) + m, dt, frames, dump) == Emission(line, if lv == ERROR then line else "", false)
  {
    NoGroup(fl, Resolve(frames, 0), Stamp(dt, fl.msec) + " " + Column(lv, fl.levelBraces) + " ", m);
    DebugFormatLine(f, fl, lv, b, m, dt, frames, dump, "");
  }

  /** A call from DEBUG up to ERROR through a debug logger whose format is
      the text some layout flags build. */
  lemma DebugFormatLine(f: string, fl: Flags, lv: Level, b: bool, m: string, dt: Timestamp,
                        frames: seq<Caller>, dump: string, grp: string)
    requires f == TemplateFromOptions(fl)
    requires Rank(DEBUG) <= Rank(lv) <= Rank(ERROR) && !EndsInNewline(m)
    requires Group(fl, Resolve(frames, 0)) == grp
    ensures var line := Stamp(dt, fl.msec) + " " + Column(lv, fl.levelBraces) + " " + grp + m + "\n";
      Logged([Debug, Format(f)], Tag(lv, b) + m, dt, frames, dump) == Emission(line, if lv == ERROR then line else "", false)
  {
    DebugFormat(f);
    TestLine([Debug, Format(f)], fl, lv, b, m, dt, frames, dump, grp);
  }

  /** The ShortDebug format shows the caller's file and line only. */
  lemma ShortDebugLine(b: bool, m: string, dt: Timestamp, c: Caller, dump: string)
    requires !EndsInNewline(m)
    ensures var group := "(" + c.file + ":" + Digits(c.line) + ") ";
      Logged([Debug, Format(ShortDebug)], Tag(DEBUG, b) + m, dt, [c], dump) ==
      Emission(Stamp(dt, true) + " " + Column(DEBUG, false) + " " + group + m + "\n", "", false)
  {
    DebugShortDebugSetup();
    GroupFileOnly(c);
    TestLine([Debug, Format(ShortDebug)], FileOnly, DEBUG, b, m, dt, [c], dump, "(" + c.file + ":" + Digits(c.line) + ") ");
  }

  /** The FuncDebug format shows the caller's function only. */
  lemma FuncDebugLine(lv: Level, b: bool, m: string, dt: Timestamp, c: Caller, dump: string)
    requires Rank(DEBUG) <= Rank(lv) <= Rank(ERROR) && !EndsInNewline(m)
    ensures var group := "(" + c.func + ") ";
      var line := Stamp(dt, true) + " " + Column(lv, false) + " " + group + m + "\n";
      Logged([Debug, Format(FuncDebug)], Tag(lv, b) + m, dt, [c], dump) ==
      Emission(line, if lv == ERROR then line else "", false)
  {
    DebugFuncDebugSetup();
    GroupFuncOnly(c);
    TestLine([Debug, Format(FuncDebug)], FuncOnly, lv, b, m, dt, [c], dump, "(" + c.func + ") ");
  }

  /** PANIC and FATAL through the FuncDebug format: the line goes to both
      streams, the dump follows it on the error stream, the fatal action runs. */
  lemma FuncDebugTerminal(lv: Level, b: bool, m: string, dt: Timestamp, c: Caller, dump: string)
    requires Terminal(lv) && !EndsInNewline(m)
    ensures var group := "(" + c.func + ") ";
      var line := Stamp(dt, true) + " " + Column(lv, false) + " " + group + m + "\n";
      Logged([Debug, Format(FuncDebug)], Tag(lv, b) + m, dt, [c], dump) == Emission(line, line + dump, true)
  {
    DebugFuncDebugSetup();
    GroupFuncOnly(c);
    TestTerminalLine([Debug, Format(FuncDebug)], FuncOnly, lv, b, m, dt, [c], dump, "(" + c.func + ") ");
  }

  // TestLoggerWithPkg.

  /** The WithPkg format shows the caller's package only. */
  lemma WithPkgLine(b: bool, m: string, dt: Timestamp, c: Caller, dump: string)
    requires !EndsInNewline(m)
    ensures var group := "(" + c.pkg + ") ";
      Logged([Debug, Format(WithPkg)], Tag(DEBUG, b) + m, dt, [c], dump) ==
      Emission(Stamp(dt, true) + " " + Column(DEBUG, false) + " " + group + m + "\n", "", false)
  {
    DebugWithPkgSetup();
    GroupPkgOnly(c);
    TestLine([Debug, Format(WithPkg)], PkgOnly, DEBUG, b, m, dt, [c], dump, "(" + c.pkg + ") ");
  }

  // TestLoggerWithCallerDepth: a logger called through a one-frame wrapper.

  lemma DepthSetup(d: nat)
    ensures Configure([Debug, Format(FullDebug), CallerDepth(d)]) == Defaults.(dbg := true, format := FullDebug, depth := d)
    ensures TemplateText(Configure([Debug, Format(FullDebug), CallerDepth(d)])) == TemplateFromOptions(FileFunc)
  {
    assert [Debug, Format(FullDebug), CallerDepth(d)][..2] == [Debug, Format(FullDebug)];
    DebugFormat(FullDebug);
    FullDebugPreset();
  }

  /** With the wrapper's frame first and its caller's next, depth 0 reports
      the wrapper and depth 1 the code that called it. */
  lemma CallerDepthLine(d: nat, b: bool, m: string, dt: Timestamp, wrapper: Caller, outer: Caller, dump: string)
    requires d <= 1 && !EndsInNewline(m)
    ensures var c := if d == 0 then wrapper else outer;
      var group := "(" + c.file + ":" + Digits(c.line) + " " + c.func + ") ";
      Logged([Debug, Format(FullDebug), CallerDepth(d)], Tag(DEBUG, b) + m, dt, [wrapper, outer], dump) ==
      Emission(Stamp(dt, true) + " " + Column(DEBUG, false) + " " + group + m + "\n", "", false)
  {
    var c := if d == 0 then wrapper else outer;
    DepthSetup(d);
    GroupFileFunc(c);
    assert Resolve([wrapper, outer], d) == c;
    TestLine([Debug, Format(FullDebug), CallerDepth(d)], FileFunc, DEBUG, b, m, dt, [wrapper, outer], dump,
             "(" + c.file + ":" + Digits(c.line) + " " + c.func + ") ");
  }

  // TestLoggerWithPanic.

  /** Default options: PANIC and FATAL lines use the plain layout, go to
      both streams with the dump after the copy, and trigger the fatal action. */
  lemma DefaultTerminal(lv: Level, b: bool, m: string, dt: Timestamp, frames: seq<Caller>, dump: string)
    requires Terminal(lv) && !EndsInNewline(m)
    ensures var line := Stamp(dt, false) + " " + Column(lv, false) + " " + m + "\n";
      Logged([], Tag(lv, b) + m, dt, frames, dump) == Emission(line, line + dump, true)
  {
    NoGroup(Plain, Resolve(frames, 0), Stamp(dt, false) + " " + Column(lv, false) + " ", m);
    TestTerminalLine([], Plain, lv, b, m, dt, frames, dump, "");
  }

  /** A FuncDebug logger given a PANIC and then a FATAL line: both lines on
      the standard stream, each followed by the dump on the error stream,
      and two fatal actions. */
  method PanicThenFatal(m: string, dt: Timestamp, c: Caller, dump: string) returns (l: Logger)
    requires !EndsInNewline(m)
    ensures var group := "(" + c.func + ") ";
      var p := Stamp(dt, true) + " " + Column(PANIC, false) + " " + group + m + "\n";
      var f := Stamp(dt, true) + " " + Column(FATAL, false) + " " + group + m + "\n";
      l.out == p + f && l.err == p + dump + f + dump && l.fatalCalls == 2
  {
    FuncDebugTemplate();
    l := new Logger([Debug, Format(FuncDebug)]);
    FuncDebugTerminal(PANIC, true, m, dt, c, dump);
    FuncDebugTerminal(FATAL, true, m, dt, c, dump);
    var opts := [Debug, Format(FuncDebug)];
    assert l.template == TemplateOf(opts);
    l.Logf(Tag(PANIC, true) + m, dt, [c], dump);
    l.Logf(Tag(FATAL, true) + m, dt, [c], dump);
    var group := "(" + c.func + ") ";
    var p := Stamp(dt, true) + " " + Column(PANIC, false) + " " + group + m + "\n";
    var f := Stamp(dt, true) + " " + Column(FATAL, false) + " " + group + m + "\n";
    TwoAppends(p, f, dump);
  }

  /** Two lines appended to empty streams, the error stream with the dump
      after each. */
  lemma TwoAppends(p: string, f: string, dump: string)
    ensures "" + p + f == p + f && "" + (p + dump) + (f + dump) == p + dump + f + dump
  {
  }

  /** A FuncDebug logger compiles its format to the function-only layout. */
  lemma FuncDebugTemplate()
    ensures Compile(TemplateText(Configure([Debug, Format(FuncDebug)]))) == Compiled(Layout(FuncOnly))
  {
    DebugFuncDebugSetup();
    CompileOptions(FuncOnly);
  }

  // TestLoggerWithLevelBraces.

  /** The format the test spells out with "[{{.Level}}]" is the one the
      level-braces option builds. */
  lemma BracesFormat()
    ensures "{{.DT.Format \"2006/01/02 15:04:05\"}} [{{.Level}}] {{.Message}}" == TemplateFromOptions(BracesOnly)
  {
  }

  /** Level braces from that format: the bracketed label padded to seven
      columns. */
  lemma BracesFormatLine(lv: Level, b: bool, m: string, dt: Timestamp, frames: seq<Caller>, dump: string)
    requires Rank(DEBUG) <= Rank(lv) <= Rank(ERROR) && !EndsInNewline(m)
    ensures var line := Stamp(dt, false) + " " + Column(lv, true) + " " + m + "\n";
      Logged([Debug, Format(TemplateFromOptions(BracesOnly))], Tag(lv, b) + m, dt, frames, dump) ==
      Emission(line, if lv == ERROR then line else "", false)
  {
    DebugFormat(TemplateFromOptions(BracesOnly));
    NoGroup(BracesOnly, Resolve(frames, 0), Stamp(dt, false) + " " + Column(lv, true) + " ", m);
    TestLine([Debug, Format(TemplateFromOptions(BracesOnly))], BracesOnly, lv, b, m, dt, frames, dump, "");
  }

  lemma BracesOptionSetup()
    ensures Configure([Debug, LevelBraces]) == Defaults.(dbg := true, flags := BracesOnly)
    ensures TemplateText(Configure([Debug, LevelBraces])) == TemplateFromOptions(BracesOnly)
  {
    assert [Debug, LevelBraces][..1] == [Debug];
    assert [Debug][..0] == [];
  }

  /** The same line from the level-braces option and the built template. */
  lemma BracesOptionLine(lv: Level, b: bool, m: string, dt: Timestamp, frames: seq<Caller>, dump: string)
    requires Rank(DEBUG) <= Rank(lv) <= Rank(ERROR) && !EndsInNewline(m)
    ensures var line := Stamp(dt, false) + " " + Column(lv, true) + " " + m + "\n";
      Logged([Debug, LevelBraces], Tag(lv, b) + m, dt, frames, dump) == Emission(line, if lv == ERROR then line else "", false)
  {
    BracesOptionSetup();
    NoGroup(BracesOnly, Resolve(frames, 0), Stamp(dt, false) + " " + Column(lv, true) + " ", m);
    TestLine([Debug, LevelBraces], BracesOnly, lv, b, m, dt, frames, dump, "");
  }

  // TestLoggerWithTrace.

  /** With the trace option every level up to ERROR is written, TRACE included. */
  lemma TraceLine(lv: Level, b: bool, m: string, dt: Timestamp, frames: seq<Caller>, dump: string)
    requires Rank(lv) <= Rank(ERROR) && !EndsInNewline(m)
    ensures var line := Stamp(dt, false) + " " + Column(lv, false) + " " + m + "\n";
      Logged([Trace], Tag(lv, b) + m, dt, frames, dump) == Emission(line, if lv == ERROR then line else "", false)
  {
    assert [Trace][..0] == [];
    NoGroup(Plain, Resolve(frames, 0), Stamp(dt, false) + " " + Column(lv, false) + " ", m);
    TestLine([Trace], Plain, lv, b, m, dt, frames, dump, "");
  }

  /** With the debug option alone TRACE lines write nothing. */
  lemma DebugDropsTrace(b: bool, m: string, dt: Timestamp, frames: seq<Caller>, dump: string)
    ensures Logged([Debug], Tag(TRACE, b) + m, dt, frames, dump) == Emission("", "", false)
  {
    TraceNeedsSwitch([Debug], TemplateOf([Debug]), b, m, dt, frames, dump);
  }

  // TestLoggerConcurrent, one call after the other.

  lemma DebugOnlySetup()
    ensures Configure([Debug]) == Defaults.(dbg := true)
    ensures Compile(TemplateText(Configure([Debug]))) == Compiled(Layout(Plain))
  {
    assert [Debug][..0] == [];
    CompileOptions(Plain);
  }

  /** A DEBUG call with a break-free message, through a debug logger with a
      break-free template: exactly one line on the standard stream, nothing
      on the error stream, no fatal action. */
  lemma DebugLineOnly(c: Config, t: seq<Segment>, text: string, dt: Timestamp, frames: seq<Caller>, dump: string)
    requires c.dbg && NoBreak(t) && Classify(text).level == DEBUG && OneLine(TrimNewline(text))
    requires forall i :: 0 <= i < |frames| ==>
      OneLine(frames[i].file) && OneLine(frames[i].func) && OneLine(frames[i].pkg)
    ensures var e := Emit(c, t, text, dt, frames, dump);
      Newlines(e.out) == 1 && e.err == "" && !e.fatal
  {
    EmitOneLine(c, t, text, dt, frames, dump);
    EmitRoute(c, t, text, dt, frames, dump);
  }

  /** A "[DEBUG] " tag in front of a break-free message gives a break-free
      DEBUG call. */
  lemma DebugText(m: string)
    requires OneLine(m)
    ensures var text := Tag(DEBUG, true) + m;
      Classify(text).level == DEBUG && OneLine(TrimNewline(text))
  {
    var text := Tag(DEBUG, true) + m;
    ClassifyTagged(DEBUG, true, m);
    OneLineJoin(Tag(DEBUG, true), m);
    assert !EndsInNewline(text);
  }

  lemma OneLineJoin(a: string, m: string)
    requires OneLine(a) && OneLine(m)
    ensures OneLine(a + m)
  {
    forall i | 0 <= i < |a + m| ensures (a + m)[i] != '\n' {
      if i < |a| {
        assert (a + m)[i] == a[i];
      } else {
        assert (a + m)[i] == m[i - |a|];
      }
    }
  }

  /** A burst of DEBUG calls on one debug logger with the default layout:
      one line per call on the standard stream and nothing on the error stream. */
  method Burst(msgs: seq<string>, dt: Timestamp, frames: seq<Caller>, dump: string) returns (l: Logger)
    requires forall i :: 0 <= i < |msgs| ==> OneLine(msgs[i])
    requires forall i :: 0 <= i < |frames| ==>
      OneLine(frames[i].file) && OneLine(frames[i].func) && OneLine(frames[i].pkg)
    ensures Newlines(l.out) == |msgs| && l.err == "" && l.fatalCalls == 0
  {
    DebugOnlySetup();
    LayoutNoBreak(Plain);
    l := new Logger([Debug]);
    var i := 0;
    while i < |msgs|
      invariant 0 <= i <= |msgs|
      invariant l.config.dbg && l.template == Layout(Plain)
      invariant Newlines(l.out) == i && l.err == "" && l.fatalCalls == 0
    {
      var text := Tag(DEBUG, true) + msgs[i];
      DebugText(msgs[i]);
      DebugLineOnly(l.config, l.template, text, dt, frames, dump);
      NewlinesConcat(l.out, Emit(l.config, l.template, text, dt, frames, dump).out);
      l.Logf(text, dt, frames, dump);
      i := i + 1;
    }
  }
}
