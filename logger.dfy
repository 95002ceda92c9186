/** The logger: options, the minimum-level gate, the caller-depth choice and
    the routing of each line to the standard and the error stream. */
module Logging {
  import opened Levels
  import opened Clock
  import opened Classifier
  import opened Templates
  import opened Rendering

  /** The options a logger is built from. */
  datatype Option =
    | Debug
    | Trace
    | Msec
    | LevelBraces
    | CallerFile
    | CallerFunc
    | CallerPkg
    | Format(text: string)
    | CallerDepth(depth: nat)

  /** The settings the options leave behind; an empty format means the
      template is built from the layout flags. */
  datatype Config = Config(dbg: bool, trace: bool, flags: Flags, format: string, depth: nat)

  const Defaults := Config(false, false, Flags(false, false, false, false, false), "", 0)

  /** The effect of one option on the settings. */
  function Apply(c: Config, o: Option): Config {
    match o
    case Debug => c.(dbg := true)
    case Trace => c.(trace := true)
    case Msec => c.(flags := c.flags.(msec := true))
    case LevelBraces => c.(flags := c.flags.(levelBraces := true))
    case CallerFile => c.(flags := c.flags.(callerFile := true))
    case CallerFunc => c.(flags := c.flags.(callerFunc := true))
    case CallerPkg => c.(flags := c.flags.(callerPkg := true))
    case Format(text) => c.(format := text)
    case CallerDepth(d) => c.(depth := d)
  }

  /** The options applied in the order given, starting from the defaults. */
  function Configure(opts: seq<Option>): Config {
    if opts == [] then Defaults else Apply(Configure(opts[..|opts| - 1]), opts[|opts| - 1])
  }

  /** The switches are set exactly by the options that name them, whatever
      their order and however often they are repeated. */
  lemma {:induction false} ConfigureSwitches(opts: seq<Option>)
    ensures var c := Configure(opts);
      c.dbg == (Debug in opts) && c.trace == (Trace in opts) &&
      c.flags == Flags(Msec in opts, LevelBraces in opts, CallerFile in opts, CallerFunc in opts, CallerPkg in opts)
  {
    if opts != [] {
      var init := opts[..|opts| - 1];
      var last := opts[|opts| - 1];
      ConfigureSwitches(init);
      ApplySwitches(Configure(init), last);
      InInitOrLast(opts, Debug);
      InInitOrLast(opts, Trace);
      InInitOrLast(opts, Msec);
      InInitOrLast(opts, LevelBraces);
      InInitOrLast(opts, CallerFile);
      InInitOrLast(opts, CallerFunc);
      InInitOrLast(opts, CallerPkg);
    }
  }

  /** One option sets at most the switch it names. */
  lemma ApplySwitches(c: Config, o: Option)
    ensures var r := Apply(c, o);
      r.dbg == (c.dbg || o == Debug) && r.trace == (c.trace || o == Trace) &&
      r.flags == Flags(c.flags.msec || o == Msec, c.flags.levelBraces || o == LevelBraces,
        c.flags.callerFile || o == CallerFile, c.flags.callerFunc || o == CallerFunc, c.flags.callerPkg || o == CallerPkg)
  {
  }

  lemma InInitOrLast(opts: seq<Option>, o: Option)
    requires opts != []
    ensures o in opts <==> o in opts[..|opts| - 1] || o == opts[|opts| - 1]
  {
    assert opts == opts[..|opts| - 1] + [opts[|opts| - 1]];
  }

  /** Whether the i-th option is the last one of its kind (Format or
      CallerDepth). */
  predicate LastFormatAt(opts: seq<Option>, i: int) {
    0 <= i < |opts| && opts[i].Format? && forall j :: i < j < |opts| ==> !opts[j].Format?
  }

  predicate LastDepthAt(opts: seq<Option>, i: int) {
    0 <= i < |opts| && opts[i].CallerDepth? && forall j :: i < j < |opts| ==> !opts[j].CallerDepth?
  }

  /** Without a Format option the format stays empty. */
  lemma {:induction false} ConfigureNoFormat(opts: seq<Option>)
    requires forall i :: 0 <= i < |opts| ==> !opts[i].Format?
    ensures Configure(opts).format == ""
  {
    if opts != [] {
      var init := opts[..|opts| - 1];
      assert forall i :: 0 <= i < |init| ==> init[i] == opts[i];
      ConfigureNoFormat(init);
    }
  }

  /** The last Format option sets the format, whatever comes after it. */
  lemma {:induction false} ConfigureLastFormat(opts: seq<Option>, i: int)
    requires LastFormatAt(opts, i)
    ensures Configure(opts).format == opts[i].text
  {
    var init := opts[..|opts| - 1];
    if i < |opts| - 1 {
      assert LastFormatAt(init, i) by {
        assert forall j :: 0 <= j < |init| ==> init[j] == opts[j];
      }
      ConfigureLastFormat(init, i);
    }
  }

  /** Without a CallerDepth option the depth is 0. */
  lemma {:induction false} ConfigureNoDepth(opts: seq<Option>)
    requires forall i :: 0 <= i < |opts| ==> !opts[i].CallerDepth?
    ensures Configure(opts).depth == 0
  {
    if opts != [] {
      var init := opts[..|opts| - 1];
      assert forall i :: 0 <= i < |init| ==> init[i] == opts[i];
      ConfigureNoDepth(init);
    }
  }

  /** The last CallerDepth option sets the depth, whatever comes after it. */
  lemma {:induction false} ConfigureLastDepth(opts: seq<Option>, i: int)
    requires LastDepthAt(opts, i)
    ensures Configure(opts).depth == opts[i].depth
  {
    var init := opts[..|opts| - 1];
    if i < |opts| - 1 {
      assert LastDepthAt(init, i) by {
        assert forall j :: 0 <= j < |init| ==> init[j] == opts[j];
      }
      ConfigureLastDepth(init, i);
    }
  }

  /** The template text in use: the explicit format, or the one the layout
      flags build. */
  function TemplateText(c: Config): string {
    if c.format != "" then c.format else TemplateFromOptions(c.flags)
  }

  /** Without an explicit format the template compiles to the flags' layout. */
  lemma DefaultTemplate(c: Config)
    requires c.format == ""
    ensures Compile(TemplateText(c)) == Compiled(Layout(c.flags))
  {
    CompileOptions(c.flags);
  }

  /** The gate: TRACE lines need the trace option, DEBUG lines the debug or
      the trace option, everything from INFO up always passes. */
  predicate Enabled(c: Config, lv: Level) {
    match lv
    case TRACE => c.trace
    case DEBUG => c.dbg || c.trace
    case _ => true
  }

  /** The lowest level the settings let through. */
  function Threshold(c: Config): Level {
    if c.trace then TRACE else if c.dbg then DEBUG else INFO
  }

  /** The gate is a minimum level: a line passes exactly when its level is
      at or above the threshold. */
  lemma GateIsThreshold(c: Config, lv: Level)
    ensures Enabled(c, lv) <==> Rank(Threshold(c)) <= Rank(lv)
  {
  }

  /** The caller frame reported at the configured depth; frames[0] is the
      code that called the logger, frames[1] its caller, and so on. */
  function Resolve(frames: seq<Caller>, depth: nat): Caller {
    if depth < |frames| then frames[depth] else NoCaller
  }

  /** One more level of depth skips exactly one frame: a logger with depth
      d + 1 called through a one-frame wrapper reports what a logger with
      depth d reports when called directly from the wrapper's caller. */
  lemma ResolveThroughWrapper(wrapper: Caller, frames: seq<Caller>, d: nat)
    ensures Resolve([wrapper] + frames, d + 1) == Resolve(frames, d)
  {
  }

  predicate EndsInNewline(s: string) {
    |s| > 0 && s[|s| - 1] == '\n'
  }

  /** The message without the single line break it may end with. */
  function TrimNewline(s: string): (r: string)
    ensures EndsInNewline(s) ==> s == r + "\n"
    ensures !EndsInNewline(s) ==> r == s
  {
    if EndsInNewline(s) then s[..|s| - 1] else s
  }

  /** What one call writes: to the standard stream, to the error stream,
      and whether it triggers the fatal action. */
  datatype Emission = Emission(out: string, err: string, fatal: bool)

  /** The error stream's share of a line: nothing below ERROR; the line
      itself from ERROR up; PANIC and FATAL add the stack dump. */
  function ErrPart(lv: Level, line: string, dump: string): string {
    if Rank(lv) < Rank(ERROR) then ""
    else if Terminal(lv) then line + dump
    else line
  }

  /** The record one call produces: its classified level, its message without
      a trailing line break, and the caller frame at the configured depth. */
  function RecordOf(c: Config, text: string, dt: Timestamp, frames: seq<Caller>): Record {
    var k := Classify(text);
    Record(dt, k.level, TrimNewline(k.message), Resolve(frames, c.depth))
  }

  /** Everything one call with the interpolated text writes. */
  function Emit(c: Config, t: seq<Segment>, text: string, dt: Timestamp, frames: seq<Caller>, dump: string): Emission {
    var rec := RecordOf(c, text, dt, frames);
    if !Enabled(c, rec.level) then Emission("", "", false)
    else
      var line := Render(t, rec) + "\n";
      Emission(line, ErrPart(rec.level, line, dump), Terminal(rec.level))
  }

  /** A call writes anything at all exactly when its level passes the gate;
      a line it writes ends with a line break. */
  lemma EmitGate(c: Config, t: seq<Segment>, text: string, dt: Timestamp, frames: seq<Caller>, dump: string)
    ensures var e := Emit(c, t, text, dt, frames, dump);
      (e.out != "" <==> Enabled(c, Classify(text).level)) &&
      (e.out == "" ==> e == Emission("", "", false)) &&
      (e.out != "" ==> EndsInNewline(e.out))
  {
  }

  /** Routing: every line goes to the standard stream; the error stream gets
      a copy exactly for ERROR and above; PANIC and FATAL follow it with the
      stack dump and are the only levels that trigger the fatal action. */
  lemma EmitRoute(c: Config, t: seq<Segment>, text: string, dt: Timestamp, frames: seq<Caller>, dump: string)
    requires Enabled(c, Classify(text).level)
    ensures var e := Emit(c, t, text, dt, frames, dump);
      var lv := Classify(text).level;
      (e.err == "" <==> Rank(lv) < Rank(ERROR)) &&
      (lv == ERROR ==> e.err == e.out) &&
      (Terminal(lv) ==> e.err == e.out + dump) &&
      (e.fatal <==> Terminal(lv))
  {
  }

  /** PANIC and FATAL are never filtered out, whatever the options. */
  lemma TerminalAlwaysEmitted(c: Config, lv: Level)
    requires Terminal(lv)
    ensures Enabled(c, lv)
  {
  }

  /** A line break at the end of the text makes no difference: the line
      ends with exactly one. */
  lemma EmitTrailingNewline(c: Config, t: seq<Segment>, text: string, dt: Timestamp, frames: seq<Caller>, dump: string)
    requires !EndsInNewline(text)
    ensures Emit(c, t, text + "\n", dt, frames, dump) == Emit(c, t, text, dt, frames, dump)
  {
    ClassifyNewline(text);
    var k := Classify(text);
    ClassifySplits(text);
    assert TrimNewline(k.message + "\n") == k.message;
  }

  /** An explicit INFO tag, bare or in brackets, writes the same as no tag. */
  lemma EmitInfoTag(c: Config, t: seq<Segment>, bracketed: bool, text: string, dt: Timestamp, frames: seq<Caller>, dump: string)
    requires !Tagged(text)
    ensures Emit(c, t, Tag(INFO, bracketed) + text, dt, frames, dump) == Emit(c, t, text, dt, frames, dump)
  {
    InfoTagInvisible(bracketed, text);
  }

  /** With the flags' own layout the standard stream gets the line the flags
      describe, with the message stripped of its tag and final line break. */
  lemma EmitLayoutLine(c: Config, text: string, dt: Timestamp, frames: seq<Caller>, dump: string)
    requires Enabled(c, Classify(text).level)
    ensures Emit(c, Layout(c.flags), text, dt, frames, dump).out == Line(c.flags, RecordOf(c, text, dt, frames)) + "\n"
  {
    RenderLayout(c.flags, RecordOf(c, text, dt, frames));
  }

  /** Without the debug or the trace option DEBUG lines are dropped. */
  lemma DebugNeedsSwitch(opts: seq<Option>, t: seq<Segment>, bracketed: bool, m: string,
                         dt: Timestamp, frames: seq<Caller>, dump: string)
    requires Debug !in opts && Trace !in opts
    ensures Emit(Configure(opts), t, Tag(DEBUG, bracketed) + m, dt, frames, dump) == Emission("", "", false)
  {
    ConfigureSwitches(opts);
    ClassifyTagged(DEBUG, bracketed, m);
  }

  /** Without the trace option TRACE lines are dropped, debug or not. */
  lemma TraceNeedsSwitch(opts: seq<Option>, t: seq<Segment>, bracketed: bool, m: string,
                         dt: Timestamp, frames: seq<Caller>, dump: string)
    requires Trace !in opts
    ensures Emit(Configure(opts), t, Tag(TRACE, bracketed) + m, dt, frames, dump) == Emission("", "", false)
  {
    ConfigureSwitches(opts);
    ClassifyTagged(TRACE, bracketed, m);
  }

  /** The trace option lets every level through; the debug option every
      level but TRACE. */
  lemma SwitchesOpenGate(opts: seq<Option>, lv: Level)
    ensures Trace in opts ==> Enabled(Configure(opts), lv)
    ensures Debug in opts && lv != TRACE ==> Enabled(Configure(opts), lv)
  {
    ConfigureSwitches(opts);
  }

  /** A tagged call through an options layout: the line is the layout's lead
      for the tag's level followed by the message; the routing follows the level. */
  lemma EmitTaggedLayout(c: Config, fl: Flags, lv: Level, bracketed: bool, m: string,
                         dt: Timestamp, frames: seq<Caller>, dump: string)
    requires Enabled(c, lv) && !EndsInNewline(m)
    ensures var line := Lead(fl, Record(dt, lv, m, Resolve(frames, c.depth))) + m + "\n";
      Emit(c, Layout(fl), Tag(lv, bracketed) + m, dt, frames, dump) == Emission(line, ErrPart(lv, line, dump), Terminal(lv))
  {
    var rec := Record(dt, lv, m, Resolve(frames, c.depth));
    ClassifyTagged(lv, bracketed, m);
    assert RecordOf(c, Tag(lv, bracketed) + m, dt, frames) == rec;
    RenderLayout(fl, rec);
  }

  /** The number of line breaks in a string. */
  function Newlines(s: string): nat {
    if s == [] then 0 else Newlines(s[..|s| - 1]) + (if s[|s| - 1] == '\n' then 1 else 0)
  }

  lemma {:induction false} NewlinesConcat(a: string, b: string)
    ensures Newlines(a + b) == Newlines(a) + Newlines(b)
    decreases |b|
  {
    if b == [] {
      assert a + b == a;
    } else {
      assert (a + b)[..|a + b| - 1] == a + b[..|b| - 1];
      NewlinesConcat(a, b[..|b| - 1]);
    }
  }

  lemma {:induction false} NewlinesOneLine(s: string)
    requires OneLine(s)
    ensures Newlines(s) == 0
  {
    if s != [] {
      var init := s[..|s| - 1];
      assert s == init + [s[|s| - 1]];
      OneLineParts(init, [s[|s| - 1]]);
      NewlinesOneLine(init);
    }
  }

  /** Dropping the final line break of a text drops it from its non-empty tail. */
  lemma TrimTail(a: string, m: string)
    requires m != []
    ensures TrimNewline(a + m) == a + TrimNewline(m)
  {
    assert (a + m)[|a + m| - 1] == m[|m| - 1];
    if EndsInNewline(m) {
      assert (a + m)[..|a + m| - 1] == a + m[..|m| - 1];
    }
  }

  lemma OneLineParts(a: string, m: string)
    requires OneLine(a + m)
    ensures OneLine(a) && OneLine(m)
  {
    forall i | 0 <= i < |a| ensures a[i] != '\n' {
      assert a[i] == (a + m)[i];
    }
    forall i | 0 <= i < |m| ensures m[i] != '\n' {
      assert m[i] == (a + m)[|a| + i];
    }
  }

  /** A text free of line breaks, apart from a final one that is dropped,
      leaves a message free of them once classified. */
  lemma MessageOneLine(text: string)
    requires OneLine(TrimNewline(text))
    ensures OneLine(TrimNewline(Classify(text).message))
  {
    ClassifySplits(text);
    var k := Classify(text);
    if k.message != [] && exists b :: text == Tag(k.level, b) + k.message {
      var b :| text == Tag(k.level, b) + k.message;
      TrimTail(Tag(k.level, b), k.message);
      OneLineParts(Tag(k.level, b), TrimNewline(k.message));
    }
  }

  /** A call that writes, with a break-free template, message and caller,
      writes exactly one line to the standard stream. */
  lemma EmitOneLine(c: Config, t: seq<Segment>, text: string, dt: Timestamp, frames: seq<Caller>, dump: string)
    requires NoBreak(t) && OneLine(TrimNewline(text))
    requires forall i :: 0 <= i < |frames| ==>
      OneLine(frames[i].file) && OneLine(frames[i].func) && OneLine(frames[i].pkg)
    requires Enabled(c, Classify(text).level)
    ensures Newlines(Emit(c, t, text, dt, frames, dump).out) == 1
  {
    var rec := RecordOf(c, text, dt, frames);
    MessageOneLine(text);
    RenderOneLine(t, rec);
    NewlinesOneLine(Render(t, rec));
    NewlinesConcat(Render(t, rec), "\n");
  }

  /** A logger writing to two in-memory streams and counting the fatal
      actions it triggers. */
  class Logger {
    const config: Config
    const template: seq<Segment>
    var out: string
    var err: string
    var fatalCalls: nat

    /** A logger from the options; the template text must compile. */
    constructor(opts: seq<Option>)
      requires Compile(TemplateText(Configure(opts))).Compiled?
      ensures config == Configure(opts)
      ensures template == Compile(TemplateText(config)).t && Text(template) == TemplateText(config)
      ensures out == "" && err == "" && fatalCalls == 0
    {
      config := Configure(opts);
      template := Compile(TemplateText(Configure(opts))).t;
      out, err, fatalCalls := "", "", 0;
      CompileSound(TemplateText(Configure(opts)));
    }

    /** Logs one call's interpolated text, with the clock reading, the
        caller frames and the stack dump taken at the call. */
    method Logf(text: string, dt: Timestamp, frames: seq<Caller>, dump: string)
      modifies this
      ensures var e := Emit(config, template, text, dt, frames, dump);
        out == old(out) + e.out && err == old(err) + e.err &&
        fatalCalls == old(fatalCalls) + (if e.fatal then 1 else 0)
    {
      var k := Classify(text);
      if !Enabled(config, k.level) {
        return;
      }
      var rec := Record(dt, k.level, TrimNewline(k.message), Resolve(frames, config.depth));
      var line := Render(template, rec) + "\n";
      out := out + line;
      if Rank(k.level) >= Rank(ERROR) {
        err := err + line;
      }
      if Terminal(k.level) {
        err := err + dump;
        fatalCalls := fatalCalls + 1;
      }
    }
  }
}
