/** Rendering one log record through a compiled template. */
module Rendering {
  import opened Decimal
  import opened Levels
  import opened Clock
  import opened Templates

  /** The caller frame a record reports: the file as "dir/file.go", the line,
      the qualified function name and the package name. */
  datatype Caller = Caller(file: string, line: nat, func: string, pkg: string)

  /** The frame reported when the stack is shallower than the requested depth. */
  const NoCaller := Caller("", 0, "", "")

  /** Everything one log line is made from. */
  datatype Record = Record(dt: Timestamp, level: Level, message: string, caller: Caller)

  /** The value a template element takes for a record. */
  function Field(seg: Segment, rec: Record): string {
    match seg
    case Lit(c) => [c]
    case TimeField(msec) => Stamp(rec.dt, msec)
    case LevelField(braces) => Column(rec.level, braces)
    case MessageField => rec.message
    case FileField => rec.caller.file
    case LineField => Digits(rec.caller.line)
    case FuncField => rec.caller.func
    case PkgField => rec.caller.pkg
  }

  function Fields(rec: Record): Segment -> string {
    seg => Field(seg, rec)
  }

  /** The record written out through the template, without the line end. */
  function Render(t: seq<Segment>, rec: Record): string {
    Expand(t, Fields(rec))
  }

  /** The caller group of a line: the caller values the options select,
      "file:line", then the function, then the package, space separated. */
  function CallerParts(fl: Flags, c: Caller): seq<string> {
    (if fl.callerFile then [c.file + ":" + Digits(c.line)] else []) +
    (if fl.callerFunc then [c.func] else []) +
    (if fl.callerPkg then [c.pkg] else [])
  }

  /** The parenthesised caller group followed by a space, present only
      when some caller option is set. */
  function Group(fl: Flags, c: Caller): string {
    if AnyCaller(fl) then "(" + JoinSpaced(CallerParts(fl, c)) + ") " else ""
  }

  /** The part of an options line that comes before the message. */
  function Lead(fl: Flags, rec: Record): string {
    Stamp(rec.dt, fl.msec) + " " + Column(rec.level, fl.levelBraces) + " " + Group(fl, rec.caller)
  }

  /** The line the layout options describe: timestamp, level column, the
      caller group, message. */
  function Line(fl: Flags, rec: Record): string {
    Lead(fl, rec) + rec.message
  }

  /** Rendering through the options' layout gives exactly the line they describe. */
  lemma RenderLayout(fl: Flags, rec: Record)
    ensures Render(Layout(fl), rec) == Line(fl, rec)
  {
    FieldsKeepLiterals(rec);
    ExpandLayout(fl, Fields(rec));
    LayoutFields(fl, rec);
  }

  /** The record's values in the places the layout expansion leaves for them. */
  lemma LayoutFields(fl: Flags, rec: Record)
    ensures var f := Fields(rec);
      f(TimeField(fl.msec)) + " " + f(LevelField(fl.levelBraces)) + " " +
      (if AnyCaller(fl) then "(" + JoinSpaced(CallerValues(fl, f)) + ") " else "") + f(MessageField) ==
      Line(fl, rec)
  {
    FieldsCallerValues(fl, rec);
  }

  lemma FieldsKeepLiterals(rec: Record)
    ensures KeepsLiterals(Fields(rec))
  {
  }

  lemma FieldsCallerValues(fl: Flags, rec: Record)
    ensures CallerValues(fl, Fields(rec)) == CallerParts(fl, rec.caller)
  {
  }

  /** The message closes the line, and where it starts does not depend on
      the level: the level column has the same width for every level. */
  lemma MessageAligned(fl: Flags, r1: Record, r2: Record)
    requires r1.dt == r2.dt && r1.caller == r2.caller
    ensures Render(Layout(fl), r1) == Lead(fl, r1) + r1.message
    ensures |Lead(fl, r1)| == |Lead(fl, r2)|
  {
    RenderLayout(fl, r1);
    RenderLayout(fl, r2);
  }

  /** The level column follows the timestamp and a space, names the level
      and is followed by a space. */
  lemma LevelColumnAt(fl: Flags, rec: Record)
    ensures var line, stamp, column := Line(fl, rec), Stamp(rec.dt, fl.msec), Column(rec.level, fl.levelBraces);
      |stamp| + |column| + 1 < |line| && line[..|stamp|] == stamp && line[|stamp|] == ' ' &&
      line[|stamp| + 1..|stamp| + 1 + |column|] == column && line[|stamp| + 1 + |column|] == ' '
  {
    SpaceSeparated(Line(fl, rec), Stamp(rec.dt, fl.msec), Column(rec.level, fl.levelBraces), Group(fl, rec.caller), rec.message);
  }

  /** Where the parts of "a b cd" sit. */
  lemma SpaceSeparated(s: string, a: string, b: string, c: string, d: string)
    requires s == a + " " + b + " " + c + d
    ensures |a| + |b| + 1 < |s| && s[..|a|] == a && s[|a|] == ' ' &&
      s[|a| + 1..|a| + 1 + |b|] == b && s[|a| + 1 + |b|] == ' '
  {
    assert s == a + " " + b + " " + (c + d);
    ThreeParts(a, b, c + d, " ");
  }

  /** Whether a template mentions any caller field. */
  predicate UsesCaller(t: seq<Segment>) {
    exists i :: 0 <= i < |t| && t[i] in {FileField, LineField, FuncField, PkgField}
  }

  /** A template without caller fields renders the same line whatever the
      caller frame is. */
  lemma {:induction false} CallerIrrelevant(t: seq<Segment>, r1: Record, r2: Record)
    requires !UsesCaller(t)
    requires r1.dt == r2.dt && r1.level == r2.level && r1.message == r2.message
    ensures Render(t, r1) == Render(t, r2)
  {
    if t != [] {
      assert !UsesCaller(t[1..]) by {
        forall i | 0 <= i < |t[1..]| ensures t[1..][i] !in {FileField, LineField, FuncField, PkgField} {
          assert t[1..][i] == t[i + 1];
        }
      }
      assert t[0] !in {FileField, LineField, FuncField, PkgField} by {
        assert 0 < |t|;
      }
      CallerIrrelevant(t[1..], r1, r2);
    }
  }

  /** Layouts use caller fields exactly when some caller option is set. */
  lemma LayoutUsesCaller(fl: Flags)
    ensures UsesCaller(Layout(fl)) <==> AnyCaller(fl)
  {
    var t := Layout(fl);
    if AnyCaller(fl) {
      var items := CallerItems(fl);
      var inner := Spaced(items);
      assert items[0][0] in {FileField, FuncField, PkgField};
      assert |items| >= 1;
      SpacedStarts(items);
      assert t[5] == inner[0];
    } else {
      assert t == [TimeField(fl.msec), Lit(' '), LevelField(fl.levelBraces), Lit(' '), MessageField];
    }
  }

  lemma SpacedStarts(items: seq<seq<Segment>>)
    requires |items| >= 1 && |items[0]| >= 1
    ensures |Spaced(items)| >= 1 && Spaced(items)[0] == items[0][0]
  {
  }

  /** Whether a string holds no line break. */
  predicate OneLine(s: string) {
    '\n' !in s
  }

  lemma DigitsOneLine(s: string)
    requires AllDigits(s)
    ensures OneLine(s)
  {
  }

  lemma StampOneLine(t: Timestamp, msec: bool)
    ensures OneLine(Stamp(t, msec))
  {
    DigitsOneLine(ZeroPad(t.year, 4));
    DigitsOneLine(ZeroPad(t.month, 2));
    DigitsOneLine(ZeroPad(t.day, 2));
    DigitsOneLine(ZeroPad(t.hour, 2));
    DigitsOneLine(ZeroPad(t.minute, 2));
    DigitsOneLine(ZeroPad(t.second, 2));
    DigitsOneLine(ZeroPad(Millis(t), 3));
  }

  lemma ColumnOneLine(lv: Level, braces: bool)
    ensures OneLine(Column(lv, braces))
  {
  }

  /** Templates whose literal text holds no line break. */
  predicate NoBreak(t: seq<Segment>) {
    forall i :: 0 <= i < |t| ==> t[i] != Lit('\n')
  }

  /** The record values a line is made from hold no line break. */
  predicate RecordOneLine(rec: Record) {
    OneLine(rec.message) && OneLine(rec.caller.file) && OneLine(rec.caller.func) && OneLine(rec.caller.pkg)
  }

  lemma FieldOneLine(seg: Segment, rec: Record)
    requires seg != Lit('\n') && RecordOneLine(rec)
    ensures OneLine(Field(seg, rec))
  {
    match seg
    case TimeField(msec) => StampOneLine(rec.dt, msec);
    case LevelField(braces) => ColumnOneLine(rec.level, braces);
    case LineField => DigitsOneLine(Digits(rec.caller.line));
    case _ =>
  }

  /** A template without line breaks renders a record without line breaks
      as a single line. */
  lemma {:induction false} RenderOneLine(t: seq<Segment>, rec: Record)
    requires NoBreak(t) && RecordOneLine(rec)
    ensures OneLine(Render(t, rec))
  {
    if t != [] {
      assert t[0] != Lit('\n');
      FieldOneLine(t[0], rec);
      assert NoBreak(t[1..]) by {
        forall i | 0 <= i < |t[1..]| ensures t[1..][i] != Lit('\n') {
          assert t[1..][i] == t[i + 1];
        }
      }
      RenderOneLine(t[1..], rec);
    }
  }

  /** The options' layouts hold no line break. */
  lemma LayoutNoBreak(fl: Flags)
    ensures NoBreak(Layout(fl))
  {
    LayoutLiterals(fl);
  }

}
