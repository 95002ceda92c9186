/** Log-line templates: the closed vocabulary of template actions the logger
    uses, the template text built from the layout options, the named preset
    formats, and the compiler that turns template text into segments. */
module Templates {

  /** One element of a compiled template: a literal character or an action. */
  datatype Segment =
    | Lit(c: char)
    | TimeField(msec: bool)        // {{.DT.Format "2006/01/02 15:04:05"}}, with ".000" when msec
    | LevelField(braces: bool)     // {{.Level}}, or [{{.Level}}] with level braces
    | MessageField                 // {{.Message}}
    | FileField                    // {{.CallerFile}}
    | LineField                    // {{.CallerLine}}
    | FuncField                    // {{.CallerFunc}}
    | PkgField                     // {{.CallerPkg}}

  /** The template text of one segment. */
  function Action(seg: Segment): string {
    match seg
    case Lit(c) => [c]
    case TimeField(msec) =>
      if msec then "{{.DT.Format \"2006/01/02 15:04:05.000\"}}" else "{{.DT.Format \"2006/01/02 15:04:05\"}}"
    case LevelField(braces) => if braces then "[{{.Level}}]" else "{{.Level}}"
    case MessageField => "{{.Message}}"
    case FileField => "{{.CallerFile}}"
    case LineField => "{{.CallerLine}}"
    case FuncField => "{{.CallerFunc}}"
    case PkgField => "{{.CallerPkg}}"
  }

  /** A template expanded segment by segment: with `Action` this gives the
      template text, with a record's field values it gives a log line. */
  function Expand(t: seq<Segment>, f: Segment -> string): string {
    if t == [] then "" else f(t[0]) + Expand(t[1..], f)
  }

  /** The template text of a compiled template. */
  function Text(t: seq<Segment>): string {
    Expand(t, Action)
  }

  /** An expansion that writes literal characters as they are. */
  ghost predicate KeepsLiterals(f: Segment -> string) {
    forall c: char :: f(Lit(c)) == [c]
  }

  lemma {:induction false} ExpandConcat(a: seq<Segment>, b: seq<Segment>, f: Segment -> string)
    ensures Expand(a + b, f) == Expand(a, f) + Expand(b, f)
  {
    if a == [] {
      assert a + b == b;
    } else {
      assert (a + b)[0] == a[0];
      assert (a + b)[1..] == a[1..] + b;
      ExpandConcat(a[1..], b, f);
    }
  }

  lemma ExpandCons(x: Segment, t: seq<Segment>, f: Segment -> string)
    ensures Expand([x] + t, f) == f(x) + Expand(t, f)
  {
    assert ([x] + t)[0] == x;
    assert ([x] + t)[1..] == t;
  }

  /** The layout options that shape the default template. */
  datatype Flags = Flags(msec: bool, levelBraces: bool, callerFile: bool, callerFunc: bool, callerPkg: bool)

  predicate AnyCaller(fl: Flags) {
    fl.callerFile || fl.callerFunc || fl.callerPkg
  }

  /** Strings joined by single spaces. */
  function JoinSpaced(parts: seq<string>): string {
    if parts == [] then ""
    else if |parts| == 1 then parts[0]
    else parts[0] + " " + JoinSpaced(parts[1..])
  }

  lemma JoinTwo(a: string, b: string)
    ensures JoinSpaced([] + [a] + [b]) == a + " " + b
    ensures JoinSpaced([a] + [b] + []) == a + " " + b
  {
    assert [] + [a] + [b] == [a, b] == [a] + [b] + [];
    assert [a, b][1..] == [b];
  }

  /** The template text the logger builds from its layout options when no
      explicit format is given: timestamp, level, the parenthesised caller
      group when any caller option is set, and the message. */
  function TemplateFromOptions(fl: Flags): string {
    var timestamp := if fl.msec then "{{.DT.Format \"2006/01/02 15:04:05.000\"}}" else "{{.DT.Format \"2006/01/02 15:04:05\"}}";
    var level := if fl.levelBraces then "[{{.Level}}]" else "{{.Level}}";
    var parts :=
      (if fl.callerFile then ["{{.CallerFile}}" + ":" + "{{.CallerLine}}"] else []) +
      (if fl.callerFunc then ["{{.CallerFunc}}"] else []) +
      (if fl.callerPkg then ["{{.CallerPkg}}"] else []);
    var caller := if AnyCaller(fl) then "(" + JoinSpaced(parts) + ") " else "";
    timestamp + " " + level + " " + caller + "{{.Message}}"
  }

  /** The caller fields the options ask for, in their fixed order: file:line,
      then function, then package. */
  function CallerItems(fl: Flags): seq<seq<Segment>> {
    (if fl.callerFile then [[FileField, Lit(':'), LineField]] else []) +
    (if fl.callerFunc then [[FuncField]] else []) +
    (if fl.callerPkg then [[PkgField]] else [])
  }

  /** Segment lists separated by a space. */
  function Spaced(items: seq<seq<Segment>>): seq<Segment> {
    if items == [] then []
    else if |items| == 1 then items[0]
    else items[0] + [Lit(' ')] + Spaced(items[1..])
  }

  function CallerGroup(fl: Flags): seq<Segment> {
    if AnyCaller(fl) then [Lit('(')] + Spaced(CallerItems(fl)) + [Lit(')'), Lit(' ')] else []
  }

  /** The options' template in compiled form. */
  function Layout(fl: Flags): seq<Segment> {
    [TimeField(fl.msec), Lit(' '), LevelField(fl.levelBraces), Lit(' ')] + CallerGroup(fl) + [MessageField]
  }

  /** What the caller fields expand to under f, in the options' order. */
  function CallerValues(fl: Flags, f: Segment -> string): seq<string> {
    (if fl.callerFile then [f(FileField) + ":" + f(LineField)] else []) +
    (if fl.callerFunc then [f(FuncField)] else []) +
    (if fl.callerPkg then [f(PkgField)] else [])
  }

  function ExpandEach(items: seq<seq<Segment>>, f: Segment -> string): (r: seq<string>)
    ensures |r| == |items| && forall i :: 0 <= i < |items| ==> r[i] == Expand(items[i], f)
  {
    if items == [] then [] else [Expand(items[0], f)] + ExpandEach(items[1..], f)
  }

  lemma {:induction false} ExpandSpaced(items: seq<seq<Segment>>, f: Segment -> string)
    requires KeepsLiterals(f)
    ensures Expand(Spaced(items), f) == JoinSpaced(ExpandEach(items, f))
  {
    if |items| >= 2 {
      ExpandConcat(items[0] + [Lit(' ')], Spaced(items[1..]), f);
      ExpandConcat(items[0], [Lit(' ')], f);
      ExpandCons(Lit(' '), [], f);
      ExpandSpaced(items[1..], f);
      assert ExpandEach(items, f)[1..] == ExpandEach(items[1..], f);
    }
  }

  lemma CallerItemsExpand(fl: Flags, f: Segment -> string)
    requires KeepsLiterals(f)
    ensures ExpandEach(CallerItems(fl), f) == CallerValues(fl, f)
  {
    var a := if fl.callerFile then [[FileField, Lit(':'), LineField]] else [];
    var b := if fl.callerFunc then [[FuncField]] else [];
    var c := if fl.callerPkg then [[PkgField]] else [];
    var pa := if fl.callerFile then [f(FileField) + ":" + f(LineField)] else [];
    var pb := if fl.callerFunc then [f(FuncField)] else [];
    var pc := if fl.callerPkg then [f(PkgField)] else [];
    CallerItemExpand(f);
    assert ExpandEach(a, f) == pa && ExpandEach(b, f) == pb && ExpandEach(c, f) == pc;
    ExpandEachConcat(a + b, c, f);
    ExpandEachConcat(a, b, f);
  }

  /** Each caller item expands to its value. */
  lemma CallerItemExpand(f: Segment -> string)
    requires KeepsLiterals(f)
    ensures ExpandEach([[FileField, Lit(':'), LineField]], f) == [f(FileField) + ":" + f(LineField)]
    ensures ExpandEach([[FuncField]], f) == [f(FuncField)]
    ensures ExpandEach([[PkgField]], f) == [f(PkgField)]
  {
    ExpandCons(LineField, [], f);
    ExpandCons(Lit(':'), [LineField], f);
    ExpandCons(FileField, [Lit(':'), LineField], f);
    assert [FileField] + [Lit(':'), LineField] == [FileField, Lit(':'), LineField];
    assert [Lit(':')] + [LineField] == [Lit(':'), LineField];
    assert [LineField] + [] == [LineField];
    assert Expand([FileField, Lit(':'), LineField], f) == f(FileField) + ":" + f(LineField);
    ExpandCons(FuncField, [], f);
    assert [FuncField] + [] == [FuncField];
    assert Expand([FuncField], f) == f(FuncField) + "" == f(FuncField);
    ExpandCons(PkgField, [], f);
    assert [PkgField] + [] == [PkgField];
    assert Expand([PkgField], f) == f(PkgField) + "" == f(PkgField);
  }

  lemma ExpandEachConcat(x: seq<seq<Segment>>, y: seq<seq<Segment>>, f: Segment -> string)
    ensures ExpandEach(x + y, f) == ExpandEach(x, f) + ExpandEach(y, f)
  {
    var l, r := ExpandEach(x + y, f), ExpandEach(x, f) + ExpandEach(y, f);
    forall i | 0 <= i < |l| ensures l[i] == r[i] {
      if i < |x| {
        assert (x + y)[i] == x[i];
      } else {
        assert (x + y)[i] == y[i - |x|];
      }
    }
  }

  /** The caller group expands to the caller values in parentheses followed
      by a space, or to nothing when no caller option is set. */
  lemma CallerGroupExpand(fl: Flags, f: Segment -> string)
    requires KeepsLiterals(f)
    ensures Expand(CallerGroup(fl), f) == if AnyCaller(fl) then "(" + JoinSpaced(CallerValues(fl, f)) + ") " else ""
  {
    if AnyCaller(fl) {
      var inner := Spaced(CallerItems(fl));
      ExpandConcat([Lit('(')] + inner, [Lit(')'), Lit(' ')], f);
      ExpandConcat([Lit('(')], inner, f);
      ExpandCons(Lit('('), [], f);
      ExpandCons(Lit(' '), [], f);
      ExpandCons(Lit(')'), [Lit(' ')], f);
      ExpandSpaced(CallerItems(fl), f);
      CallerItemsExpand(fl, f);
    }
  }

  /** Expanding the options' layout gives the timestamp, the level, the caller
      group (present exactly when some caller option is set) and the message,
      separated by single spaces. */
  lemma ExpandLayout(fl: Flags, f: Segment -> string)
    requires KeepsLiterals(f)
    ensures Expand(Layout(fl), f) ==
      f(TimeField(fl.msec)) + " " + f(LevelField(fl.levelBraces)) + " " +
      (if AnyCaller(fl) then "(" + JoinSpaced(CallerValues(fl, f)) + ") " else "") + f(MessageField)
  {
    var tm, lv, cg := TimeField(fl.msec), LevelField(fl.levelBraces), CallerGroup(fl);
    var tail := cg + [MessageField];
    ExpandConcat(cg, [MessageField], f);
    ExpandCons(MessageField, [], f);
    var t3 := [Lit(' ')] + tail;
    var t2 := [lv] + t3;
    var t1 := [Lit(' ')] + t2;
    ExpandCons(Lit(' '), tail, f);
    ExpandCons(lv, t3, f);
    ExpandCons(Lit(' '), t2, f);
    ExpandCons(tm, t1, f);
    assert Layout(fl) == [tm] + t1;
    CallerGroupExpand(fl, f);
  }

  /** The compiled layout spells out exactly the template text the options build. */
  lemma LayoutText(fl: Flags)
    ensures Text(Layout(fl)) == TemplateFromOptions(fl)
  {
    ExpandLayout(fl, Action);
  }

  // The named preset formats, written out action by action.
  const WithMsec := "{{.DT.Format \"2006/01/02 15:04:05.000\"}}" + " " + "{{.Level}}" + " " + "{{.Message}}"
  const WithPkg := "{{.DT.Format \"2006/01/02 15:04:05.000\"}}" + " " + "{{.Level}}" + " " +
    "(" + "{{.CallerPkg}}" + ") " + "{{.Message}}"
  const ShortDebug := "{{.DT.Format \"2006/01/02 15:04:05.000\"}}" + " " + "{{.Level}}" + " " +
    "(" + "{{.CallerFile}}" + ":" + "{{.CallerLine}}" + ") " + "{{.Message}}"
  const FuncDebug := "{{.DT.Format \"2006/01/02 15:04:05.000\"}}" + " " + "{{.Level}}" + " " +
    "(" + "{{.CallerFunc}}" + ") " + "{{.Message}}"
  const FullDebug := "{{.DT.Format \"2006/01/02 15:04:05.000\"}}" + " " + "{{.Level}}" + " " +
    "(" + "{{.CallerFile}}" + ":" + "{{.CallerLine}}" + " " + "{{.CallerFunc}}" + ") " + "{{.Message}}"

  /** Rows of the logger's templateFromOptions table test, one lemma per row:
      the options, in the order the test lists them, and the template text. */
  lemma TemplateFromOptionsNone()
    ensures TemplateFromOptions(Flags(false, false, false, false, false)) ==
      "{{.DT.Format \"2006/01/02 15:04:05\"}}" + " " + "{{.Level}}" + " " + "{{.Message}}"
  {
  }

  lemma TemplateFromOptionsMsec()
    ensures TemplateFromOptions(Flags(true, false, false, false, false)) ==
      "{{.DT.Format \"2006/01/02 15:04:05.000\"}}" + " " + "{{.Level}}" + " " + "{{.Message}}"
  {
  }

  lemma TemplateFromOptionsMsecLevelBraces()
    ensures TemplateFromOptions(Flags(true, true, false, false, false)) ==
      "{{.DT.Format \"2006/01/02 15:04:05.000\"}}" + " " + "[{{.Level}}]" + " " + "{{.Message}}"
  {
  }

  lemma TemplateFromOptionsCallerFile()
    ensures TemplateFromOptions(Flags(false, false, true, false, false)) ==
      "{{.DT.Format \"2006/01/02 15:04:05\"}}" + " " + "{{.Level}}" + " " +
      "(" + "{{.CallerFile}}" + ":" + "{{.CallerLine}}" + ") " + "{{.Message}}"
  {
  }

  lemma TemplateFromOptionsFileFuncMsec()
    ensures TemplateFromOptions(Flags(true, false, true, true, false)) ==
      "{{.DT.Format \"2006/01/02 15:04:05.000\"}}" + " " + "{{.Level}}" + " " +
      "(" + "{{.CallerFile}}" + ":" + "{{.CallerLine}}" + " " + "{{.CallerFunc}}" + ") " + "{{.Message}}"
  {
    JoinTwo("{{.CallerFile}}" + ":" + "{{.CallerLine}}", "{{.CallerFunc}}");
  }

  lemma TemplateFromOptionsFuncPkgMsecBraces()
    ensures TemplateFromOptions(Flags(true, true, false, true, true)) ==
      "{{.DT.Format \"2006/01/02 15:04:05.000\"}}" + " " + "[{{.Level}}]" + " " +
      "(" + "{{.CallerFunc}}" + " " + "{{.CallerPkg}}" + ") " + "{{.Message}}"
  {
    JoinTwo("{{.CallerFunc}}", "{{.CallerPkg}}");
  }

  // Each preset is the template the matching layout options build.

  lemma WithMsecPreset()
    ensures WithMsec == TemplateFromOptions(Flags(true, false, false, false, false))
  {
  }

  lemma WithPkgPreset()
    ensures WithPkg == TemplateFromOptions(Flags(true, false, false, false, true))
  {
  }

  lemma ShortDebugPreset()
    ensures ShortDebug == TemplateFromOptions(Flags(true, false, true, false, false))
  {
  }

  lemma FuncDebugPreset()
    ensures FuncDebug == TemplateFromOptions(Flags(true, false, false, true, false))
  {
  }

  lemma FullDebugPreset()
    ensures FullDebug == TemplateFromOptions(Flags(true, false, true, true, false))
  {
    TemplateFromOptionsFileFuncMsec();
  }

  /** The actions the compiler recognises, in the order it tries them. */
  const Actions: seq<Segment> :=
    [TimeField(false), TimeField(true), LevelField(true), LevelField(false),
     MessageField, FileField, LineField, FuncField, PkgField]

  /** Every action opens with "{{" or with "[{{". */
  lemma ActionOpens(a: Segment)
    requires !a.Lit?
    ensures |Action(a)| >= 10
    ensures Action(a)[0] == '[' || (Action(a)[0] == '{' && Action(a)[1] == '{')
  {
  }

  /** The character that tells the actions opening with "{{." apart. */
  function Key(a: Segment): char {
    match a
    case Lit(_) => ' '
    case TimeField(_) => 'D'
    case LevelField(_) => 'L'
    case MessageField => 'M'
    case _ => 'C'
  }

  lemma ActionKey(a: Segment)
    requires !a.Lit? && a != LevelField(true)
    ensures Action(a)[3] == Key(a)
  {
  }

  /** The character that tells the caller actions apart, after "{{.Caller". */
  function CallerKey(a: Segment): string {
    match a
    case FileField => "Fi"
    case LineField => "Li"
    case FuncField => "Fu"
    case _ => "Pk"
  }

  lemma ActionCallerKey(a: Segment)
    requires Key(a) == 'C'
    ensures Action(a)[9..11] == CallerKey(a)
  {
  }

  lemma TimeKey()
    ensures Action(TimeField(false))[33] == '"' && Action(TimeField(true))[33] == '.'
  {
  }

  /** No action's text is a prefix of another's, so at most one matches. */
  lemma ActionsPrefixFree(a: Segment, b: Segment, rest: string)
    requires !a.Lit? && !b.Lit? && a != b
    ensures !(Action(b) <= Action(a) + rest)
  {
    var s := Action(a) + rest;
    ActionOpens(a);
    ActionOpens(b);
    if a == LevelField(true) || b == LevelField(true) {
      assert s[0] == Action(a)[0];
    } else if Key(a) != Key(b) {
      ActionKey(a);
      ActionKey(b);
      assert s[3] == Action(a)[3];
    } else if a.TimeField? {
      TimeKey();
      assert s[33] == Action(a)[33];
    } else {
      assert Key(a) == 'C';
      ActionCallerKey(a);
      ActionCallerKey(b);
      assert CallerKey(a) != CallerKey(b);
      assert s[9..11] == Action(a)[9..11];
    }
  }

  /** Every segment other than a literal is one of the recognised actions. */
  lemma ActionListed(seg: Segment) returns (j: nat)
    requires !seg.Lit?
    ensures j < |Actions| && Actions[j] == seg
  {
    j := if seg == TimeField(false) then 0
      else if seg == TimeField(true) then 1
      else if seg == LevelField(true) then 2
      else if seg == LevelField(false) then 3
      else if seg == MessageField then 4
      else if seg == FileField then 5
      else if seg == LineField then 6
      else if seg == FuncField then 7
      else 8;
  }

  /** The recognised actions are distinct and none is a literal. */
  lemma ActionsDistinct()
    ensures forall i :: 0 <= i < |Actions| ==> !Actions[i].Lit?
    ensures forall i, j :: 0 <= i < j < |Actions| ==> Actions[i] != Actions[j]
  {
  }

  /** Result of looking for an action at the start of a text. */
  datatype Match = NoAction | Found(seg: Segment)

  /** The first action, from position k of `Actions` on, whose text opens s. */
  function MatchAction(s: string, k: nat): (m: Match)
    requires k <= |Actions|
    decreases |Actions| - k
    ensures m.Found? ==> m.seg in Actions[k..] && Action(m.seg) <= s && |Action(m.seg)| >= 10
    ensures m.NoAction? ==> forall i :: k <= i < |Actions| ==> !(Action(Actions[i]) <= s)
  {
    if k == |Actions| then NoAction
    else if Action(Actions[k]) <= s then
      ActionsDistinct();
      ActionOpens(Actions[k]);
      Found(Actions[k])
    else MatchAction(s, k + 1)
  }

  /** A text that opens with an action's text matches exactly that action. */
  lemma {:induction false} MatchSelf(j: nat, rest: string, k: nat)
    requires k <= j < |Actions|
    ensures MatchAction(Action(Actions[j]) + rest, k) == Found(Actions[j])
    decreases j - k
  {
    if k < j {
      ActionsDistinct();
      ActionsPrefixFree(Actions[j], Actions[k], rest);
      MatchSelf(j, rest, k + 1);
    }
  }

  /** No action opens with a character other than '{' or '['. */
  lemma MatchOther(c: char, rest: string)
    requires c != '{' && c != '['
    ensures MatchAction([c] + rest, 0) == NoAction
  {
    ActionsDistinct();
    forall i | 0 <= i < |Actions| ensures !(Action(Actions[i]) <= [c] + rest) {
      ActionOpens(Actions[i]);
    }
  }

  /** The outcome of compiling a template text: its segments, or the
      remaining text at the first "{{" that opens no known action. */
  datatype Compiled = Compiled(t: seq<Segment>) | Malformed(at: string)

  /** Template text to segments: at each position a known action is taken
      whole; any other "{{" is an error; every other character is literal. */
  function Compile(s: string): Compiled
    decreases |s|
  {
    if s == [] then Compiled([])
    else match MatchAction(s, 0)
      case Found(a) =>
        var r := Compile(s[|Action(a)|..]);
        if r.Compiled? then Compiled([a] + r.t) else r
      case NoAction =>
        if |s| >= 2 && s[0] == '{' && s[1] == '{' then Malformed(s)
        else
          var r := Compile(s[1..]);
          if r.Compiled? then Compiled([Lit(s[0])] + r.t) else r
  }

  /** Whatever compiles spells out the text it came from. */
  lemma {:induction false} CompileSound(s: string)
    ensures Compile(s).Compiled? ==> Text(Compile(s).t) == s
    decreases |s|
  {
    if s != [] && Compile(s).Compiled? {
      match MatchAction(s, 0)
      case Found(a) =>
        var rest := s[|Action(a)|..];
        assert Compile(s) == Compiled([a] + Compile(rest).t);
        CompileSound(rest);
        ExpandCons(a, Compile(rest).t, Action);
        assert s == Action(a) + rest;
      case NoAction =>
        var rest := s[1..];
        assert Compile(s) == Compiled([Lit(s[0])] + Compile(rest).t);
        CompileSound(rest);
        ExpandCons(Lit(s[0]), Compile(rest).t, Action);
        assert s == [s[0]] + rest;
    }
  }

  /** Templates whose literal text contains no '{' and no '[', so that no
      literal run can be mistaken for an action. */
  predicate Canonical(t: seq<Segment>) {
    forall i :: 0 <= i < |t| ==> t[i] != Lit('{') && t[i] != Lit('[')
  }

  /** A canonical template compiles back from its text. */
  lemma {:induction false} CompileText(t: seq<Segment>)
    requires Canonical(t)
    ensures Compile(Text(t)) == Compiled(t)
  {
    if t != [] {
      var x, tail := t[0], t[1..];
      assert t == [x] + tail;
      ExpandCons(x, tail, Action);
      assert Canonical(tail) by {
        forall i | 0 <= i < |tail| ensures tail[i] != Lit('{') && tail[i] != Lit('[') {
          assert tail[i] == t[i + 1];
        }
      }
      CompileText(tail);
      var s := Text(t);
      assert s == Action(x) + Text(tail);
      if x.Lit? {
        assert x != Lit('{') && x != Lit('[');
        MatchOther(x.c, Text(tail));
        assert s[1..] == Text(tail);
      } else {
        var j := ActionListed(x);
        MatchSelf(j, Text(tail), 0);
        assert s[|Action(x)|..] == Text(tail);
      }
    }
  }

  /** Templates whose literal characters are all drawn from cs. */
  predicate LiteralsAmong(t: seq<Segment>, cs: set<char>) {
    forall i :: 0 <= i < |t| && t[i].Lit? ==> t[i].c in cs
  }

  lemma LiteralsConcat(a: seq<Segment>, b: seq<Segment>, cs: set<char>)
    requires LiteralsAmong(a, cs) && LiteralsAmong(b, cs)
    ensures LiteralsAmong(a + b, cs)
  {
    forall i | 0 <= i < |a + b| && (a + b)[i].Lit? ensures (a + b)[i].c in cs {
      if i >= |a| { assert (a + b)[i] == b[i - |a|]; }
    }
  }

  lemma {:induction false} SpacedLiterals(items: seq<seq<Segment>>, cs: set<char>)
    requires ' ' in cs && forall i :: 0 <= i < |items| ==> LiteralsAmong(items[i], cs)
    ensures LiteralsAmong(Spaced(items), cs)
  {
    if |items| >= 2 {
      SpacedLiterals(items[1..], cs);
      LiteralsConcat(items[0], [Lit(' ')], cs);
      LiteralsConcat(items[0] + [Lit(' ')], Spaced(items[1..]), cs);
    }
  }

  /** The options' layouts write no literal text other than spaces, the
      caller group's parentheses and the colon between file and line. */
  lemma LayoutLiterals(fl: Flags)
    ensures LiteralsAmong(Layout(fl), {' ', '(', ')', ':'})
  {
    var cs := {' ', '(', ')', ':'};
    var items := CallerItems(fl);
    assert forall i :: 0 <= i < |items| ==> items[i] in {[FileField, Lit(':'), LineField], [FuncField], [PkgField]};
    SpacedLiterals(items, cs);
    LiteralsConcat([Lit('(')], Spaced(items), cs);
    LiteralsConcat([Lit('(')] + Spaced(items), [Lit(')'), Lit(' ')], cs);
    var head := [TimeField(fl.msec), Lit(' '), LevelField(fl.levelBraces), Lit(' ')];
    LiteralsConcat(head, CallerGroup(fl), cs);
    LiteralsConcat(head + CallerGroup(fl), [MessageField], cs);
  }

  /** The options' layout is canonical. */
  lemma LayoutCanonical(fl: Flags)
    ensures Canonical(Layout(fl))
  {
    LayoutLiterals(fl);
  }

  /** The template the options build compiles to the options' layout. */
  lemma CompileOptions(fl: Flags)
    ensures Compile(TemplateFromOptions(fl)) == Compiled(Layout(fl))
  {
    LayoutText(fl);
    LayoutCanonical(fl);
    CompileText(Layout(fl));
  }
}
