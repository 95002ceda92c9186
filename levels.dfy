/** Severities of a log call and the fixed-width level column. */
module Levels {

  /** Severity of a log call, lowest first. */
  datatype Level = TRACE | DEBUG | INFO | WARN | ERROR | PANIC | FATAL

  /** Every level, in the order the classifier tries them. */
  const All: seq<Level> := [TRACE, DEBUG, INFO, WARN, ERROR, PANIC, FATAL]

  /** Position of a level in the order TRACE < DEBUG < INFO < WARN < ERROR < PANIC < FATAL. */
  function Rank(lv: Level): nat {
    match lv
    case TRACE => 0
    case DEBUG => 1
    case INFO => 2
    case WARN => 3
    case ERROR => 4
    case PANIC => 5
    case FATAL => 6
  }

  predicate IsUpper(c: char) {
    'A' <= c <= 'Z'
  }

  /** The label written in the log line and recognised as a tag. */
  function Name(lv: Level): (s: string)
    ensures 4 <= |s| <= 5
    ensures forall i :: 0 <= i < |s| ==> IsUpper(s[i])
  {
    match lv
    case TRACE => "TRACE"
    case DEBUG => "DEBUG"
    case INFO => "INFO"
    case WARN => "WARN"
    case ERROR => "ERROR"
    case PANIC => "PANIC"
    case FATAL => "FATAL"
  }

  /** PANIC and FATAL end with a stack dump and the fatal action. */
  predicate Terminal(lv: Level) {
    lv == PANIC || lv == FATAL
  }

  /** The label as shown: bare, or in square brackets with the level-braces option. */
  function Shown(lv: Level, braces: bool): string {
    if braces then "[" + Name(lv) + "]" else Name(lv)
  }

  /** The level column: the shown label followed by spaces up to the width
      of the longest label, so that the messages of all levels line up;
      with braces the padding comes after the closing bracket. */
  function Column(lv: Level, braces: bool): (s: string)
    ensures |s| == if braces then 7 else 5
    ensures |Shown(lv, braces)| <= |s| && s[..|Shown(lv, braces)|] == Shown(lv, braces)
    ensures forall i :: |Shown(lv, braces)| <= i < |s| ==> s[i] == ' '
  {
    var pad := if |Name(lv)| == 4 then " " else "";
    if braces then "[" + Name(lv) + "]" + pad else Name(lv) + pad
  }

  /** The level column identifies the level: no two levels share one. */
  lemma ColumnInjective(a: Level, b: Level, braces: bool)
    requires Column(a, braces) == Column(b, braces)
    ensures a == b
  {
    var k := if braces then 1 else 0;
    assert Column(a, braces)[k] == Name(a)[0];
    assert Column(b, braces)[k] == Name(b)[0];
  }
}
