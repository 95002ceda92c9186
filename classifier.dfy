/** Severity classification of a log line: a leading level tag selects the
    severity and is removed; anything else is INFO and is kept as it is. */
module Classifier {
  import opened Levels

  /** The severity of a call and the message left once its tag is removed. */
  datatype Classified = Classified(level: Level, message: string)

  /** A tag as it may lead a line, including the space that ends it:
      "INFO " or "[INFO] ". */
  function Tag(lv: Level, bracketed: bool): string {
    Shown(lv, bracketed) + " "
  }

  /** Whether the line starts with some level tag. */
  predicate Tagged(s: string) {
    exists lv: Level, b: bool :: Tag(lv, b) <= s
  }

  /** Tries the levels in turn, the bare form of each before its bracketed form. */
  function Find(s: string, levels: seq<Level>): Classified {
    if levels == [] then Classified(INFO, s)
    else if Tag(levels[0], false) <= s then Classified(levels[0], s[|Tag(levels[0], false)|..])
    else if Tag(levels[0], true) <= s then Classified(levels[0], s[|Tag(levels[0], true)|..])
    else Find(s, levels[1..])
  }

  function Classify(s: string): Classified {
    Find(s, All)
  }

  /** Each level's label begins with its own letter. */
  lemma FirstLetterDistinct(a: Level, b: Level)
    requires Name(a)[0] == Name(b)[0]
    ensures a == b
  {
  }

  /** At most one tag can lead a line: the tags are prefix-free. */
  lemma TagsExclusive(a: Level, ba: bool, b: Level, bb: bool, s: string)
    requires Tag(a, ba) <= s && Tag(b, bb) <= s
    ensures a == b && ba == bb
  {
    assert s[0] == Tag(a, ba)[0] == Tag(b, bb)[0];
    assert IsUpper(Name(a)[0]) && IsUpper(Name(b)[0]);
    if ba && bb {
      assert s[1] == Name(a)[0] == Name(b)[0];
    }
    FirstLetterDistinct(a, b);
  }

  lemma {:induction false} FindTagged(lv: Level, b: bool, s: string, levels: seq<Level>)
    requires Tag(lv, b) <= s && lv in levels
    ensures Find(s, levels) == Classified(lv, s[|Tag(lv, b)|..])
  {
    var first := levels[0];
    if Tag(first, false) <= s {
      TagsExclusive(lv, b, first, false, s);
    } else if Tag(first, true) <= s {
      TagsExclusive(lv, b, first, true, s);
    } else {
      assert first != lv;
      FindTagged(lv, b, s, levels[1..]);
    }
  }

  lemma {:induction false} FindUntagged(s: string, levels: seq<Level>)
    requires !Tagged(s)
    ensures Find(s, levels) == Classified(INFO, s)
  {
    if levels != [] {
      assert !(Tag(levels[0], false) <= s) && !(Tag(levels[0], true) <= s);
      FindUntagged(s, levels[1..]);
    }
  }

  /** A leading tag, bare or bracketed, selects its level and is removed
      together with the space after it; the rest is the message, unchanged. */
  lemma ClassifyTagged(lv: Level, bracketed: bool, message: string)
    ensures Classify(Tag(lv, bracketed) + message) == Classified(lv, message)
  {
    var s := Tag(lv, bracketed) + message;
    assert lv in All;
    FindTagged(lv, bracketed, s, All);
    assert s[|Tag(lv, bracketed)|..] == message;
  }

  /** A line that starts with no tag is INFO and is kept verbatim. */
  lemma ClassifyUntagged(s: string)
    requires !Tagged(s)
    ensures Classify(s) == Classified(INFO, s)
  {
    FindUntagged(s, All);
  }

  /** Every classification is one of the two cases above: either the line is
      a tag followed by the message, or it has no tag, the level is INFO and
      the message is the whole line. */
  lemma ClassifySplits(s: string)
    ensures var r := Classify(s);
      (exists b :: s == Tag(r.level, b) + r.message) ||
      (!Tagged(s) && r == Classified(INFO, s))
  {
    if Tagged(s) {
      var lv, b :| Tag(lv, b) <= s;
      var rest := s[|Tag(lv, b)|..];
      assert s == Tag(lv, b) + rest;
      ClassifyTagged(lv, b, rest);
    } else {
      ClassifyUntagged(s);
    }
  }

  /** An explicit INFO tag in front of an untagged line changes nothing. */
  lemma InfoTagInvisible(bracketed: bool, s: string)
    requires !Tagged(s)
    ensures Classify(Tag(INFO, bracketed) + s) == Classify(s)
  {
    ClassifyTagged(INFO, bracketed, s);
    ClassifyUntagged(s);
  }

  /** A trailing newline never affects the level and stays on the message. */
  lemma ClassifyNewline(s: string)
    ensures Classify(s + "\n") == Classified(Classify(s).level, Classify(s).message + "\n")
  {
    if Tagged(s) {
      var lv, b :| Tag(lv, b) <= s;
      var rest := s[|Tag(lv, b)|..];
      assert s == Tag(lv, b) + rest;
      ClassifyTagged(lv, b, rest);
      assert s + "\n" == Tag(lv, b) + (rest + "\n");
      ClassifyTagged(lv, b, rest + "\n");
    } else {
      forall lv: Level, b: bool ensures !(Tag(lv, b) <= s + "\n") {
        assert Tag(lv, b)[|Tag(lv, b)| - 1] == ' ';
      }
      ClassifyUntagged(s);
      ClassifyUntagged(s + "\n");
    }
  }
}
