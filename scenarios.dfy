/** Small runs of the collector with one configured tag, worked out from
    the model, and the containment facts that instantiate them with the
    lines "INFO: ok", "ERROR: boom" and "WARN: low battery". */
module Scenarios {
  import opened JavaLang
  import opened LogOutput

  /** Colours off, tag list [tag]: of a line without the tag and a line
      with it, only the second is emitted. */
  lemma SingleTagPlainFeed(tag: string, a: string, b: string, colors: seq<Option<string>>, bg: string)
    requires !Contains(a, tag) && Contains(b, tag)
    ensures Feed(Config(Some([tag]), false, colors, bg), [a, b]) == Emitted([b], false)
  {
    var cfg := Config(Some([tag]), false, colors, bg);
    assert LineOutput(cfg, a) == Emitted([], false) by {
      assert PlainUnits([tag], a, 1) == [];
    }
    assert LineOutput(cfg, b) == Emitted([b], false) by {
      assert PlainUnits([tag], b, 1) == [] + [b];
    }
    assert Feed(cfg, [a]) == Emitted([], false) by {
      FeedLast(cfg, [], a);
      assert [] + [a] == [a];
    }
    FeedLast(cfg, [a], b);
    assert [a] + [b] == [a, b];
  }

  /** The same two lines as a whole run that reaches the end of the stream:
      the file holds the second line and its line break, nothing else. */
  lemma SingleTagPlainRun(tag: string, a: string, b: string, colors: seq<Option<string>>, bg: string)
    requires !Contains(a, tag) && Contains(b, tag)
    ensures RunResult(Config(Some([tag]), false, colors, bg), [a, b], 3, false) ==
      RunOutcome(b + NewLine, EndOfStream)
  {
    var cfg := Config(Some([tag]), false, colors, bg);
    var lines := [a, b];
    SingleTagPlainFeed(tag, a, b, colors, bg);
    RunToEnd(cfg, lines, 3);
    assert Head(cfg) + Join([b]) + Tail(cfg) == b + NewLine by {
      JoinSnoc([], b);
      assert [] + [b] == [b];
    }
  }

  /** Colours on, tag list [tag] with colour c at index 0: a line holding
      the tag is emitted as one font unit in colour c. */
  lemma SingleTagColoredFeed(tag: string, c: string, line: string, bg: string)
    requires Contains(line, tag)
    ensures Feed(Config(Some([tag]), true, [Some(c)], bg), [line]) == Emitted([FontUnit(Some(c), line)], false)
  {
    var cfg := Config(Some([tag]), true, [Some(c)], bg);
    var unit := FontUnit(Some(c), line);
    assert LineOutput(cfg, line) == Emitted([unit], false) by {
      assert ColoredUnits([tag], cfg.colors, line, 0) == Emitted([], false);
      assert [] + [unit] == [unit];
    }
    FeedLast(cfg, [], line);
    assert [] + [line] == [line];
    assert [] + [unit] == [unit];
  }

  /** The same line as a whole run that reaches the end of the stream: the
      file is the prologue, the font unit with its line break, and the epilogue. */
  lemma SingleTagColoredRun(tag: string, c: string, line: string, bg: string)
    requires Contains(line, tag)
    ensures RunResult(Config(Some([tag]), true, [Some(c)], bg), [line], 2, false) ==
      RunOutcome(Prologue(bg) + FontUnit(Some(c), line) + NewLine + Epilogue, EndOfStream)
  {
    var cfg := Config(Some([tag]), true, [Some(c)], bg);
    var unit := FontUnit(Some(c), line);
    SingleTagColoredFeed(tag, c, line, bg);
    RunToEnd(cfg, [line], 2);
    assert Join([unit]) == unit + NewLine by {
      JoinSnoc([], unit);
      assert [] + [unit] == [unit];
    }
    Concat3(Prologue(bg), unit + NewLine, Epilogue);
  }

  /** "INFO: ok" does not contain "ERROR", so the filtered run drops it. */
  lemma InfoLineLacksError()
    ensures !Contains("INFO: ok", "ERROR")
  {
    ContainsSpec("INFO: ok", "ERROR");
    forall i | 0 <= i <= 3
      ensures !OccursAt("INFO: ok", "ERROR", i)
    {
      assert "INFO: ok"[i..i + 5][0] == "INFO: ok"[i];
    }
  }

  /** "ERROR: boom" contains "ERROR" at offset 0. */
  lemma ErrorLineHasError()
    ensures Contains("ERROR: boom", "ERROR")
  {
    ContainsSpec("ERROR: boom", "ERROR");
    assert OccursAt("ERROR: boom", "ERROR", 0);
  }

  /** "WARN: low battery" contains "WARN" at offset 0. */
  lemma WarnLineHasWarn()
    ensures Contains("WARN: low battery", "WARN")
  {
    ContainsSpec("WARN: low battery", "WARN");
    assert OccursAt("WARN: low battery", "WARN", 0);
  }

  /** With tag list ["ERROR"] and colours off, the run over "INFO: ok" and
      "ERROR: boom" leaves "ERROR: boom" and a line break. */
  lemma ErrorFilterSample(colors: seq<Option<string>>, bg: string)
    ensures RunResult(Config(Some(["ERROR"]), false, colors, bg), ["INFO: ok", "ERROR: boom"], 3, false) ==
      RunOutcome("ERROR: boom" + NewLine, EndOfStream)
  {
    InfoLineLacksError();
    ErrorLineHasError();
    SingleTagPlainRun("ERROR", "INFO: ok", "ERROR: boom", colors, bg);
  }

  /** With tag list ["WARN"] in red, the run over "WARN: low battery" leaves
      the prologue, one red font unit and the epilogue. */
  lemma WarnColorSample(bg: string)
    ensures RunResult(Config(Some(["WARN"]), true, [Some("#FF0000")], bg), ["WARN: low battery"], 2, false) ==
      RunOutcome(Prologue(bg) + FontUnit(Some("#FF0000"), "WARN: low battery") + NewLine + Epilogue, EndOfStream)
  {
    WarnLineHasWarn();
    SingleTagColoredRun("WARN", "#FF0000", "WARN: low battery", bg);
  }
}
