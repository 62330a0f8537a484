/** What the collector writes to its cache file, as functions of the
    configuration and of the lines logcat delivers. The classes in
    module LogCollector are proved to write exactly this. */
module LogOutput {
  import opened JavaLang
  import opened TagUtils

  /** The collector's configuration fields as the run reads them:
      mLogType, mShowLogColors, mLogcatColors and mBgColor. */
  datatype Config = Config(
    logType: Option<seq<string>>,
    showColors: bool,
    colors: seq<Option<string>>,
    bgColor: string)

  /** What one input line, or a run of lines, puts in the file: the written
      units in order (each is followed by a line break), and whether an
      ArrayIndexOutOfBoundsException on the colour table cut it short. */
  datatype Emitted = Emitted(units: seq<string>, aborted: bool)

  /** How the reader thread ends. */
  datatype RunEnd =
    | Crashed      // isCrash was seen before a read
    | EndOfStream  // readLine returned null
    | ReadFailed   // readLine threw an IOException
    | Aborted      // a colour lookup ran past the colour table

  datatype RunOutcome = RunOutcome(file: string, end: RunEnd)

  /** writer.newLine() on Android. */
  const NewLine: string := "\n"
  const DefaultBgColor: string := "#FFFFFFFF"
  const Epilogue: string := "</body>"

  function Prologue(bgColor: string): string {
    "<body bgcolor=\" " + bgColor + " \">"
  }

  function FontUnit(color: Option<string>, line: string): string {
    "<font size=\"3\" color=\"" + StringOf(color) + "\">" + line + "</font></br>"
  }

  /** The file text for a sequence of written units, each followed by a line break. */
  function Join(units: seq<string>): string {
    if units == [] then ""
    else Join(units[..|units| - 1]) + units[|units| - 1] + NewLine
  }

  /** A tag list was configured: mLogType non-null and non-empty. */
  predicate Filtered(cfg: Config) {
    cfg.logType.Some? && |cfg.logType.value| > 0
  }

  /** The tag list outputLogcat walks: mLogType when configured, else the catalog. */
  function ActiveTags(cfg: Config): seq<string> {
    if Filtered(cfg) then cfg.logType.value else TAGS
  }

  /** The indices among the first n tags that occur in the line, in increasing order. */
  function Matches(tags: seq<string>, line: string, n: nat): seq<nat>
    requires n <= |tags|
  {
    if n == 0 then []
    else
      var prev := Matches(tags, line, n - 1);
      if Contains(line, tags[n - 1]) then prev + [n - 1] else prev
  }

  /** Colourless, filtered: the line once per tag among the first n that it contains. */
  function PlainUnits(tags: seq<string>, line: string, n: nat): seq<string>
    requires n <= |tags|
  {
    if n == 0 then []
    else
      var prev := PlainUnits(tags, line, n - 1);
      if Contains(line, tags[n - 1]) then prev + [line] else prev
  }

  /** Coloured: a font unit for each tag among the first n that the line
      contains, in the colour at that tag's index; an index past the colour
      table aborts. */
  function ColoredUnits(tags: seq<string>, colors: seq<Option<string>>, line: string, n: nat): Emitted
    requires n <= |tags|
  {
    if n == 0 then Emitted([], false)
    else
      var prev := ColoredUnits(tags, colors, line, n - 1);
      if prev.aborted || !Contains(line, tags[n - 1]) then prev
      else if n - 1 < |colors| then Emitted(prev.units + [FontUnit(colors[n - 1], line)], false)
      else Emitted(prev.units, true)
  }

  /** What outputLogcat writes for one line. */
  function LineOutput(cfg: Config, line: string): Emitted {
    if cfg.showColors then ColoredUnits(ActiveTags(cfg), cfg.colors, line, |ActiveTags(cfg)|)
    else if Filtered(cfg) then Emitted(PlainUnits(cfg.logType.value, line, |cfg.logType.value|), false)
    else Emitted([line], false)
  }

  /** The lines fed through outputLogcat one after another; nothing after an abort. */
  function Feed(cfg: Config, lines: seq<string>): Emitted {
    if lines == [] then Emitted([], false)
    else
      var prev := Feed(cfg, lines[..|lines| - 1]);
      if prev.aborted then prev
      else
        var out := LineOutput(cfg, lines[|lines| - 1]);
        Emitted(prev.units + out.units, out.aborted)
  }

  /** The whole file a run of LogRunnable leaves, and how the run ends.
      `crashAt` is the read before which isCrash is first seen true;
      `readFails` tells whether the read after the last line throws
      instead of returning null. */
  function RunResult(cfg: Config, lines: seq<string>, crashAt: nat, readFails: bool): RunOutcome {
    var n := if crashAt < |lines| then crashAt else |lines|;
    var fed := Feed(cfg, lines[..n]);
    var head := Head(cfg) + Join(fed.units);
    if fed.aborted then RunOutcome(head, Aborted)
    else if crashAt <= |lines| then RunOutcome(head + Tail(cfg), Crashed)
    else if readFails then RunOutcome(head, ReadFailed)
    else RunOutcome(head + Tail(cfg), EndOfStream)
  }

  /** What the run writes before the first line: the prologue when colours are on. */
  function Head(cfg: Config): string {
    if cfg.showColors then Prologue(cfg.bgColor) else ""
  }

  /** What the run writes after the last line when it ends cleanly. */
  function Tail(cfg: Config): string {
    if cfg.showColors then Epilogue else ""
  }

  // ----- Lemmas -----

  lemma Concat3(a: string, b: string, c: string)
    ensures a + b + c == a + (b + c)
  {
  }

  /** One more unit: Join unfolded once, for a sequence built by appending. */
  lemma JoinSnoc(units: seq<string>, u: string)
    ensures Join(units + [u]) == Join(units) + u + NewLine
  {
    assert (units + [u])[..|units|] == units;
  }

  /** Once a colour lookup has thrown, no later tag changes the output. */
  lemma {:induction false} ColoredRest(tags: seq<string>, colors: seq<Option<string>>, line: string, m: nat, n: nat)
    requires m <= n <= |tags| && ColoredUnits(tags, colors, line, m).aborted
    ensures ColoredUnits(tags, colors, line, n) == ColoredUnits(tags, colors, line, m)
    decreases n
  {
    if n > m {
      ColoredRest(tags, colors, line, m, n - 1);
    }
  }

  /** A coloured write for a matching tag with a colour extends the file by
      exactly the next unit ColoredUnits expects. */
  lemma ColoredWriteStep(base: string, before: string, after: string, tags: seq<string>, colors: seq<Option<string>>, line: string, i: nat)
    requires i < |tags| && i < |colors| && Contains(line, tags[i])
    requires !ColoredUnits(tags, colors, line, i).aborted
    requires before == base + Join(ColoredUnits(tags, colors, line, i).units)
    requires after == before + FontUnit(colors[i], line) + NewLine
    ensures !ColoredUnits(tags, colors, line, i + 1).aborted
    ensures after == base + Join(ColoredUnits(tags, colors, line, i + 1).units)
  {
    var done := ColoredUnits(tags, colors, line, i).units;
    var unit := FontUnit(colors[i], line);
    assert ColoredUnits(tags, colors, line, i + 1) == Emitted(done + [unit], false);
    JoinSnoc(done, unit);
    Concat3(base, Join(done), unit + NewLine);
  }

  lemma ColoredSkipStep(tags: seq<string>, colors: seq<Option<string>>, line: string, i: nat)
    requires i < |tags| && !Contains(line, tags[i])
    ensures ColoredUnits(tags, colors, line, i + 1) == ColoredUnits(tags, colors, line, i)
  {
  }

  lemma PlainSkipStep(tags: seq<string>, line: string, i: nat)
    requires i < |tags| && !Contains(line, tags[i])
    ensures PlainUnits(tags, line, i + 1) == PlainUnits(tags, line, i)
  {
  }

  /** A plain write for a matching tag extends the file by exactly the next
      unit PlainUnits expects. */
  lemma PlainWriteStep(base: string, before: string, after: string, tags: seq<string>, line: string, i: nat)
    requires i < |tags| && Contains(line, tags[i])
    requires before == base + Join(PlainUnits(tags, line, i))
    requires after == before + line + NewLine
    ensures after == base + Join(PlainUnits(tags, line, i + 1))
  {
    var done := PlainUnits(tags, line, i);
    assert PlainUnits(tags, line, i + 1) == done + [line];
    JoinSnoc(done, line);
    Concat3(base, Join(done), line + NewLine);
  }

  /** A matching tag past the colour table ends the line's output: the
      units written so far are all there is. */
  lemma ColoredAbortStep(tags: seq<string>, colors: seq<Option<string>>, line: string, i: nat)
    requires |colors| <= i < |tags| && Contains(line, tags[i])
    requires !ColoredUnits(tags, colors, line, i).aborted
    ensures ColoredUnits(tags, colors, line, |tags|) == Emitted(ColoredUnits(tags, colors, line, i).units, true)
  {
    ColoredRest(tags, colors, line, i + 1, |tags|);
  }

  /** One more line: Feed unfolded once, for a sequence built by appending. */
  lemma FeedLast(cfg: Config, init: seq<string>, last: string)
    ensures Feed(cfg, init + [last]) ==
      if Feed(cfg, init).aborted then Feed(cfg, init)
      else Emitted(Feed(cfg, init).units + LineOutput(cfg, last).units, LineOutput(cfg, last).aborted)
  {
    assert (init + [last])[..|init|] == init;
  }

  lemma {:induction false} JoinAppend(a: seq<string>, b: seq<string>)
    ensures Join(a + b) == Join(a) + Join(b)
    decreases |b|
  {
    if b == [] {
      assert a + b == a;
    } else {
      var b' := b[..|b| - 1];
      assert (a + b)[..|a + b| - 1] == a + b';
      JoinAppend(a, b');
    }
  }

  /** Join writes each unit, in order, followed by a line break. */
  lemma {:induction false} JoinEach(units: seq<string>)
    ensures units == [] ==> Join(units) == ""
    ensures |units| > 0 ==> Join(units) == units[0] + NewLine + Join(units[1..])
  {
    if |units| > 0 {
      assert units == [units[0]] + units[1..];
      JoinAppend([units[0]], units[1..]);
      assert [units[0]][..0] == [];
    }
  }

  /** Matches holds exactly the indices below n of tags the line contains, increasing. */
  lemma {:induction false} MatchesSpec(tags: seq<string>, line: string, n: nat)
    requires n <= |tags|
    ensures forall i: nat :: i in Matches(tags, line, n) <==> i < n && Contains(line, tags[i])
    ensures forall j :: 0 <= j < |Matches(tags, line, n)| ==> Matches(tags, line, n)[j] < n
    ensures forall j, k :: 0 <= j < k < |Matches(tags, line, n)| ==>
      Matches(tags, line, n)[j] < Matches(tags, line, n)[k]
  {
    if n > 0 {
      MatchesSpec(tags, line, n - 1);
    }
  }

  /** Colourless with a tag list: the line, unchanged, once per tag it contains. */
  lemma {:induction false} PlainUnitsSpec(tags: seq<string>, line: string, n: nat)
    requires n <= |tags|
    ensures |PlainUnits(tags, line, n)| == |Matches(tags, line, n)|
    ensures forall u :: u in PlainUnits(tags, line, n) ==> u == line
  {
    if n > 0 {
      PlainUnitsSpec(tags, line, n - 1);
    }
  }

  /** Coloured: unit j is the font unit for the j-th matching tag, in the
      colour at that tag's index; the output aborts exactly when some
      matching index is past the colour table, and then stops right before
      the first such match. */
  lemma {:induction false} ColoredUnitsSpec(tags: seq<string>, colors: seq<Option<string>>, line: string, n: nat)
    requires n <= |tags|
    ensures var r := ColoredUnits(tags, colors, line, n);
      var m := Matches(tags, line, n);
      && (r.aborted <==> exists i :: 0 <= i < n && |colors| <= i && Contains(line, tags[i]))
      && |r.units| <= |m|
      && (!r.aborted ==> |r.units| == |m|)
      && (r.aborted ==> |r.units| < |m| && m[|r.units|] >= |colors|)
      && forall j :: 0 <= j < |r.units| ==> m[j] < |colors| && r.units[j] == FontUnit(colors[m[j]], line)
  {
    if n > 0 {
      ColoredUnitsSpec(tags, colors, line, n - 1);
      MatchesSpec(tags, line, n - 1);
      var prev := ColoredUnits(tags, colors, line, n - 1);
      var m' := Matches(tags, line, n - 1);
      if prev.aborted {
        var i :| 0 <= i < n - 1 && |colors| <= i && Contains(line, tags[i]);
        assert 0 <= i < n && |colors| <= i && Contains(line, tags[i]);
      } else if Contains(line, tags[n - 1]) && n - 1 >= |colors| {
        assert 0 <= n - 1 < n && |colors| <= n - 1 && Contains(line, tags[n - 1]);
      } else {
        forall i | 0 <= i < n && |colors| <= i
          ensures !Contains(line, tags[i])
        {
          if i < n - 1 {
            assert !(0 <= i < n - 1 && |colors| <= i && Contains(line, tags[i]));
          }
        }
      }
    }
  }

  /** With colours on and no tag list the catalog is walked, and a colour
      table as long as the catalog never aborts. */
  lemma CatalogColorsNeverAbort(cfg: Config, line: string)
    requires cfg.showColors && !Filtered(cfg) && |cfg.colors| == |TAGS|
    ensures !LineOutput(cfg, line).aborted
  {
    ColoredUnitsSpec(TAGS, cfg.colors, line, |TAGS|);
  }

  /** Colours off, no tag list: every line is written once, unchanged. */
  lemma {:induction false} FeedUnfiltered(cfg: Config, lines: seq<string>)
    requires !cfg.showColors && !Filtered(cfg)
    ensures Feed(cfg, lines) == Emitted(lines, false)
  {
    if lines != [] {
      var init, last := lines[..|lines| - 1], lines[|lines| - 1];
      assert lines == init + [last];
      assert Feed(cfg, init + [last]) == Emitted(init + [last], false) by {
        FeedUnfiltered(cfg, init);
        FeedLast(cfg, init, last);
        assert LineOutput(cfg, last) == Emitted([last], false);
      }
    }
  }

  /** Colours off with a tag list: the line once per configured tag it
      contains, nothing if it contains none. */
  lemma LineOutputFiltered(cfg: Config, line: string)
    requires !cfg.showColors && Filtered(cfg)
    ensures var out := LineOutput(cfg, line);
      var tags := cfg.logType.value;
      && !out.aborted
      && |out.units| == |Matches(tags, line, |tags|)|
      && (forall u :: u in out.units ==> u == line)
      && (out.units == [] <==> forall i :: 0 <= i < |tags| ==> !Contains(line, tags[i]))
  {
    var tags := cfg.logType.value;
    PlainUnitsSpec(tags, line, |tags|);
    MatchesSpec(tags, line, |tags|);
    var m := Matches(tags, line, |tags|);
    if m != [] {
      assert m[0] in m;
    }
  }

  /** Colours on: one font unit per matching index of the active list, in
      increasing index order, coloured by the colour table at that index. */
  lemma LineOutputColored(cfg: Config, line: string)
    requires cfg.showColors
    ensures var out := LineOutput(cfg, line);
      var tags := ActiveTags(cfg);
      var m := Matches(tags, line, |tags|);
      && (out.aborted <==> exists i :: 0 <= i < |tags| && |cfg.colors| <= i && Contains(line, tags[i]))
      && |out.units| <= |m|
      && (!out.aborted ==> |out.units| == |m|)
      && forall j :: 0 <= j < |out.units| ==> m[j] < |cfg.colors| && out.units[j] == FontUnit(cfg.colors[m[j]], line)
  {
    ColoredUnitsSpec(ActiveTags(cfg), cfg.colors, line, |ActiveTags(cfg)|);
  }

  /** Lines are processed in arrival order: feeding a then b writes a's
      units followed by b's, unless a already aborted. */
  lemma {:induction false} FeedAppend(cfg: Config, a: seq<string>, b: seq<string>)
    ensures Feed(cfg, a + b) ==
      if Feed(cfg, a).aborted then Feed(cfg, a)
      else Emitted(Feed(cfg, a).units + Feed(cfg, b).units, Feed(cfg, b).aborted)
    decreases |b|
  {
    if b == [] {
      assert a + b == a;
    } else {
      var b' := b[..|b| - 1];
      assert (a + b)[..|a + b| - 1] == a + b';
      FeedAppend(cfg, a, b');
    }
  }

  /** Writing one more line's output extends the file by exactly what Feed
      expects for that line. */
  lemma FeedWriteStep(head: string, text: string, cfg: Config, lines: seq<string>, k: nat)
    requires k < |lines| && !Feed(cfg, lines[..k]).aborted
    requires text == head + Join(Feed(cfg, lines[..k]).units)
    ensures Feed(cfg, lines[..k + 1]).aborted == LineOutput(cfg, lines[k]).aborted
    ensures text + Join(LineOutput(cfg, lines[k]).units) == head + Join(Feed(cfg, lines[..k + 1]).units)
  {
    assert lines[..k + 1] == lines[..k] + [lines[k]];
    FeedLast(cfg, lines[..k], lines[k]);
    JoinAppend(Feed(cfg, lines[..k]).units, LineOutput(cfg, lines[k]).units);
    Concat3(head, Join(Feed(cfg, lines[..k]).units), Join(LineOutput(cfg, lines[k]).units));
  }

  /** A run cut short by an exception in line k's output. */
  lemma RunAborted(cfg: Config, lines: seq<string>, crashAt: nat, readFails: bool, k: nat)
    requires k < |lines| && k < crashAt && Feed(cfg, lines[..k + 1]).aborted
    ensures RunResult(cfg, lines, crashAt, readFails) ==
      RunOutcome(Head(cfg) + Join(Feed(cfg, lines[..k + 1]).units), Aborted)
  {
    FeedRest(cfg, lines, k + 1, if crashAt < |lines| then crashAt else |lines|);
  }

  /** A run that stops after k lines, on the crash flag or at the end of the stream. */
  lemma RunStopped(cfg: Config, lines: seq<string>, crashAt: nat, readFails: bool, k: nat)
    requires k <= |lines| && !Feed(cfg, lines[..k]).aborted
    requires k == crashAt || (k == |lines| && k < crashAt)
    ensures RunResult(cfg, lines, crashAt, readFails) ==
      if k == crashAt then RunOutcome(Head(cfg) + Join(Feed(cfg, lines[..k]).units) + Tail(cfg), Crashed)
      else if readFails then RunOutcome(Head(cfg) + Join(Feed(cfg, lines[..k]).units), ReadFailed)
      else RunOutcome(Head(cfg) + Join(Feed(cfg, lines[..k]).units) + Tail(cfg), EndOfStream)
  {
  }

  /** A run that reads every line without an exception and then sees the
      end of the stream: prologue, every line's output, epilogue. */
  lemma RunToEnd(cfg: Config, lines: seq<string>, crashAt: nat)
    requires crashAt > |lines| && !Feed(cfg, lines).aborted
    ensures RunResult(cfg, lines, crashAt, false) ==
      RunOutcome(Head(cfg) + Join(Feed(cfg, lines).units) + Tail(cfg), EndOfStream)
  {
    assert lines[..|lines|] == lines;
  }

  /** Once a line aborted, no later line is read. */
  lemma FeedRest(cfg: Config, lines: seq<string>, m: nat, n: nat)
    requires m <= n <= |lines| && Feed(cfg, lines[..m]).aborted
    ensures Feed(cfg, lines[..n]) == Feed(cfg, lines[..m])
  {
    FeedAppend(cfg, lines[..m], lines[m..n]);
    assert lines[..m] + lines[m..n] == lines[..n];
  }

  /** The file text up to the epilogue is the per-line output of each line,
      concatenated in arrival order. */
  lemma FileIsConcatenation(cfg: Config, a: seq<string>, b: seq<string>)
    requires !Feed(cfg, a).aborted
    ensures Join(Feed(cfg, a + b).units) == Join(Feed(cfg, a).units) + Join(Feed(cfg, b).units)
  {
    FeedAppend(cfg, a, b);
    JoinAppend(Feed(cfg, a).units, Feed(cfg, b).units);
  }

  /** A crash seen before the first read leaves only prologue and epilogue
      (colours on) or an empty file (colours off). */
  lemma CrashBeforeFirstRead(cfg: Config, lines: seq<string>, readFails: bool)
    ensures RunResult(cfg, lines, 0, readFails) ==
      RunOutcome(if cfg.showColors then Prologue(cfg.bgColor) + Epilogue else "", Crashed)
  {
    assert lines[..0] == [];
  }

  /** Colours off, no tag list, stream ends normally: the file is every line
      followed by a line break, in order. */
  lemma PlainRunCopiesInput(cfg: Config, lines: seq<string>, crashAt: nat)
    requires !cfg.showColors && !Filtered(cfg) && crashAt > |lines|
    ensures RunResult(cfg, lines, crashAt, false) == RunOutcome(Join(lines), EndOfStream)
  {
    var fed := Feed(cfg, lines[..|lines|]);
    assert fed == Emitted(lines, false) by {
      assert lines[..|lines|] == lines;
      FeedUnfiltered(cfg, lines);
    }
    assert "" + Join(lines) + "" == Join(lines);
  }

  /** The epilogue is written only when colours are on and the run ends
      without an exception; the prologue is written exactly when colours are on. */
  lemma EpilogueOnlyOnCleanEnd(cfg: Config, lines: seq<string>, crashAt: nat, readFails: bool)
    ensures var r := RunResult(cfg, lines, crashAt, readFails);
      var n := if crashAt < |lines| then crashAt else |lines|;
      var body := Join(Feed(cfg, lines[..n]).units);
      && (cfg.showColors ==> r.file[..|Prologue(cfg.bgColor)|] == Prologue(cfg.bgColor))
      && (!cfg.showColors ==> r.file == body)
      && (cfg.showColors && (r.end.Crashed? || r.end.EndOfStream?) ==> r.file == Prologue(cfg.bgColor) + body + Epilogue)
      && (cfg.showColors && (r.end.ReadFailed? || r.end.Aborted?) ==> r.file == Prologue(cfg.bgColor) + body)
  {
  }
}
