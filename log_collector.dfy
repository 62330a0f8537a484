/** The collector itself: its configuration setters, the crash hook, the
    reader thread's loop and the per-line filter/format/write steps, each
    proved to write what module LogOutput says. */
module LogCollector {
  import opened JavaLang
  import opened TagUtils
  import opened LogOutput

  /** The BufferedWriter over the cache file: an append-only text. Buffering
      is not visible in the content, because every unit is flushed and the
      writer is closed on every exit path. */
  class Writer {
    var text: string

    constructor ()
      ensures text == ""
    {
      text := "";
    }

    method Write(s: string)
      modifies this
      ensures text == old(text) + s
    {
      text := text + s;
    }

    method NewLine()
      modifies this
      ensures text == old(text) + LogOutput.NewLine
    {
      text := text + LogOutput.NewLine;
    }
  }

  class LogCollector {
    var logType: Option<seq<string>>          // mLogType
    var bgColor: string                       // mBgColor
    var cleanCache: bool                      // mCleanCache
    var showLogColors: bool                   // mShowLogColors
    var logcatColors: array<Option<string>>   // mLogcatColors
    var logRunnable: LogRunnable?             // mLogRunnable

    /** The colour table is allocated once with one slot per catalog tag and
        never replaced; the background colour keeps its initial value because
        setBgColor assigns nothing. */
    ghost predicate Valid()
      reads this
    {
      logcatColors.Length == |TAGS| && bgColor == DefaultBgColor
    }

    /** The fields the reader thread consults. */
    function Snapshot(): (cfg: Config)
      reads this, logcatColors
      ensures cfg.colors == logcatColors[..]
    {
      Config(logType, showLogColors, logcatColors[..], bgColor)
    }

    constructor ()
      ensures Valid() && fresh(logcatColors)
      ensures logType == None && !cleanCache && !showLogColors && logRunnable == null
      ensures forall k :: 0 <= k < logcatColors.Length ==> logcatColors[k] == None
    {
      logType := None;
      bgColor := DefaultBgColor;
      cleanCache := false;
      showLogColors := false;
      logcatColors := new Option<string>[|TAGS|](_ => None);
      logRunnable := null;
    }

    /** crashHandler: raises the running thread's crash flag. Before start
        there is no runnable and the Java code throws NullPointerException. */
    method CrashHandler() returns (npe: bool)
      modifies logRunnable
      ensures npe <==> logRunnable == null
      ensures !npe ==> logRunnable.isCrash
    {
      if logRunnable == null {
        npe := true;
      } else {
        logRunnable.isCrash := true;
        npe := false;
      }
    }

    method SetLogcatType(types: Option<seq<string>>)
      modifies this
      ensures logType == types
      ensures bgColor == old(bgColor) && cleanCache == old(cleanCache) && showLogColors == old(showLogColors)
      ensures logcatColors == old(logcatColors) && logRunnable == old(logRunnable)
    {
      logType := types;
    }

    method SetCleanCache(clean: bool)
      modifies this
      ensures cleanCache == clean
      ensures logType == old(logType) && bgColor == old(bgColor) && showLogColors == old(showLogColors)
      ensures logcatColors == old(logcatColors) && logRunnable == old(logRunnable)
    {
      cleanCache := clean;
    }

    /** setBgColor: its assignment is commented out, so nothing changes. */
    method SetBgColor(bgColorValue: int)
      ensures unchanged(this)
    {
    }

    /** setLogcatColors: slot k receives parseColor(colors[k]) and colours are
        switched on. With more colours than catalog tags, the write past the
        table throws ArrayIndexOutOfBoundsException after the first |TAGS|
        slots were filled, and colours stay as they were. */
    method SetLogcatColors(colors: seq<int>, parseColor: int -> string) returns (thrown: bool)
      requires Valid()
      modifies this, logcatColors
      ensures Valid() && logcatColors == old(logcatColors)
      ensures thrown <==> |colors| > |TAGS|
      ensures showLogColors == (old(showLogColors) || !thrown)
      ensures forall k :: 0 <= k < logcatColors.Length ==>
        logcatColors[k] == if k < |colors| then Some(parseColor(colors[k])) else old(logcatColors[k])
      ensures logType == old(logType) && cleanCache == old(cleanCache) && logRunnable == old(logRunnable)
    {
      var i := 0;
      while i < |colors|
        modifies logcatColors
        invariant 0 <= i <= |colors| && i <= logcatColors.Length
        invariant forall k :: 0 <= k < logcatColors.Length ==>
          logcatColors[k] == if k < i then Some(parseColor(colors[k])) else old(logcatColors[k])
      {
        if i == logcatColors.Length {
          return true;
        }
        logcatColors[i] := Some(parseColor(colors[i]));
        i := i + 1;
      }
      showLogColors := true;
      thrown := false;
    }

    /** start: hands a fresh runnable to the reader thread. */
    method Start()
      modifies this
      ensures fresh(logRunnable) && logRunnable.outer == this && !logRunnable.isCrash
      ensures logType == old(logType) && bgColor == old(bgColor) && cleanCache == old(cleanCache)
      ensures showLogColors == old(showLogColors) && logcatColors == old(logcatColors)
    {
      logRunnable := new LogRunnable(this);
    }

    /** outputLogcat: writes the units LineOutput gives for one line, and
        reports whether a colour lookup threw. */
    method OutputLogcat(writer: Writer, str: string) returns (aborted: bool)
      modifies writer
      ensures writer.text == old(writer.text) + Join(LineOutput(Snapshot(), str).units)
      ensures aborted == LineOutput(Snapshot(), str).aborted
    {
      var logcats := if logType.Some? && |logType.value| > 0 then logType.value else TAGS;
      if showLogColors {
        aborted := WriteColoredMatches(writer, logcats, str);
      } else {
        if logType.Some? && |logType.value| > 0 {
          WriteMatches(writer, logcats, str);
        } else {
          WriteWithoutColors(writer, str);
          JoinSnoc([], str);
          assert [] + [str] == [str];
        }
        aborted := false;
      }
    }

    /** The coloured branch of outputLogcat: for each tag in order that the
        line contains, a font unit in the colour at the tag's index; a tag
        index past the colour table throws and ends the line's output. */
    method WriteColoredMatches(writer: Writer, logcats: seq<string>, str: string) returns (aborted: bool)
      modifies writer
      ensures writer.text == old(writer.text) + Join(ColoredUnits(logcats, logcatColors[..], str, |logcats|).units)
      ensures aborted == ColoredUnits(logcats, logcatColors[..], str, |logcats|).aborted
    {
      ghost var base := writer.text;
      ghost var colors := logcatColors[..];
      var i := 0;
      while i < |logcats|
        invariant 0 <= i <= |logcats|
        invariant colors == logcatColors[..]
        invariant !ColoredUnits(logcats, colors, str, i).aborted
        invariant writer.text == base + Join(ColoredUnits(logcats, colors, str, i).units)
      {
        if Contains(str, logcats[i]) {
          if i >= logcatColors.Length {
            ColoredAbortStep(logcats, colors, str, i);
            return true;
          }
          ghost var before := writer.text;
          assert logcatColors[i] == colors[i];
          WriteWithColors(writer, logcatColors[i], str);
          ColoredWriteStep(base, before, writer.text, logcats, colors, str, i);
        } else {
          ColoredSkipStep(logcats, colors, str, i);
        }
        i := i + 1;
      }
      aborted := false;
    }

    /** The filtered colourless branch of outputLogcat: the line once for
        each configured tag it contains. */
    method WriteMatches(writer: Writer, logcats: seq<string>, str: string)
      modifies writer
      ensures writer.text == old(writer.text) + Join(PlainUnits(logcats, str, |logcats|))
    {
      ghost var base := writer.text;
      var i := 0;
      while i < |logcats|
        invariant 0 <= i <= |logcats|
        invariant writer.text == base + Join(PlainUnits(logcats, str, i))
      {
        if Contains(str, logcats[i]) {
          ghost var before := writer.text;
          WriteWithoutColors(writer, str);
          PlainWriteStep(base, before, writer.text, logcats, str, i);
        } else {
          PlainSkipStep(logcats, str, i);
        }
        i := i + 1;
      }
    }

    method WriteWithoutColors(writer: Writer, str: string)
      modifies writer
      ensures writer.text == old(writer.text) + str + LogOutput.NewLine
    {
      writer.Write(str);
      Flush(writer);
    }

    method WriteWithColors(writer: Writer, color: Option<string>, str: string)
      modifies writer
      ensures writer.text == old(writer.text) + FontUnit(color, str) + LogOutput.NewLine
    {
      writer.Write("<font size=\"3\" color=\"" + StringOf(color) + "\">" + str + "</font></br>");
      Flush(writer);
    }

    /** flush: a line break, then the buffer goes to the file. */
    method Flush(writer: Writer)
      modifies writer
      ensures writer.text == old(writer.text) + LogOutput.NewLine
    {
      writer.NewLine();
    }
  }

  /** The reader thread's body. */
  class LogRunnable {
    var isCrash: bool
    const outer: LogCollector

    constructor (outer: LogCollector)
      ensures this.outer == outer && !isCrash
    {
      this.outer := outer;
      isCrash := false;
    }

    /** run: feeds logcat's lines through outputLogcat in arrival order until
        isCrash is seen, the stream ends or an exception ends the thread, and
        returns the content the cache file is left with.
        `lines` are the lines logcat delivers; the crash hook's write on the
        other thread becomes visible just before the check that precedes
        read `crashAt`; `readFails` says whether the read after the last line
        throws an IOException instead of returning null. */
    method Run(lines: seq<string>, crashAt: nat, readFails: bool) returns (file: string, end: RunEnd)
      modifies this
      ensures RunOutcome(file, end) == RunResult(outer.Snapshot(), lines, if old(isCrash) then 0 else crashAt, readFails)
      ensures isCrash <==> end == Crashed
    {
      ghost var cfg := outer.Snapshot();
      var seen: nat := if isCrash then 0 else crashAt;
      var writer := new Writer();
      if outer.showLogColors {
        writer.Write("<body bgcolor=\" " + outer.bgColor + " \">");
      }
      ghost var head := writer.text;
      assert head == Head(cfg);
      var k := 0;
      if seen == 0 {
        isCrash := true;
      }
      while !isCrash && k < |lines|
        invariant 0 <= k <= |lines| && k <= seen
        invariant isCrash <==> seen == k
        invariant cfg == outer.Snapshot()
        invariant !Feed(cfg, lines[..k]).aborted
        invariant writer.text == head + Join(Feed(cfg, lines[..k]).units)
        decreases |lines| - k
      {
        FeedWriteStep(head, writer.text, cfg, lines, k);
        var aborted := outer.OutputLogcat(writer, lines[k]);
        if aborted {
          RunAborted(cfg, lines, seen, readFails, k);
          return writer.text, Aborted;
        }
        k := k + 1;
        if k == seen {
          isCrash := true;
        }
      }
      RunStopped(cfg, lines, seen, readFails, k);
      var ended := Crashed;
      if !isCrash {
        // readLine after the last line: null, or an IOException
        if readFails {
          return writer.text, ReadFailed;
        }
        ended := EndOfStream;
      }
      if outer.showLogColors {
        writer.Write("</body>");
      }
      file, end := writer.text, ended;
    }
  }
}
