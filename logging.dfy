/**
 * The logger object and its sinks. A `Logger` keeps its category, its
 * resolved options and, when a file name was given, the write stream it
 * opened; every log call asks the registry whether it passes, then hands
 * the file line to the stream and the console line to the console.
 */
module Logging {
  import opened Wrappers
  import opened Values
  import opened Levels
  import opened Palette
  import opened Config
  import opened Format

  /** The host console: every `console.log` call, as its argument list. */
  class Console {
    var calls: seq<seq<string>>

    constructor()
      ensures calls == []
    {
      calls := [];
    }

    method Log(args: seq<string>)
      modifies this
      ensures calls == old(calls) + [args]
    {
      calls := calls + [args];
    }
  }

  /** A stream opened by `fs.createWriteStream(path, { flags })`; flags `"a"` appends, `"w"` truncates. */
  datatype FileHandle = FileHandle(path: string, flags: string)

  /** The `Logger` class; `create(category, options)` is its constructor. */
  class Logger {
    const target: Target
    const category: string
    const options: Options
    const fileWriter: Option<FileHandle>
    /** Every string handed to the file stream, in order. */
    var written: seq<string>

    /**
     * What a log call at `level` does: nothing when the threshold filters it
     * out; otherwise the file line (first clock reading) plus a line break
     * goes to the stream if there is one, and exactly one console call is
     * made with the console arguments (second clock reading).
     */
    twostate predicate Logged(level: Level, text: string, firstClock: string, secondClock: string,
                              registry: Registry, console: Console)
      reads this, registry, console
    {
      if !ShouldLog(level, registry.threshold) then
        written == old(written) && console.calls == old(console.calls)
      else
        && written == old(written)
             + (if fileWriter.Some? then [Unformatted(target, options, category, level, text, firstClock) + "\n"] else [])
        && console.calls == old(console.calls) + [ConsoleCall(target, options, category, level, text, secondClock)]
    }

    /**
     * The options are the caller's laid over the defaults; a stream is
     * opened iff the file name is truthy, appending iff `appendFile` is.
     */
    constructor(target: Target, category: string, given: Options)
      ensures this.target == target && this.category == category
      ensures options == Resolve(target, given)
      ensures fileWriter == if Flag(options, Filename)
                            then Some(FileHandle(Setting(options, Filename), if Flag(options, AppendFile) then "a" else "w"))
                            else None
      ensures written == []
    {
      this.target := target;
      this.category := category;
      var opts := Assign(map[], Defaults(target));
      opts := Assign(opts, given);
      this.options := opts;
      if Flag(opts, Filename) {
        var flags := if Flag(opts, AppendFile) then "a" else "w";
        this.fileWriter := Some(FileHandle(Setting(opts, Filename), flags));
      } else {
        this.fileWriter := None;
      }
      this.written := [];
    }

    /** `_write(level, text)`; the two clock readings are those of the two `_createLogMessage` calls. */
    method Write(level: Level, text: string, firstClock: string, secondClock: string, registry: Registry, console: Console)
      modifies this, console
      ensures Logged(level, text, firstClock, secondClock, registry, console)
    {
      if !registry.Active(level) {
        return;
      }
      var format := FormatStyles(target, options, level);
      var unformattedText := CreateLogMessage(target, options, category, level, text, firstClock, None, None, None, None);
      var formattedText := CreateLogMessage(target, options, category, level, text, secondClock,
                                            Some(format.timestamp), Some(format.level), Some(format.category), Some(format.text));
      assert formattedText == Formatted(target, options, category, level, text, secondClock);
      if fileWriter.Some? {
        written := written + [unformattedText + "\n"];
      }
      var args := ConsoleArguments(target, options, category, level, text, secondClock, format, formattedText);
      console.Log(args);
    }

    method Debug(text: string, firstClock: string, secondClock: string, registry: Registry, console: Console)
      modifies this, console
      ensures Logged(DEBUG, text, firstClock, secondClock, registry, console)
    {
      Write(DEBUG, text, firstClock, secondClock, registry, console);
    }

    method Info(text: string, firstClock: string, secondClock: string, registry: Registry, console: Console)
      modifies this, console
      ensures Logged(INFO, text, firstClock, secondClock, registry, console)
    {
      Write(INFO, text, firstClock, secondClock, registry, console);
    }

    method Warn(text: string, firstClock: string, secondClock: string, registry: Registry, console: Console)
      modifies this, console
      ensures Logged(WARN, text, firstClock, secondClock, registry, console)
    {
      Write(WARN, text, firstClock, secondClock, registry, console);
    }

    method Error(text: string, firstClock: string, secondClock: string, registry: Registry, console: Console)
      modifies this, console
      ensures Logged(ERROR, text, firstClock, secondClock, registry, console)
    {
      Write(ERROR, text, firstClock, secondClock, registry, console);
    }
  }

  /**
   * The branch of `_write` that picks the `console.log` arguments: the
   * formatted line alone on Node; on the browser the line followed by the
   * style tokens of the segments shown.
   */
  method ConsoleArguments(target: Target, o: Options, category: string, level: Level, text: string, now: string,
                          format: Styles, formattedText: string) returns (args: seq<string>)
    requires format == FormatStyles(target, o, level)
    requires formattedText == Formatted(target, o, category, level, text, now)
    ensures args == ConsoleCall(target, o, category, level, text, now)
  {
    var showTimestamp, showLevel := Flag(o, ShowTimestamp), Flag(o, ShowLevel);
    if target == Node {
      args := [formattedText];
    } else {
      BrowserConsoleArguments(o, category, level, text, now);
      if showTimestamp && showLevel {
        args := [formattedText, format.timestamp, format.level, format.category, format.text];
      } else if showTimestamp && !showLevel {
        args := [formattedText, format.timestamp, format.category, format.text];
      } else if !showTimestamp && showLevel {
        args := [formattedText, format.level, format.category, format.text];
      } else {
        args := [formattedText, format.category, format.text];
      }
    }
  }

  /** With the threshold set to NONE, a call of each entry point leaves both sinks untouched. */
  method SilencedByNone(logger: Logger, registry: Registry, console: Console, text: string, firstClock: string, secondClock: string)
    modifies logger, registry, console
    ensures registry.threshold == Str(Name(NONE))
    ensures logger.written == old(logger.written) && console.calls == old(console.calls)
  {
    registry.SetLogLevel(Str(Name(NONE)));
    NoneSilencesEmitting(DEBUG);
    NoneSilencesEmitting(INFO);
    NoneSilencesEmitting(WARN);
    NoneSilencesEmitting(ERROR);
    logger.Debug(text, firstClock, secondClock, registry, console);
    logger.Info(text, firstClock, secondClock, registry, console);
    logger.Warn(text, firstClock, secondClock, registry, console);
    logger.Error(text, firstClock, secondClock, registry, console);
  }

  /**
   * Threshold INFO, a Node logger for `Net` with timestamp off, level on and
   * colours off, `warn("retry")`: one console call with `[WARN]  Net: retry`
   * and no file output.
   */
  method NetWarnScenario(firstClock: string, secondClock: string) returns (calls: seq<seq<string>>, written: seq<string>)
    ensures calls == [["[WARN]  Net: retry"]]
    ensures written == []
  {
    var registry := new Registry();
    registry.SetLogLevel(Str(Name(INFO)));
    var console := new Console();
    var given := map[ShowTimestamp := Bool(false), ShowLevel := Bool(true), UseColors := Bool(false)];
    var logger := new Logger(Node, "Net", given);
    FileOptionsFollowCaller(Node, given);
    assert logger.fileWriter == None;
    ShouldLogByRank(WARN, INFO);
    WarnWithoutTimestampOrColours(secondClock);
    logger.Warn("retry", firstClock, secondClock, registry, console);
    calls, written := console.calls, logger.written;
  }
}
