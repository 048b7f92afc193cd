/** The process logger: level filtering, the decoration of a line (level
    tag, then context, then timestamp, then colour) and the request logger's
    classification of finished requests. The console, the clock and the
    optional `meta` argument are not modelled: a logging call returns the
    formatted message handed to the console, and timestamps and durations
    are parameters. */
module Logging {
  import opened Common
  import opened Strings

  datatype Level = ERROR | WARN | INFO | DEBUG

  /** `Object.values(LogLevel)`: the levels in declaration order. */
  const Levels: seq<Level> := [ERROR, WARN, INFO, DEBUG]

  function LevelName(l: Level): string
  {
    match l
    case ERROR => "ERROR"
    case WARN => "WARN"
    case INFO => "INFO"
    case DEBUG => "DEBUG"
  }

  /** `levels.indexOf(x)`: the position of the first occurrence of `x`,
      or -1 when there is none. */
  function IndexOf(levels: seq<Level>, x: Level): (i: int)
    ensures -1 <= i < |levels|
    ensures i >= 0 ==> levels[i] == x && x !in levels[..i]
    ensures i == -1 <==> x !in levels
    decreases |levels|
  {
    if |levels| == 0 then -1
    else if levels[0] == x then 0
    else
      var k := IndexOf(levels[1..], x);
      if k == -1 then -1
      else
        assert levels[..k + 1] == [levels[0]] + levels[1..][..k];
        k + 1
  }

  /** The severity rank of each level, most severe first. */
  function Severity(l: Level): nat
  {
    match l
    case ERROR => 0
    case WARN => 1
    case INFO => 2
    case DEBUG => 3
  }

  /** Every level occurs in `Levels`, at the position of its rank. */
  lemma IndexOfLevels(l: Level)
    ensures IndexOf(Levels, l) == Severity(l)
  {
    assert Levels[0] == ERROR && Levels[1] == WARN && Levels[2] == INFO && Levels[3] == DEBUG;
    assert Levels[1..] == [WARN, INFO, DEBUG];
    assert Levels[1..][1..] == [INFO, DEBUG];
    assert Levels[1..][1..][1..] == [DEBUG];
  }

  datatype LoggerConfig = LoggerConfig(level: Level, includeTimestamp: bool, colorize: bool)

  /** `Partial<LoggerConfig>`: the fields given to the constructor. */
  datatype PartialConfig = PartialConfig(level: Option<Level>, includeTimestamp: Option<bool>, colorize: Option<bool>)

  const NoOverrides: PartialConfig := PartialConfig(None, None, None)

  /** `defaultConfig`, for the value of `NODE_ENV` at start-up. */
  function DefaultConfig(nodeEnv: Option<string>): (c: LoggerConfig)
    ensures c.includeTimestamp
    ensures nodeEnv == Some("production") ==> c.level == INFO && !c.colorize
    ensures nodeEnv != Some("production") ==> c.level == DEBUG && c.colorize
  {
    var production := nodeEnv == Some("production");
    LoggerConfig(if production then INFO else DEBUG, true, !production)
  }

  /** `{...defaults, ...overrides}`. */
  function Merge(defaults: LoggerConfig, overrides: PartialConfig): (c: LoggerConfig)
    ensures c.level == if overrides.level.Some? then overrides.level.value else defaults.level
    ensures c.includeTimestamp ==
      if overrides.includeTimestamp.Some? then overrides.includeTimestamp.value else defaults.includeTimestamp
    ensures c.colorize == if overrides.colorize.Some? then overrides.colorize.value else defaults.colorize
  {
    LoggerConfig(
      if overrides.level.Some? then overrides.level.value else defaults.level,
      if overrides.includeTimestamp.Some? then overrides.includeTimestamp.value else defaults.includeTimestamp,
      if overrides.colorize.Some? then overrides.colorize.value else defaults.colorize)
  }

  /** Merging nothing keeps the defaults; merging a full configuration
      replaces them. */
  lemma MergeKeepsOrReplaces(defaults: LoggerConfig, c: LoggerConfig)
    ensures Merge(defaults, NoOverrides) == defaults
    ensures Merge(defaults, PartialConfig(Some(c.level), Some(c.includeTimestamp), Some(c.colorize))) == c
  {
  }

  // ---------------------------------------------------------------------
  // Filtering and decoration

  /** `shouldLog(level)`: a level is printed when it is at least as severe
      as the configured one. ERROR passes every filter, DEBUG only its own,
      and the DEBUG setting lets everything pass. */
  predicate ShouldLog(config: LoggerConfig, level: Level)
    ensures level == ERROR ==> ShouldLog(config, level)
    ensures level == DEBUG ==> (ShouldLog(config, level) <==> config.level == DEBUG)
    ensures config.level == DEBUG ==> ShouldLog(config, level)
  {
    Severity(level) <= Severity(config.level)
  }

  /** This is the comparison the logger makes: the level's position in
      `Object.values(LogLevel)` is at most the configured level's. */
  lemma ShouldLogComparesPositions(config: LoggerConfig, level: Level)
    ensures ShouldLog(config, level) <==> IndexOf(Levels, level) <= IndexOf(Levels, config.level)
  {
    IndexOfLevels(level);
    IndexOfLevels(config.level);
  }

  /** A level that passes the filter lets every more severe level pass too. */
  lemma FilterIsOrdered(config: LoggerConfig, level: Level, other: Level)
    ensures ShouldLog(config, level) && Severity(other) <= Severity(level) ==> ShouldLog(config, other)
  {
  }

  const Reset: string := "\U{001B}[0m"

  function ColorOf(l: Level): (code: string)
    ensures |code| == 5
  {
    match l
    case ERROR => "\U{001B}[31m"
    case WARN => "\U{001B}[33m"
    case INFO => "\U{001B}[34m"
    case DEBUG => "\U{001B}[90m"
  }

  /** `formatMessage(level, message)`: the level tag in front of the
      message, which reads back as the level and the message. */
  function FormatMessage(level: Level, message: string): (r: string)
    ensures ReadLevelTag(r) == Some((level, message))
  {
    var tag := "[" + LevelName(level) + "] ";
    PrefixThenRest(tag, message);
    assert (tag + message)[1] == LevelName(level)[0];
    tag + message
  }

  /** The prefix the logger's context adds. */
  function ContextPrefix(context: string): string
  {
    "[" + context + "] "
  }

  /** `colorize(level, message)`. */
  function Colorize(level: Level, message: string): (r: string)
    ensures |r| == |message| + 9
  {
    ColorOf(level) + message + Reset
  }

  /** The line before colouring: the level tag, then the context, then the
      timestamp in front. The timestamp and the context come off again and
      the tag gives back the level and the message. */
  function Uncoloured(config: LoggerConfig, context: Option<string>, level: Level, message: string,
                      timestamp: string): (r: string)
    ensures ReadPlain(config, context, timestamp, r) == Some((level, message))
  {
    var tagged := FormatMessage(level, message);
    var withContext := if TruthyString(context) then ContextPrefix(context.value) + tagged else tagged;
    var line := if config.includeTimestamp then timestamp + " " + withContext else withContext;
    assert ReadPlain(config, context, timestamp, line) == Some((level, message)) by {
      if TruthyString(context) {
        PrefixThenRest(ContextPrefix(context.value), tagged);
      }
      if config.includeTimestamp {
        PrefixThenRest(timestamp + " ", withContext);
      }
    }
    line
  }

  /** The line `log` prints for a message that passes the filter: the
      level tag, then the context, then the timestamp, then the colour. The
      layers come off again in the reverse order, giving back the level and
      the message: nothing of either is lost, and the timestamp and the
      context sit outside the level tag. */
  function Decorate(config: LoggerConfig, context: Option<string>, level: Level, message: string,
                    timestamp: string): (r: string)
    ensures ReadLine(config, context, timestamp, r) == Some((level, message))
  {
    var stamped := Uncoloured(config, context, level, message, timestamp);
    if config.colorize then UncolorizeColorize(level, stamped); Colorize(level, stamped) else stamped
  }

  /** What one logging call prints: nothing when the level is filtered out. */
  function Emitted(config: LoggerConfig, context: Option<string>, level: Level, message: string,
                   timestamp: string): (r: Option<string>)
    ensures r.Some? <==> ShouldLog(config, level)
  {
    if ShouldLog(config, level) then Some(Decorate(config, context, level, message, timestamp)) else None
  }

  // ---------------------------------------------------------------------
  // Reading a decorated line back

  function LevelOfColor(code: string): Option<Level>
  {
    if code == ColorOf(ERROR) then Some(ERROR)
    else if code == ColorOf(WARN) then Some(WARN)
    else if code == ColorOf(INFO) then Some(INFO)
    else if code == ColorOf(DEBUG) then Some(DEBUG)
    else None
  }

  /** Removes the colour codes: the level they stand for and the text
      between them. */
  function Uncolorize(s: string): Option<(Level, string)>
  {
    if |s| >= 9 && s[|s| - 4..] == Reset then
      match LevelOfColor(s[..5])
      case None => None
      case Some(l) => Some((l, s[5..|s| - 4]))
    else None
  }

  lemma UncolorizeColorize(level: Level, message: string)
    ensures Uncolorize(Colorize(level, message)) == Some((level, message))
  {
    var s := Colorize(level, message);
    assert s[..5] == ColorOf(level);
    assert s[|s| - 4..] == Reset;
    assert s[5..|s| - 4] == message;
  }

  /** Reads the level tag at the start of `s`. */
  function ReadLevelTag(s: string): Option<(Level, string)>
  {
    if StartsWith(s, "[ERROR] ") then Some((ERROR, s[8..]))
    else if StartsWith(s, "[WARN] ") then Some((WARN, s[7..]))
    else if StartsWith(s, "[INFO] ") then Some((INFO, s[7..]))
    else if StartsWith(s, "[DEBUG] ") then Some((DEBUG, s[8..]))
    else None
  }

  /** Undoes the decoration of `config` and `context`, outermost layer
      first, and checks that the colour and the tag name the same level. */
  function ReadLine(config: LoggerConfig, context: Option<string>, timestamp: string, line: string)
    : Option<(Level, string)>
  {
    if config.colorize then
      match Uncolorize(line)
      case None => None
      case Some((l, inner)) =>
        match ReadPlain(config, context, timestamp, inner)
        case None => None
        case Some((tagLevel, message)) => if tagLevel == l then Some((l, message)) else None
    else ReadPlain(config, context, timestamp, line)
  }

  function ReadPlain(config: LoggerConfig, context: Option<string>, timestamp: string, line: string)
    : Option<(Level, string)>
  {
    var unstamped := if config.includeTimestamp then StripPrefix(line, timestamp + " ") else Some(line);
    if unstamped.None? then None
    else
      var bare := if TruthyString(context) then StripPrefix(unstamped.value, ContextPrefix(context.value))
                  else unstamped;
      if bare.None? then None else ReadLevelTag(bare.value)
  }

  // ---------------------------------------------------------------------
  // The logger object

  class Logger {
    const config: LoggerConfig
    const context: Option<string>

    /** `new Logger(overrides, context)`; `nodeEnv` is `NODE_ENV` at
        start-up. */
    constructor (overrides: PartialConfig, context: Option<string>, nodeEnv: Option<string>)
      ensures config == Merge(DefaultConfig(nodeEnv), overrides)
      ensures this.context == context
    {
      config := Merge(DefaultConfig(nodeEnv), overrides);
      this.context := context;
    }

    /** `Logger.forContext(context, overrides)`. */
    static method ForContext(context: string, overrides: PartialConfig, nodeEnv: Option<string>)
      returns (logger: Logger)
      ensures fresh(logger)
      ensures logger.config == Merge(DefaultConfig(nodeEnv), overrides)
      ensures logger.context == Some(context)
    {
      logger := new Logger(overrides, Some(context), nodeEnv);
    }

    /** `log(level, message)`: the formatted message handed to the
        console, built up one layer at a time; `None` when the level is
        filtered out. */
    method Log(level: Level, message: string, timestamp: string) returns (line: Option<string>)
      ensures line == Emitted(config, context, level, message, timestamp)
      ensures line.Some? ==> ReadLine(config, context, timestamp, line.value) == Some((level, message))
    {
      if !ShouldLog(config, level) {
        return None;
      }
      var formattedMessage := FormatMessage(level, message);
      if context.Some? && context.value != "" {
        formattedMessage := "[" + context.value + "] " + formattedMessage;
      }
      if config.includeTimestamp {
        formattedMessage := timestamp + " " + formattedMessage;
      }
      if config.colorize {
        formattedMessage := Colorize(level, formattedMessage);
      }
      line := Some(formattedMessage);
    }

    /** `error(message)`: always printed. */
    method Error(message: string, timestamp: string) returns (line: Option<string>)
      ensures line == Emitted(config, context, ERROR, message, timestamp)
      ensures line == Some(Decorate(config, context, ERROR, message, timestamp))
    {
      line := Log(ERROR, message, timestamp);
    }

    /** `warn(message)`: printed unless the configured level is ERROR. */
    method Warn(message: string, timestamp: string) returns (line: Option<string>)
      ensures line == Emitted(config, context, WARN, message, timestamp)
      ensures line.Some? <==> config.level != ERROR
      ensures line.Some? ==> line.value == Decorate(config, context, WARN, message, timestamp)
    {
      line := Log(WARN, message, timestamp);
    }

    /** `info(message)`: printed at levels INFO and DEBUG. */
    method Info(message: string, timestamp: string) returns (line: Option<string>)
      ensures line == Emitted(config, context, INFO, message, timestamp)
      ensures line.Some? <==> config.level in {INFO, DEBUG}
      ensures line.Some? ==> line.value == Decorate(config, context, INFO, message, timestamp)
    {
      line := Log(INFO, message, timestamp);
    }

    /** `debug(message)`: printed only at level DEBUG. */
    method Debug(message: string, timestamp: string) returns (line: Option<string>)
      ensures line == Emitted(config, context, DEBUG, message, timestamp)
      ensures line.Some? <==> config.level == DEBUG
      ensures line.Some? ==> line.value == Decorate(config, context, DEBUG, message, timestamp)
    {
      line := Log(DEBUG, message, timestamp);
    }
  }

  // ---------------------------------------------------------------------
  // The request logger

  /** The level a finished request is logged at. */
  function FinishLevel(statusCode: int): (l: Level)
    ensures l == ERROR <==> statusCode >= 500
    ensures l == WARN <==> 400 <= statusCode < 500
    ensures l == INFO <==> statusCode < 400
  {
    if statusCode >= 500 then ERROR
    else if statusCode >= 400 then WARN
    else INFO
  }

  /** `${method} ${originalUrl} - ${ip}`: the client's address follows
      the request line. */
  function StartMessage(verb: string, url: string, ip: string): (m: string)
    ensures StripPrefix(m, verb + " " + url + " - ") == Some(ip)
  {
    PrefixThenRest(verb + " " + url + " - ", ip);
    verb + " " + url + " - " + ip
  }

  /** `${method} ${originalUrl} ${statusCode} - ${duration}ms`: the
      request line in front, the unit of the duration at the end. */
  function FinishMessage(verb: string, url: string, statusCode: int, duration: int): (m: string)
    ensures StartsWith(m, verb + " " + url + " ")
    ensures m[|m| - 2..] == "ms"
  {
    var head := verb + " " + url + " ";
    var m := head + IntToString(statusCode) + " - " + IntToString(duration) + "ms";
    assert m[..|head|] == head;
    m
  }

  /** `requestLogger` for one request: the line printed when it arrives and
      the line printed when its response finishes, through `logger`. The
      clock readings `start` and `finish` and the two timestamps are given. */
  method RequestLog(logger: Logger, verb: string, url: string, ip: string, statusCode: int,
                    start: int, finish: int, arrivedAt: string, finishedAt: string)
    returns (startLine: Option<string>, finishLine: Option<string>)
    ensures startLine == Emitted(logger.config, logger.context, INFO, StartMessage(verb, url, ip), arrivedAt)
    ensures finishLine == Emitted(logger.config, logger.context, FinishLevel(statusCode),
                                  FinishMessage(verb, url, statusCode, finish - start), finishedAt)
  {
    startLine := logger.Info(StartMessage(verb, url, ip), arrivedAt);
    var duration := finish - start;
    var message := FinishMessage(verb, url, statusCode, duration);
    if statusCode >= 500 {
      assert FinishLevel(statusCode) == ERROR;
      finishLine := logger.Error(message, finishedAt);
    } else if statusCode >= 400 {
      assert FinishLevel(statusCode) == WARN;
      finishLine := logger.Warn(message, finishedAt);
    } else {
      assert FinishLevel(statusCode) == INFO;
      finishLine := logger.Info(message, finishedAt);
    }
  }

  /** Which finished requests are printed: server errors always, client
      errors unless the level is ERROR, the rest at INFO and DEBUG. In the
      production default every finished request is printed. */
  lemma FinishLinePrinted(config: LoggerConfig, context: Option<string>, verb: string, url: string,
                          statusCode: int, duration: int, timestamp: string)
    ensures Emitted(config, context, FinishLevel(statusCode), FinishMessage(verb, url, statusCode, duration),
                    timestamp).Some?
      <==> statusCode >= 500 || (statusCode >= 400 && config.level != ERROR) || config.level in {INFO, DEBUG}
    ensures config == DefaultConfig(Some("production")) ==>
      Emitted(config, context, FinishLevel(statusCode), FinishMessage(verb, url, statusCode, duration),
              timestamp).Some?
  {
  }

  /** The status code can be read back from a finish message: it is the
      number right after the method and the URL. */
  lemma FinishMessageCarriesStatus(verb: string, url: string, statusCode: int, duration: int)
    ensures var m := FinishMessage(verb, url, statusCode, duration);
      ParseInt(m[|verb + " " + url + " "|..]) == Some(statusCode)
  {
    var head := verb + " " + url + " ";
    var code, d := IntToString(statusCode), IntToString(duration);
    var tail := " - " + d + "ms";
    var m := FinishMessage(verb, url, statusCode, duration);
    assert m == head + code + " - " + d + "ms";
    Regroup(head, code, " - " + d, "ms");
    assert m == head + (code + tail);
    PrefixThenRest(head, code + tail);
    assert tail[0] == ' ';
    IntToStringParsesBefore(statusCode, tail);
  }

  /** The duration can be read back from a finish message: it is the number
      after the status code and the dash, followed by the unit. */
  lemma FinishMessageCarriesDuration(verb: string, url: string, statusCode: int, duration: int)
    ensures var m := FinishMessage(verb, url, statusCode, duration);
      ParseInt(m[|verb + " " + url + " " + IntToString(statusCode) + " - "|..]) == Some(duration)
  {
    var head := verb + " " + url + " " + IntToString(statusCode) + " - ";
    var d := IntToString(duration);
    var m := FinishMessage(verb, url, statusCode, duration);
    assert m == head + (d + "ms");
    PrefixThenRest(head, d + "ms");
    IntToStringParsesBefore(duration, "ms");
  }
}
