/** The logger of Logger.h and Logger.cpp: every entry is formatted as
    "<timestamp> [<LEVEL>] <message>" and appended to the in-memory record
    `logs`. The console and file sinks, the mutex and the reading of the
    system clock are not modelled; the clock is a function that gives the
    instant at which the k-th entry is made. */
module Logging {
  import opened Text
  import opened Wrappers

  /** The four levels, in declaration order (values 0 to 3 of the C++ enum). */
  datatype LogLevel = Info | Warning | Err | Debug

  function LevelCode(level: LogLevel): nat {
    match level
    case Info => 0
    case Warning => 1
    case Err => 2
    case Debug => 3
  }

  /** The level whose enum value is `code`; None for values no level has. */
  function LevelOfCode(code: int): (r: Option<LogLevel>)
    ensures r.Some? <==> 0 <= code < 4
    ensures r.Some? ==> LevelCode(r.value) == code
  {
    if code == 0 then Some(Info)
    else if code == 1 then Some(Warning)
    else if code == 2 then Some(Err)
    else if code == 3 then Some(Debug)
    else None
  }

  lemma LevelCodeRoundTrip(level: LogLevel)
    ensures LevelOfCode(LevelCode(level)) == Some(level)
  {
  }

  /** LogLevelToString on a declared level. Err prints as "ERROR". */
  function LevelName(level: LogLevel): string {
    match level
    case Info => "INFO"
    case Warning => "WARNING"
    case Err => "ERROR"
    case Debug => "DEBUG"
  }

  /** LogLevelToString on any value the enum can hold, including the values
      no level has, which take the default branch. */
  function LevelNameOfCode(code: int): (name: string)
    ensures name == "UNKNOWN" <==> !(0 <= code < 4)
    ensures 0 <= code < 4 ==> name == LevelName(LevelOfCode(code).value)
  {
    match LevelOfCode(code)
    case Some(level) => LevelName(level)
    case None => "UNKNOWN"
  }

  /** Distinct levels print differently. */
  lemma LevelNameInjective(a: LogLevel, b: LogLevel)
    requires LevelName(a) == LevelName(b)
    ensures a == b
  {
  }

  /** What the system clock reports at one instant: the local date and time
      as `put_time` prints "%Y-%m-%d %H:%M:%S", and the milliseconds since
      the epoch. */
  datatype Instant = Instant(localTime: string, epochMillis: nat)

  /** GetTimestamp: the local time, a '.', and the milliseconds within the
      current second as exactly three zero-filled digits. */
  function Timestamp(t: Instant): string {
    t.localTime + "." + ZeroPad3(t.epochMillis % 1000)
  }

  /** A timestamp is the local time followed by '.' and three digits that
      read back as the milliseconds within the second. */
  lemma TimestampFormat(t: Instant)
    ensures |Timestamp(t)| == |t.localTime| + 4
    ensures Timestamp(t)[..|t.localTime|] == t.localTime && Timestamp(t)[|t.localTime|] == '.'
    ensures IsDigits(Timestamp(t)[|t.localTime| + 1..])
    ensures DecimalValue(Timestamp(t)[|t.localTime| + 1..]) == t.epochMillis % 1000
  {
    ZeroPad3Digits(t.epochMillis % 1000);
    assert Timestamp(t)[|t.localTime| + 1..] == ZeroPad3(t.epochMillis % 1000);
  }

  /** One record of the log, before formatting. */
  datatype Entry = Entry(timestamp: string, level: LogLevel, message: string)

  /** The line Log builds: timestamp, " [", the level's name, "] ", message. */
  function Render(e: Entry): string {
    e.timestamp + " [" + LevelName(e.level) + "] " + e.message
  }

  predicate IsPrefix(p: string, s: string) {
    |p| <= |s| && s[..|p|] == p
  }

  /** The level whose name, closed by "] ", starts `s`. */
  function LevelPrefix(s: string): Option<LogLevel> {
    if IsPrefix(LevelName(Info) + "] ", s) then Some(Info)
    else if IsPrefix(LevelName(Warning) + "] ", s) then Some(Warning)
    else if IsPrefix(LevelName(Err) + "] ", s) then Some(Err)
    else if IsPrefix(LevelName(Debug) + "] ", s) then Some(Debug)
    else None
  }

  /** Reads a formatted line back, given the length of its timestamp. */
  function Parse(timestampLength: nat, line: string): Option<Entry> {
    if |line| < timestampLength + 2 || line[timestampLength..timestampLength + 2] != " [" then None
    else
      var rest := line[timestampLength + 2..];
      match LevelPrefix(rest)
      case None => None
      case Some(level) =>
        Some(Entry(line[..timestampLength], level, rest[|LevelName(level)| + 2..]))
  }

  lemma LevelPrefixOfName(level: LogLevel, message: string)
    ensures LevelPrefix(LevelName(level) + "] " + message) == Some(level)
  {
    var s := LevelName(level) + "] " + message;
    assert IsPrefix(LevelName(level) + "] ", s) by {
      assert s[..|LevelName(level) + "] "|] == LevelName(level) + "] ";
    }
    forall other: LogLevel | other != level
      ensures !IsPrefix(LevelName(other) + "] ", s)
    {
      assert s[0] == LevelName(level)[0];
      assert (LevelName(other) + "] ")[0] == LevelName(other)[0];
    }
  }

  /** A formatted line determines its timestamp, level and message. */
  lemma ParseRender(e: Entry)
    ensures Parse(|e.timestamp|, Render(e)) == Some(e)
  {
    var n := |e.timestamp|;
    var line := Render(e);
    var tail := LevelName(e.level) + "] " + e.message;
    assert line == e.timestamp + " [" + tail;
    assert line[n..n + 2] == " [";
    assert line[n + 2..] == tail;
    LevelPrefixOfName(e.level, e.message);
    assert tail[|LevelName(e.level)| + 2..] == e.message;
    assert line[..n] == e.timestamp;
  }

  /** Two lines with timestamps of the same length are equal only when their
      timestamps, levels and messages are. */
  lemma RenderInjective(a: Entry, b: Entry)
    requires |a.timestamp| == |b.timestamp| && Render(a) == Render(b)
    ensures a == b
  {
    ParseRender(a);
    ParseRender(b);
  }

  /** A message as it was handed to Log, with its level. */
  datatype Message = Message(level: LogLevel, text: string)

  /** The line that records message m as the k-th entry, made at the
      instant clock(k). */
  function Line(clock: nat -> Instant, k: nat, m: Message): string {
    Render(Entry(Timestamp(clock(k)), m.level, m.text))
  }

  /** `logs` is the record of the messages `history`: one line per message,
      the k-th formatted with the k-th instant. */
  ghost predicate Formats(clock: nat -> Instant, logs: seq<string>, history: seq<Message>) {
    |logs| == |history| &&
    forall k :: 0 <= k < |logs| ==> logs[k] == Line(clock, k, history[k])
  }

  /** Logging one more message appends exactly one line, its own, and
      leaves every earlier line as it was. */
  lemma FormatsAppend(clock: nat -> Instant, logs: seq<string>, history: seq<Message>, logs': seq<string>, m: Message)
    requires Formats(clock, logs, history) && Formats(clock, logs', history + [m])
    ensures logs' == logs + [Line(clock, |history|, m)]
  {
    assert forall k :: 0 <= k < |logs| ==> (history + [m])[k] == history[k];
  }

  /** The messages the constructor and the destructor log. */
  const LoggerInitializedText := "Logger initialized"
  const LoggerShuttingDownText := "Logger shutting down"

  class Logger {
    const logFilePath: string
    const consoleOutput: bool
    /** The instant at which the k-th entry (counting from 0) is made. */
    const clock: nat -> Instant
    /** The in-memory record, m_logs. */
    var logs: seq<string>
    /** The messages Log was given, in order. */
    ghost var history: seq<Message>

    /** Every line of the record is the formatted k-th message. */
    ghost predicate Valid()
      reads this
    {
      Formats(clock, logs, history)
    }

    /** Opens the sink and logs "Logger initialized" at INFO. */
    constructor (clock: nat -> Instant, logFilePath: string := "SyferInjector.log", consoleOutput: bool := true)
      ensures Valid()
      ensures this.clock == clock && this.logFilePath == logFilePath && this.consoleOutput == consoleOutput
      ensures history == [Message(Info, LoggerInitializedText)]
      ensures logs == [Line(clock, 0, Message(Info, LoggerInitializedText))]
    {
      this.clock := clock;
      this.logFilePath := logFilePath;
      this.consoleOutput := consoleOutput;
      logs := [];
      history := [];
      new;
      Log(LoggerInitializedText, Info);
    }

    /** Appends exactly one formatted entry and keeps every earlier one. */
    method Log(message: string, level: LogLevel := Info)
      requires Valid()
      modifies this
      ensures Valid()
      ensures history == old(history) + [Message(level, message)]
    {
      var entry := Render(Entry(Timestamp(clock(|logs|)), level, message));
      logs := logs + [entry];
      history := history + [Message(level, message)];
    }

    method LogWarning(message: string)
      requires Valid()
      modifies this
      ensures Valid()
      ensures history == old(history) + [Message(Warning, message)]
    {
      Log(message, Warning);
    }

    method LogError(message: string)
      requires Valid()
      modifies this
      ensures Valid()
      ensures history == old(history) + [Message(Err, message)]
    {
      Log(message, Err);
    }

    method LogDebug(message: string)
      requires Valid()
      modifies this
      ensures Valid()
      ensures history == old(history) + [Message(Debug, message)]
    {
      Log(message, Debug);
    }

    /** The destructor: logs "Logger shutting down" before the sink closes. */
    method Shutdown()
      requires Valid()
      modifies this
      ensures Valid()
      ensures history == old(history) + [Message(Info, LoggerShuttingDownText)]
    {
      Log(LoggerShuttingDownText, Info);
    }

    /** The record, unchanged; each of its lines reads back as the message
        logged at that position, with its level and timestamp. */
    function GetLogs(): (entries: seq<string>)
      reads this
      requires Valid()
      ensures |entries| == |history|
      ensures forall k :: 0 <= k < |entries| ==>
        Parse(|Timestamp(clock(k))|, entries[k]) == Some(Entry(Timestamp(clock(k)), history[k].level, history[k].text))
    {
      forall k | 0 <= k < |logs|
        ensures Parse(|Timestamp(clock(k))|, logs[k]) == Some(Entry(Timestamp(clock(k)), history[k].level, history[k].text))
      {
        ParseRender(Entry(Timestamp(clock(k)), history[k].level, history[k].text));
      }
      logs
    }
  }
}
