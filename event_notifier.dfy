/** The event notifier of 07_signal_slot/03_event_notifier.py: a generator
    whose three signals carry info, warning and error events, and a monitor
    whose slots turn them into lines of an event log. Timestamps come from
    the clock in the source and are parameters here. */
module EventNotifier {
  import opened Strings
  import opened Wrappers

  /** The payload of one of the generator's three signals. */
  datatype Event =
    | InfoEvent(message: string, timestamp: string)
    | WarningEvent(message: string, timestamp: string, priority: int)
    | ErrorEvent(message: string, timestamp: string, code: int, source: string)

  datatype Level = Info | Warning | Error

  function LevelOf(e: Event): Level {
    match e
    case InfoEvent(_, _) => Info
    case WarningEvent(_, _, _) => Warning
    case ErrorEvent(_, _, _, _) => Error
  }

  /** The foreground colour of a log line. */
  datatype Foreground = Blue | DarkYellow | Red

  datatype LogEntry = LogEntry(text: string, foreground: Foreground)

  // The generator: each call stamps its event and emits it.

  function GenerateInfo(timestamp: string, message: string): (e: Event)
    ensures LevelOf(e) == Info && e.message == message && e.timestamp == timestamp
  {
    InfoEvent(message, timestamp)
  }

  function GenerateWarning(timestamp: string, message: string, priority: int := 1): (e: Event)
    ensures LevelOf(e) == Warning && e.message == message && e.timestamp == timestamp
    ensures e.WarningEvent? && e.priority == priority
  {
    WarningEvent(message, timestamp, priority)
  }

  function GenerateError(timestamp: string, message: string, code: int := 404, source: string := "system"): (e: Event)
    ensures LevelOf(e) == Error && e.message == message && e.timestamp == timestamp
    ensures e.ErrorEvent? && e.code == code && e.source == source
  {
    ErrorEvent(message, timestamp, code, source)
  }

  /** When left out, the priority is 1, and the code and source are 404 and "system". */
  lemma DefaultArguments(timestamp: string, message: string)
    ensures GenerateWarning(timestamp, message) == WarningEvent(message, timestamp, 1)
    ensures GenerateError(timestamp, message) == ErrorEvent(message, timestamp, 404, "system")
  {
  }

  /** `generate_event`: the event the monitor asks for, given the selected type. */
  function SelectedEvent(eventType: string, timestamp: string): (e: Event)
    ensures e.timestamp == timestamp
    ensures LevelOf(e) == Info <==> eventType == "Info"
    ensures LevelOf(e) == Warning <==> eventType == "Warning"
    ensures LevelOf(e) == Error <==> eventType != "Info" && eventType != "Warning"
  {
    if eventType == "Info" then GenerateInfo(timestamp, "System is running normally")
    else if eventType == "Warning" then GenerateWarning(timestamp, "System resources are low", 2)
    else GenerateError(timestamp, "Connection failed", 503, "network")
  }

  /** The three events the monitor can produce. */
  lemma SelectedEvents(timestamp: string, other: string)
    requires other != "Info" && other != "Warning"
    ensures SelectedEvent("Info", timestamp) == InfoEvent("System is running normally", timestamp)
    ensures SelectedEvent("Warning", timestamp) == WarningEvent("System resources are low", timestamp, 2)
    ensures SelectedEvent(other, timestamp) == ErrorEvent("Connection failed", timestamp, 503, "network")
  {
  }

  function Tag(level: Level): string {
    match level
    case Info => "[INFO] "
    case Warning => "[WARNING] "
    case Error => "[ERROR] "
  }

  /** What follows the message on a log line: nothing for info, the
      priority for a warning, the code and source for an error. */
  function Detail(e: Event): string {
    match e
    case InfoEvent(_, _) => ""
    case WarningEvent(_, _, priority) => " (Priority: " + IntToString(priority) + ")"
    case ErrorEvent(_, _, code, source) => " (Code: " + IntToString(code) + ", Source: " + source + ")"
  }

  /** The line a slot adds for an event: its level's tag, the timestamp,
      " - ", the message, then the details its level carries. */
  function FormatEvent(e: Event): (line: string)
    ensures StartsWith(line, Tag(LevelOf(e)))
    ensures line[1] == Tag(LevelOf(e))[1]
    ensures |line| == |Tag(LevelOf(e))| + |e.timestamp| + 3 + |e.message| + |Detail(e)|
  {
    var tag, rest := Tag(LevelOf(e)), e.timestamp + " - " + e.message + Detail(e);
    StartsWithConcat(tag, rest);
    assert tag + e.timestamp + " - " + e.message + Detail(e) == tag + rest;
    tag + e.timestamp + " - " + e.message + Detail(e)
  }

  function ForegroundOf(level: Level): Foreground {
    match level
    case Info => Blue
    case Warning => DarkYellow
    case Error => Red
  }

  /** The list item a slot adds: the event's line, coloured by its level. */
  function EntryFor(e: Event): (entry: LogEntry)
    ensures entry.text == FormatEvent(e)
    ensures entry.foreground == Blue <==> e.InfoEvent?
    ensures entry.foreground == DarkYellow <==> e.WarningEvent?
    ensures entry.foreground == Red <==> e.ErrorEvent?
  {
    LogEntry(FormatEvent(e), ForegroundOf(LevelOf(e)))
  }

  /** Reads the level and the "%H:%M:%S" timestamp back from the front of a log line. */
  function ParseHeader(line: string): (r: Option<(Level, string)>)
    ensures r.Some? ==> StartsWith(line, Tag(r.value.0)) && |line| >= |Tag(r.value.0)| + 11
    ensures r.Some? ==> |r.value.1| == 8
  {
    var level :=
      if StartsWith(line, Tag(Info)) then Some(Info)
      else if StartsWith(line, Tag(Warning)) then Some(Warning)
      else if StartsWith(line, Tag(Error)) then Some(Error)
      else None;
    match level
    case None => None
    case Some(l) =>
      var n := |Tag(l)|;
      if |line| >= n + 8 + 3 && line[n + 8..n + 11] == " - " then Some((l, line[n..n + 8])) else None
  }

  /** Any line made of a tag, an eight-character timestamp, " - " and more
      text has that level and timestamp as its header. */
  lemma HeaderOf(line: string, l: Level, timestamp: string, message: string, detail: string)
    requires line == Tag(l) + timestamp + " - " + message + detail && |timestamp| == 8
    ensures ParseHeader(line) == Some((l, timestamp))
  {
    var tag := Tag(l);
    var n := |tag|;
    var rest := timestamp + " - " + message + detail;
    assert line == tag + rest;
    StartsWithConcat(tag, rest);
    assert line[1] == tag[1];
    assert line[n..n + 8] == timestamp;
    assert line[n + 8..n + 11] == " - ";
    match l
    case Info =>
    case Warning =>
      assert !StartsWith(line, Tag(Info)) by { assert line[1] != Tag(Info)[1]; }
    case Error =>
      assert !StartsWith(line, Tag(Info)) by { assert line[1] != Tag(Info)[1]; }
      assert !StartsWith(line, Tag(Warning)) by { assert line[1] != Tag(Warning)[1]; }
  }

  /** The level and the timestamp of an event can be read back from its log
      line, provided the timestamp has the eight characters of "%H:%M:%S". */
  lemma HeaderRoundTrip(e: Event)
    requires |e.timestamp| == 8
    ensures ParseHeader(FormatEvent(e)) == Some((LevelOf(e), e.timestamp))
  {
    HeaderOf(FormatEvent(e), LevelOf(e), e.timestamp, e.message, Detail(e));
  }

  // The lines the three slots add, written out.

  lemma InfoLine(message: string, timestamp: string)
    ensures FormatEvent(InfoEvent(message, timestamp)) == "[INFO] " + timestamp + " - " + message
  {
    assert FormatEvent(InfoEvent(message, timestamp)) == "[INFO] " + timestamp + " - " + message + "";
  }

  lemma WarningLine(message: string, timestamp: string, priority: int)
    ensures FormatEvent(WarningEvent(message, timestamp, priority))
      == "[WARNING] " + timestamp + " - " + message + " (Priority: " + IntToString(priority) + ")"
  {
    var p := IntToString(priority);
    var head := "[WARNING] " + timestamp + " - " + message;
    assert FormatEvent(WarningEvent(message, timestamp, priority)) == head + (" (Priority: " + p + ")");
  }

  lemma ErrorLine(message: string, timestamp: string, code: int, source: string)
    ensures FormatEvent(ErrorEvent(message, timestamp, code, source))
      == "[ERROR] " + timestamp + " - " + message + " (Code: " + IntToString(code) + ", Source: " + source + ")"
  {
    var c := IntToString(code);
    var head := "[ERROR] " + timestamp + " - " + message;
    assert FormatEvent(ErrorEvent(message, timestamp, code, source)) == head + (" (Code: " + c + ", Source: " + source + ")");
  }

  /** Reads an info event back from its log line. */
  function ParseInfo(line: string): (r: Option<Event>)
    ensures r.Some? ==> r.value.InfoEvent? && StartsWith(line, Tag(Info))
  {
    match ParseHeader(line)
    case Some((Info, timestamp)) => Some(InfoEvent(line[|Tag(Info)| + 11..], timestamp))
    case _ => None
  }

  /** An info line gives back its whole event: message and timestamp. */
  lemma InfoRoundTrip(message: string, timestamp: string)
    requires |timestamp| == 8
    ensures ParseInfo(FormatEvent(InfoEvent(message, timestamp))) == Some(InfoEvent(message, timestamp))
  {
    var e := InfoEvent(message, timestamp);
    HeaderRoundTrip(e);
    InfoLine(message, timestamp);
    var line := FormatEvent(e);
    assert line == "[INFO] " + timestamp + " - " + message;
    assert line[|Tag(Info)| + 11..] == message;
  }

  /** A line that is not an info line is not read as one. */
  lemma OthersAreNotInfo(e: Event)
    requires LevelOf(e) != Info
    ensures ParseInfo(FormatEvent(e)) == None
  {
    var line := FormatEvent(e);
    assert !StartsWith(line, Tag(Info)) by { assert line[1] != Tag(Info)[1]; }
  }

  /** Lines of different levels differ, and so do their colours. */
  lemma LevelsDistinguishable(e1: Event, e2: Event)
    requires LevelOf(e1) != LevelOf(e2)
    ensures FormatEvent(e1) != FormatEvent(e2)
    ensures EntryFor(e1).foreground != EntryFor(e2).foreground
  {
    var l1, l2 := FormatEvent(e1), FormatEvent(e2);
    assert l1[1] == Tag(LevelOf(e1))[1];
    assert l2[1] == Tag(LevelOf(e2))[1];
  }

  class EventMonitor {
    var eventList: seq<LogEntry>

    constructor ()
      ensures eventList == []
    {
      eventList := [];
    }

    /** The "Generate Event" button: the generator emits the selected event
        and the connected slot logs it. */
    method GenerateEvent(eventType: string, timestamp: string)
      modifies this
      ensures eventList == old(eventList) + [EntryFor(SelectedEvent(eventType, timestamp))]
    {
      var e := SelectedEvent(eventType, timestamp);
      match e
      case InfoEvent(message, stamp) => OnInfoEvent(message, stamp);
      case WarningEvent(message, stamp, priority) => OnWarningEvent(message, stamp, priority);
      case ErrorEvent(message, stamp, code, source) => OnErrorEvent(message, stamp, code, source);
    }

    method OnInfoEvent(message: string, timestamp: string)
      modifies this
      ensures eventList == old(eventList) + [EntryFor(InfoEvent(message, timestamp))]
    {
      InfoLine(message, timestamp);
      eventList := eventList + [LogEntry("[INFO] " + timestamp + " - " + message, Blue)];
    }

    method OnWarningEvent(message: string, timestamp: string, priority: int)
      modifies this
      ensures eventList == old(eventList) + [EntryFor(WarningEvent(message, timestamp, priority))]
    {
      WarningLine(message, timestamp, priority);
      var text := "[WARNING] " + timestamp + " - " + message + " (Priority: " + IntToString(priority) + ")";
      eventList := eventList + [LogEntry(text, DarkYellow)];
    }

    method OnErrorEvent(message: string, timestamp: string, code: int, source: string)
      modifies this
      ensures eventList == old(eventList) + [EntryFor(ErrorEvent(message, timestamp, code, source))]
    {
      ErrorLine(message, timestamp, code, source);
      var text := "[ERROR] " + timestamp + " - " + message + " (Code: " + IntToString(code) + ", Source: " + source + ")";
      eventList := eventList + [LogEntry(text, Red)];
    }

    /** The "Clear Log" button. */
    method ClearLog()
      modifies this
      ensures eventList == []
    {
      eventList := [];
    }
  }
}
