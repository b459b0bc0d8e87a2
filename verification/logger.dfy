/** The in-memory log stream of utils/logger.js (a newest-first buffer of at
    most 1000 entries with filtered reads), the line selection of
    `readLogFile`, and the `logger.log` hook that feeds the stream. */
module Logging {
  import opened Wrappers
  import opened JsText

  const MaxLogs := 1000

  /** `{timestamp, level, message, context}`; the context is reduced to an optional string. */
  datatype LogEntry = LogEntry(timestamp: string, level: string, message: string, context: Option<string>)

  predicate HasLevel(e: LogEntry, level: string) {
    e.level == level
  }

  /** `getLogs(level, limit)`: entries of the given level (all entries when the
      level is absent or empty), newest first, then `slice(0, limit)`. */
  function SelectLogs(logs: seq<LogEntry>, level: Option<string>, limit: int): (r: seq<LogEntry>)
    ensures !Truthy(level) ==> r == logs[..SliceIndex(|logs|, limit)]
    ensures Truthy(level) ==> forall i :: 0 <= i < |r| ==> r[i].level == level.value
    ensures Truthy(level) ==>
              |r| == SliceIndex(|Filter(logs, e => HasLevel(e, level.value))|, limit)
              && r == Filter(logs, e => HasLevel(e, level.value))[..|r|]
  {
    var filtered := if Truthy(level) then Filter(logs, e => HasLevel(e, level.value)) else logs;
    SliceHead(filtered, limit)
  }

  /** A level-filtered read of a newest-first buffer picks the same entries as
      filtering the newest part and the rest separately: the newest matches
      come first. */
  lemma SelectNewestFirst(newer: seq<LogEntry>, older: seq<LogEntry>, level: string, limit: int)
    requires level != ""
    requires var p := (e: LogEntry) => HasLevel(e, level);
             0 <= limit <= |Filter(newer, p)|
    ensures SelectLogs(newer + older, Some(level), limit)
            == SelectLogs(newer, Some(level), limit)
  {
    FilterAppend(newer, older, e => HasLevel(e, level));
  }

  /** The live log stream: `logs` newest first; `emitted` records the `'log'`
      events sent to listeners. */
  class LogStream {
    var logs: seq<LogEntry>
    ghost var emitted: seq<LogEntry>

    ghost predicate Valid()
      reads this
    {
      |logs| <= MaxLogs
    }

    constructor ()
      ensures Valid() && logs == [] && emitted == []
    {
      logs := [];
      emitted := [];
    }

    /** `add(level, message, context)` at the instant `timestamp`. */
    method Add(level: string, message: string, context: Option<string>, timestamp: string)
      requires Valid()
      modifies this
      ensures Valid()
      ensures logs == BoundedPrepend(old(logs), LogEntry(timestamp, level, message, context), MaxLogs)
      ensures emitted == old(emitted) + [LogEntry(timestamp, level, message, context)]
    {
      var entry := LogEntry(timestamp, level, message, context);
      logs := [entry] + logs;
      if |logs| > MaxLogs {
        logs := logs[..MaxLogs];
      }
      emitted := emitted + [entry];
    }

    /** `getLogs(level, limit)`; reading changes nothing. */
    function GetLogs(level: Option<string>, limit: int): (r: seq<LogEntry>)
      reads this
      ensures r == SelectLogs(logs, level, limit)
      ensures |r| <= |logs|
    {
      SelectLogs(logs, level, limit)
    }
  }

  /** The `logger.log(level, message, context)` hook: one stream entry, then
      the call goes on to the file and console transports (not modelled). */
  method Log(stream: LogStream, level: string, message: string, context: Option<string>, timestamp: string)
    requires stream.Valid()
    modifies stream
    ensures stream.Valid()
    ensures stream.logs == BoundedPrepend(old(stream.logs), LogEntry(timestamp, level, message, context), MaxLogs)
    ensures stream.emitted == old(stream.emitted) + [LogEntry(timestamp, level, message, context)]
  {
    stream.Add(level, message, context, timestamp);
  }

  /** `line.trim()` is truthy. */
  predicate KeptLine(line: string) {
    !IsBlank(line)
  }

  /** The lines `readLogFile` keeps: those whose `trim()` is not empty. */
  function KeptLines(content: string): (r: seq<string>)
    ensures forall i :: 0 <= i < |r| ==> !IsBlank(r[i]) && '\n' !in r[i] && r[i] in Split(content, '\n')
    ensures forall line :: line in Split(content, '\n') && !IsBlank(line) ==> line in r
    // each non-blank line as often as the file holds it, no blank one
    ensures forall line :: multiset(r)[line] == if IsBlank(line) then 0 else multiset(Split(content, '\n'))[line]
  {
    var lines := Split(content, '\n');
    assert forall line :: multiset(Filter(lines, KeptLine))[line]
                          == if IsBlank(line) then 0 else multiset(lines)[line] by {
      forall line ensures multiset(Filter(lines, KeptLine))[line]
                          == if IsBlank(line) then 0 else multiset(lines)[line] {
        FilterCount(lines, KeptLine, line);
      }
    }
    Filter(lines, KeptLine)
  }

  /** The lines kept from the text before a newline come before those kept
      from the text after it: file order is preserved. */
  lemma KeptLinesAppend(a: string, b: string)
    ensures KeptLines(a + "\n" + b) == KeptLines(a) + KeptLines(b)
  {
    SplitAppend(a, b, '\n');
    FilterAppend(Split(a, '\n'), Split(b, '\n'), KeptLine);
  }

  /** `readLogFile(filename, lines)` given the file's content (`None` when the
      file is missing or cannot be read): the last `lines` non-blank lines,
      newest first, by `slice(-lines).reverse()`. */
  function ReadLogFile(content: Option<string>, lines: int): (r: seq<string>)
    ensures content.None? ==> r == []
    ensures content.Some? ==>
              var kept := KeptLines(content.value);
              |r| == |kept| - SliceIndex(|kept|, -lines)
              && forall i :: 0 <= i < |r| ==> r[i] == kept[|kept| - 1 - i]
    // a positive count returns that many lines, or all of them when there are fewer
    ensures content.Some? && lines >= 1 ==>
              var kept := KeptLines(content.value);
              |r| == if lines < |kept| then lines else |kept|
    // a count of 0 is `slice(-0)`, that is `slice(0)`: every kept line is returned
    ensures content.Some? && lines == 0 ==> |r| == |KeptLines(content.value)|
  {
    if content.None? then []
    else Reverse(SliceTail(KeptLines(content.value), -lines))
  }
}
