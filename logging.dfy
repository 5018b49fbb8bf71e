/**
 * The in-memory log kept for the user interface (main.js:59-69): every log
 * line is appended, and once the buffer holds more than MAX_LOG_BUFFER
 * entries the oldest one is dropped.
 */
module Logging {
  const MAX_LOG_BUFFER: nat := 200

  datatype Level = Info | Warn | Error

  /** One entry of the buffer; the timestamp is an opaque ISO string supplied by the caller. */
  datatype LogEntry = LogEntry(timestamp: string, level: Level, message: string)

  /** The most recent min(|s|, n) elements of `s`, oldest first. */
  function LastN<T>(s: seq<T>, n: nat): seq<T> {
    if |s| <= n then s else s[|s| - n..]
  }

  /** `addLog`'s policy: push the entry, then shift once if the buffer is over capacity. */
  function Push<T>(buffer: seq<T>, e: T): seq<T> {
    var pushed := buffer + [e];
    if |pushed| > MAX_LOG_BUFFER then pushed[1..] else pushed
  }

  /** The buffer after appending `es` one by one. */
  function PushAll<T>(buffer: seq<T>, es: seq<T>): seq<T>
    decreases |es|
  {
    if es == [] then buffer else PushAll(Push(buffer, es[0]), es[1..])
  }

  /** Keeping the last n of the last n is keeping the last n. */
  lemma LastNOfLastN<T>(s: seq<T>, t: seq<T>, n: nat)
    ensures LastN(LastN(s, n) + t, n) == LastN(s + t, n)
  {
    if |s| > n {
      var k := |s| - n;
      assert s + t == s[..k] + (s[k..] + t);
      assert (s + t)[|s + t| - n..] == (s[k..] + t)[|s[k..] + t| - n..];
    }
  }

  /** One push keeps the buffer bounded and equal to the most recent entries. */
  lemma PushKeepsMostRecent<T>(buffer: seq<T>, e: T)
    requires |buffer| <= MAX_LOG_BUFFER
    ensures |Push(buffer, e)| <= MAX_LOG_BUFFER
    ensures Push(buffer, e) == LastN(buffer + [e], MAX_LOG_BUFFER)
  {
  }

  /** When the buffer is full, the entry that goes is the oldest one. */
  lemma PushDropsOldest<T>(buffer: seq<T>, e: T)
    requires |buffer| == MAX_LOG_BUFFER
    ensures Push(buffer, e) == buffer[1..] + [e]
  {
  }

  /**
   * After any number of `addLog` calls the buffer holds at most MAX_LOG_BUFFER
   * entries and is exactly the most recent min(n, MAX_LOG_BUFFER) of all the
   * entries ever added, in insertion order.
   */
  lemma {:induction false} PushAllKeepsMostRecent<T>(buffer: seq<T>, es: seq<T>)
    requires |buffer| <= MAX_LOG_BUFFER
    ensures |PushAll(buffer, es)| <= MAX_LOG_BUFFER
    ensures PushAll(buffer, es) == LastN(buffer + es, MAX_LOG_BUFFER)
    decreases |es|
  {
    if es != [] {
      var b1 := Push(buffer, es[0]);
      PushKeepsMostRecent(buffer, es[0]);
      PushAllKeepsMostRecent(b1, es[1..]);
      LastNOfLastN(buffer + [es[0]], es[1..], MAX_LOG_BUFFER);
      assert buffer + [es[0]] + es[1..] == buffer + es;
    }
  }

  /** The buffer of main.js:59 with the history of every entry ever added. */
  class LogBuffer {
    var logBuffer: seq<LogEntry>
    ghost var history: seq<LogEntry>

    ghost predicate Valid()
      reads this
    {
      logBuffer == LastN(history, MAX_LOG_BUFFER)
    }

    constructor ()
      ensures Valid() && logBuffer == [] && history == []
    {
      logBuffer := [];
      history := [];
    }

    /** `addLog(level, message)`, with the timestamp passed in. */
    method AddLog(timestamp: string, level: Level, message: string)
      requires Valid()
      modifies this
      ensures Valid()
      ensures history == old(history) + [LogEntry(timestamp, level, message)]
      ensures logBuffer == Push(old(logBuffer), LogEntry(timestamp, level, message))
      ensures |logBuffer| <= MAX_LOG_BUFFER
    {
      var entry := LogEntry(timestamp, level, message);
      logBuffer := logBuffer + [entry];
      if |logBuffer| > MAX_LOG_BUFFER {
        logBuffer := logBuffer[1..];
      }
      history := history + [entry];
      LastNOfLastN(old(history), [entry], MAX_LOG_BUFFER);
    }

    /** The `get-logs` handler: the buffer as it stands. */
    method GetLogs() returns (entries: seq<LogEntry>)
      requires Valid()
      ensures entries == LastN(history, MAX_LOG_BUFFER)
      ensures |entries| <= MAX_LOG_BUFFER
    {
      entries := logBuffer;
    }
  }
}
