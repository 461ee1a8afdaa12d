/**
 * The two log sinks of the command line and the console they may write to.
 * The console logger routes each message to standard output or standard
 * error by its level; the JSON logger keeps every message, in order, as a
 * `{level, message}` record until the log is persisted.
 */
module Loggers {

  /** Log levels, from least to most severe. */
  datatype Level = Info | Warning | Error | Fatal

  function Severity(level: Level): nat {
    match level
    case Info => 0
    case Warning => 1
    case Error => 2
    case Fatal => 3
  }

  /** The JSON values a log message may carry. */
  datatype Json =
    | JNull
    | JBool(b: bool)
    | JNumber(n: int)
    | JString(s: string)
    | JArray(items: seq<Json>)
    | JObject(members: seq<(string, Json)>)

  /** What a logger is called with: free text, or a structured payload
      (which the console shows as its two-space-indented dump). */
  datatype Message = Text(text: string) | Structured(payload: Json)

  /** One call of a logger. */
  datatype LogCall = LogCall(level: Level, message: Message)

  /** One entry of the JSON log. */
  datatype LogRecord = LogRecord(level: Level, message: Json)

  datatype Stream = StdOut | StdErr

  /** The console logger's routing rule: error and above go to standard
      error, everything else to standard output. */
  function StreamFor(level: Level): (s: Stream)
    ensures s == StdErr <==> Severity(level) >= Severity(Error)
  {
    if Severity(level) >= Severity(Error) then StdErr else StdOut
  }

  /** The record the JSON logger keeps for a call: free text is wrapped as a
      JSON string, a payload is kept as it is. */
  function RecordOf(call: LogCall): (r: LogRecord)
    ensures r.level == call.level
    ensures call.message.Text? ==> r.message == JString(call.message.text)
    ensures call.message.Structured? ==> r.message == call.message.payload
  {
    match call.message
    case Text(t) => LogRecord(call.level, JString(t))
    case Structured(j) => LogRecord(call.level, j)
  }

  /** The JSON log a sequence of calls leaves behind. */
  function Records(calls: seq<LogCall>): (r: seq<LogRecord>)
    ensures |r| == |calls|
    ensures forall i :: 0 <= i < |calls| ==> r[i] == RecordOf(calls[i])
  {
    seq(|calls|, i requires 0 <= i < |calls| => RecordOf(calls[i]))
  }

  /** What one call shows on stream `s`. */
  function Emitted(call: LogCall, s: Stream): (ms: seq<Message>)
    ensures ms != [] <==> StreamFor(call.level) == s
    ensures ms != [] ==> ms == [call.message]
  {
    if StreamFor(call.level) == s then [call.message] else []
  }

  /** What a sequence of calls shows on stream `s`, in call order. */
  function Routed(calls: seq<LogCall>, s: Stream): (ms: seq<Message>)
    ensures |ms| <= |calls|
    ensures (forall i :: 0 <= i < |calls| ==> StreamFor(calls[i].level) != s) ==> ms == []
  {
    if calls == [] then []
    else Routed(calls[..|calls| - 1], s) + Emitted(calls[|calls| - 1], s)
  }

  lemma RoutedSnoc(calls: seq<LogCall>, call: LogCall, s: Stream)
    ensures Routed(calls + [call], s) == Routed(calls, s) + Emitted(call, s)
  {
    assert (calls + [call])[..|calls|] == calls;
  }

  /** One more call adds its record at the end of the JSON log. */
  lemma RecordsSnoc(calls: seq<LogCall>, call: LogCall)
    ensures Records(calls + [call]) == Records(calls) + [RecordOf(call)]
  {
    var r, q := Records(calls + [call]), Records(calls) + [RecordOf(call)];
    assert |r| == |q|;
    forall i | 0 <= i < |r| ensures r[i] == q[i] {
      if i < |calls| {
        assert (calls + [call])[i] == calls[i];
      }
    }
  }

  /** What one more call shows after what is already on a stream. */
  lemma ShownAfter(shown: seq<Message>, calls: seq<LogCall>, call: LogCall, s: Stream)
    ensures shown + Routed(calls, s) + Emitted(call, s) == shown + Routed(calls + [call], s)
  {
    RoutedSnoc(calls, call, s);
    assert shown + Routed(calls, s) + Emitted(call, s) == shown + (Routed(calls, s) + Emitted(call, s));
  }

  /** Every call shows on exactly one of the two streams: the two streams
      together carry as many messages as there were calls. */
  lemma {:induction false} RoutedPartition(calls: seq<LogCall>)
    ensures |Routed(calls, StdOut)| + |Routed(calls, StdErr)| == |calls|
  {
    if calls != [] {
      RoutedPartition(calls[..|calls| - 1]);
    }
  }

  /** Calls below the error level all go to standard output, and calls at
      error level or above all go to standard error. */
  lemma {:induction false} RoutedByLevel(calls: seq<LogCall>)
    ensures (forall i :: 0 <= i < |calls| ==> Severity(calls[i].level) < Severity(Error)) ==>
      Routed(calls, StdErr) == [] && |Routed(calls, StdOut)| == |calls|
    ensures (forall i :: 0 <= i < |calls| ==> Severity(calls[i].level) >= Severity(Error)) ==>
      Routed(calls, StdOut) == [] && |Routed(calls, StdErr)| == |calls|
  {
    if calls != [] {
      var init := calls[..|calls| - 1];
      assert forall i :: 0 <= i < |init| ==> init[i] == calls[i];
      RoutedByLevel(init);
    }
  }

  /** The process's two output streams, as the lines written to each. */
  class Console {
    var out: seq<Message>
    var err: seq<Message>

    constructor ()
      ensures out == [] && err == []
    {
      out, err := [], [];
    }

    /** Several lines, written one after the other to the same stream. */
    method WriteAll(s: Stream, ms: seq<Message>)
      modifies this
      ensures out == old(out) + (if s == StdOut then ms else [])
      ensures err == old(err) + (if s == StdErr then ms else [])
    {
      if s == StdOut {
        out := out + ms;
      } else {
        err := err + ms;
      }
    }

    method Write(s: Stream, m: Message)
      modifies this
      ensures out == old(out) + (if s == StdOut then [m] else [])
      ensures err == old(err) + (if s == StdErr then [m] else [])
    {
      if s == StdOut {
        out := out + [m];
      } else {
        err := err + [m];
      }
    }
  }

  /** `ConsoleLogger`: writes each message to the stream its level selects. */
  class ConsoleLogger {
    const console: Console

    constructor (console: Console)
      ensures this.console == console
    {
      this.console := console;
    }

    /** The structured overload: the payload is printed as its dump. */
    method LogJson(level: Level, message: Json)
      modifies console
      ensures console.out == old(console.out) + Emitted(LogCall(level, Structured(message)), StdOut)
      ensures console.err == old(console.err) + Emitted(LogCall(level, Structured(message)), StdErr)
    {
      console.Write(StreamFor(level), Structured(message));
    }

    /** The text overload. */
    method LogText(level: Level, message: string)
      modifies console
      ensures console.out == old(console.out) + Emitted(LogCall(level, Text(message)), StdOut)
      ensures console.err == old(console.err) + Emitted(LogCall(level, Text(message)), StdErr)
    {
      console.Write(StreamFor(level), Text(message));
    }
  }

  /** `JsonLogger`: an append-only list of `{level, message}` records. */
  class JsonLogger {
    var messages: seq<LogRecord>

    constructor ()
      ensures messages == []
    {
      messages := [];
    }

    /** The structured overload: appends the payload as it is. */
    method LogJson(level: Level, message: Json)
      modifies this
      ensures messages == old(messages) + [LogRecord(level, message)]
    {
      messages := messages + [LogRecord(level, message)];
    }

    /** The text overload: wraps the text as a JSON string. */
    method LogText(level: Level, message: string)
      modifies this
      ensures messages == old(messages) + [LogRecord(level, JString(message))]
    {
      LogJson(level, JString(message));
    }
  }

  /** The logger the converter is given: one of the two kinds. */
  datatype Sink = JsonSink(json: JsonLogger) | ConsoleSink(logger: ConsoleLogger) {
    /** The objects a call of this sink may change. */
    function Frame(): set<object> {
      match this
      case JsonSink(j) => {j}
      case ConsoleSink(c) => {c.console}
    }
  }

  /** One logger call, dispatched to the overload its message selects. */
  method Emit(sink: Sink, call: LogCall)
    modifies sink.Frame()
    ensures sink.JsonSink? ==> sink.json.messages == old(sink.json.messages) + [RecordOf(call)]
    ensures sink.ConsoleSink? ==>
      var c := sink.logger.console;
      c.out == old(c.out) + Emitted(call, StdOut) && c.err == old(c.err) + Emitted(call, StdErr)
  {
    match sink {
      case JsonSink(j) =>
        match call.message {
          case Text(t) => j.LogText(call.level, t);
          case Structured(p) => j.LogJson(call.level, p);
        }
      case ConsoleSink(c) =>
        match call.message {
          case Text(t) => c.LogText(call.level, t);
          case Structured(p) => c.LogJson(call.level, p);
        }
    }
  }

  /** A sequence of logger calls, made one after the other. */
  method EmitAll(sink: Sink, calls: seq<LogCall>)
    modifies sink.Frame()
    ensures sink.JsonSink? ==> sink.json.messages == old(sink.json.messages) + Records(calls)
    ensures sink.ConsoleSink? ==>
      var c := sink.logger.console;
      c.out == old(c.out) + Routed(calls, StdOut) && c.err == old(c.err) + Routed(calls, StdErr)
    decreases |calls|
  {
    if calls != [] {
      var earlier, last := calls[..|calls| - 1], calls[|calls| - 1];
      assert calls == earlier + [last];
      EmitAll(sink, earlier);
      Emit(sink, last);
      if sink.JsonSink? {
        RecordsSnoc(earlier, last);
        assert sink.json.messages == old(sink.json.messages) + (Records(earlier) + [RecordOf(last)]);
      } else {
        ShownAfter(old(sink.logger.console.out), earlier, last, StdOut);
        ShownAfter(old(sink.logger.console.err), earlier, last, StdErr);
      }
    }
  }
}
