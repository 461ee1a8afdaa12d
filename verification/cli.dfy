/**
 * The command line's `main`: it reads the arguments, fills in the output
 * path, picks the log sink, runs the converter with a writer that puts each
 * binary buffer next to the output document, writes the document and the
 * JSON log, and computes the exit code.
 */
module Cli {
  import opened Wrappers
  import opened Paths
  import opened Numerals
  import opened Loggers
  import opened BeeCli

  newtype uint32 = x: int | 0 <= x < 0x1_0000_0000

  newtype byte = x: int | 0 <= x < 256

  // ---------------------------------------------------------------------
  // Relative URIs and the default output path
  // ---------------------------------------------------------------------

  /** `relativeUriBetweenPath`: `to` taken lexically relative to `from`, in
      generic form; for a well-formed `to` it is never an absolute path. */
  function RelativeUriBetweenPath(from: Path, to: Path): (uri: string)
    ensures WellFormed(to) ==> Parse(uri) == LexicallyRelative(to, from) && !Parse(uri).absolute
  {
    var r := LexicallyRelative(to, from);
    if WellFormed(to) then
      ParseRender(r);
      Render(r)
    else
      Render(r)
  }

  /** The URI of a file directly inside `dir`, relative to `dir`, is the
      bare file name. */
  lemma RelativeUriOfChild(dir: Path, name: string)
    requires WellFormed(dir) && IsSegment(name)
    ensures RelativeUriBetweenPath(dir, Child(dir, name)) == name
  {
    var p := Child(dir, name);
    assert p.segments[..|dir.segments|] == dir.segments;
    RelativeInverse(p, dir);
    assert p.segments[|dir.segments|..] == [name];
  }

  /** `<cwd>/<stem>_glTF/<stem>.gltf`, where `<stem>` is the input file's
      name without its extension. */
  function DefaultOutPath(cwd: string, inputFile: string): (p: Path)
    ensures var stem := Stem(Parse(inputFile));
      Parent(Parent(p)) == Parse(cwd) &&
      FileName(Parent(p)) == stem + "_glTF" && FileName(p) == stem + ".gltf"
  {
    var stem := Stem(Parse(inputFile));
    Child(Child(Parse(cwd), stem + "_glTF"), stem + ".gltf")
  }

  lemma DefaultNamesAreSegments(stem: string)
    requires Lacks(stem, '/')
    ensures IsSegment(stem + "_glTF") && IsSegment(stem + ".gltf")
  {
    assert Lacks("_glTF", '/') && Lacks(".gltf", '/');
    LacksConcat(stem, "_glTF", '/');
    LacksConcat(stem, ".gltf", '/');
  }

  /** The default output path reads back as itself, sits in the
      `<stem>_glTF` directory under the working directory, and has the input's
      stem (when the input has a file name) as its own stem. */
  lemma DefaultOutLayout(cwd: string, inputFile: string)
    ensures var stem := Stem(Parse(inputFile));
      var out := Parse(Render(DefaultOutPath(cwd, inputFile)));
      out == DefaultOutPath(cwd, inputFile) &&
      Parent(out) == Child(Parse(cwd), stem + "_glTF") &&
      FileName(out) == stem + ".gltf" &&
      (stem != "" ==> Stem(out) == stem)
  {
    var stem := Stem(Parse(inputFile));
    DefaultNamesAreSegments(stem);
    var p := DefaultOutPath(cwd, inputFile);
    assert WellFormed(Parent(p));
    ParseRender(p);
    if stem != "" {
      GltfStem(stem);
    }
  }

  /** Dropping the `.gltf` extension gives back a non-empty stem. */
  lemma GltfStem(stem: string)
    requires stem != ""
    ensures StemOf(stem + ".gltf") == stem
  {
    assert Lacks("gltf", '.');
    assert stem + ".gltf" == stem + "." + "gltf";
    StemOfExtension(stem, "gltf");
  }

  // ---------------------------------------------------------------------
  // The buffer writer
  // ---------------------------------------------------------------------

  /** The name of an externalised buffer: `<stem>.bin` for a lone buffer,
      `<stem><index>.bin` when the converter writes several. */
  function BufferFileName(outFile: string, index: uint32, multi: bool): (name: string)
    ensures var stem := Stem(Parse(outFile));
      |stem| + 4 <= |name| && name[..|stem|] == stem && name[|name| - 4..] == ".bin"
    ensures !multi ==> |name| == |Stem(Parse(outFile))| + 4
    ensures multi ==> var mid := name[|Stem(Parse(outFile))|..|name| - 4];
      IsDigits(mid) && DecimalValue(mid) == index as nat &&
      mid != [] && (mid[0] == '0' ==> mid == "0")
  {
    var stem := Stem(Parse(outFile));
    if multi then
      var digits := Decimal(index as nat);
      var name := stem + digits + ".bin";
      assert name[|stem|..|name| - 4] == digits;
      DecimalRoundTrip(index as nat);
      name
    else stem + ".bin"
  }

  /** The buffer file sits in the output file's directory. */
  function BufferOutPath(outFile: string, index: uint32, multi: bool): (p: Path)
    ensures Parent(p) == Parent(Parse(outFile))
    ensures FileName(p) == BufferFileName(outFile, index, multi)
  {
    Child(Parent(Parse(outFile)), BufferFileName(outFile, index, multi))
  }

  lemma BufferFileNameIsSegment(outFile: string, index: uint32, multi: bool)
    ensures IsSegment(BufferFileName(outFile, index, multi))
  {
    var stem := Stem(Parse(outFile));
    assert Lacks(".bin", '/');
    if multi {
      var digits := Decimal(index as nat);
      forall k | 0 <= k < |digits| ensures digits[k] != '/' {
        assert '0' <= digits[k] <= '9';
      }
      LacksConcat(stem, digits, '/');
      LacksConcat(stem + digits, ".bin", '/');
    } else {
      LacksConcat(stem, ".bin", '/');
    }
  }

  /** Several buffers of one conversion get distinct files: distinct
      indices give distinct names. */
  lemma BufferFileNamesDistinct(outFile: string, i: uint32, j: uint32)
    requires i != j
    ensures BufferFileName(outFile, i, true) != BufferFileName(outFile, j, true)
  {
    var stem := Stem(Parse(outFile));
    var di, dj := Decimal(i as nat), Decimal(j as nat);
    if stem + di + ".bin" == stem + dj + ".bin" {
      var a, b := stem + di + ".bin", stem + dj + ".bin";
      assert |di| == |dj|;
      assert a[|stem|..|stem| + |di|] == di;
      assert b[|stem|..|stem| + |dj|] == dj;
      DecimalInjective(i as nat, j as nat);
    }
  }

  /** What the file system does when a buffer is written. */
  datatype BufferFs = BufferFs(createDirectoriesOk: bool, writeOk: bool, writeError: string)

  datatype BufferOutcome =
    | BufferWritten(path: string, bytes: seq<byte>, uri: string)
    | BufferFailed(what: string)

  /** `MyWriter`: the writer the converter calls for each binary buffer. */
  class Writer {
    const inFile: string
    const outFile: string

    constructor (inFile: string, outFile: string)
      ensures this.inFile == inFile && this.outFile == outFile
    {
      this.inFile := inFile;
      this.outFile := outFile;
    }

    /** `buffer`: names the buffer file after the output file, creates its
        directory, writes all the bytes and returns the file's URI relative
        to the output document, which is the bare file name. A directory
        that cannot be created, or a failed write, raises instead. */
    method Buffer(data: seq<byte>, index: uint32, multi: bool, fs: BufferFs) returns (r: BufferOutcome)
      ensures !fs.createDirectoriesOk ==>
        r == BufferFailed("Failed to create directories for buffer " + Render(BufferOutPath(outFile, index, multi)))
      ensures fs.createDirectoriesOk && !fs.writeOk ==> r == BufferFailed(fs.writeError)
      ensures fs.createDirectoriesOk && fs.writeOk ==>
        r.BufferWritten? && r.bytes == data && r.uri == BufferFileName(outFile, index, multi) &&
        !Parse(r.uri).absolute &&
        Parent(Parse(r.path)) == Parent(Parse(outFile)) &&
        FileName(Parse(r.path)) == r.uri
    {
      var outFilePath := Parse(outFile);
      var glTFOutBaseName := Stem(outFilePath);
      var glTFOutDir := Parent(outFilePath);
      var name := if multi then glTFOutBaseName + Decimal(index as nat) + ".bin" else glTFOutBaseName + ".bin";
      var bufferOutPath := Child(glTFOutDir, name);
      if !fs.createDirectoriesOk {
        return BufferFailed("Failed to create directories for buffer " + Render(bufferOutPath));
      }
      if !fs.writeOk {
        return BufferFailed(fs.writeError);
      }
      BufferFileNameIsSegment(outFile, index, multi);
      RelativeUriOfChild(glTFOutDir, name);
      ParseRender(bufferOutPath);
      r := BufferWritten(Render(bufferOutPath), data, RelativeUriBetweenPath(glTFOutDir, bufferOutPath));
    }
  }

  // ---------------------------------------------------------------------
  // The orchestration in main
  // ---------------------------------------------------------------------

  /** What the converter returns: a document, or the message of the
      exception it raised; either way, the logger calls it made meanwhile. */
  datatype ConvertOutcome =
    | Converted(document: Json, logs: seq<LogCall>)
    | ConvertFailed(what: string, logs: seq<LogCall>)

  /** Everything `main` depends on but does not decide: the working
      directory, the converter, and whether each file-system step completes
      without raising. The log write counts as completed when creating its
      directory, opening the file and streaming the log raise nothing; an
      error when the unflushed stream closes is not observed. */
  datatype Env = Env(
    cwd: string,
    createOutDirOk: bool,
    convert: (string, ConvertOptions) -> ConvertOutcome,
    documentWriteOk: bool,
    documentWriteError: string,
    logWriteOk: bool,
    logWriteError: string)

  /** How the process ends: with a code returned from `main`, or terminated
      by an exception nothing catches. */
  datatype ExitStatus = Returned(code: int) | Terminated

  /** A file the run leaves behind, with what it holds. */
  datatype Artifact<T> = Artifact(path: string, content: T)

  const ExitOk := 0
  const ExitFailureCaptured := 1
  const ExitUsage := -1

  /** The output file: the one given, or the default derived from the input. */
  function OutFileFor(a: CliArgs, cwd: string): (f: string)
    ensures a.outFile != "" ==> f == a.outFile
    ensures a.outFile == "" ==> Parse(f) == DefaultOutPath(cwd, a.inputFile)
  {
    if a.outFile == "" then
      DefaultOutLayout(cwd, a.inputFile);
      Render(DefaultOutPath(cwd, a.inputFile))
    else a.outFile
  }

  /** The options the converter is called with. */
  function OptionsFor(a: CliArgs, cwd: string): (c: ConvertOptions)
    ensures c.out == Some(OutFileFor(a, cwd))
    ensures a.fbmDir != "" ==> c.fbmDir == Some(a.fbmDir)
    ensures a.fbmDir == "" ==> c.fbmDir == a.convertOptions.fbmDir
    ensures c.(fbmDir := a.convertOptions.fbmDir, out := a.convertOptions.out) == a.convertOptions
  {
    var c := a.convertOptions;
    c.(fbmDir := if a.fbmDir != "" then Some(a.fbmDir) else c.fbmDir,
       out := Some(OutFileFor(a, cwd)))
  }

  /** The fatal call `main` makes with an exception's message (a C string,
      so it reaches the logger as a JSON string). */
  function FatalCall(what: string): (call: LogCall)
    ensures StreamFor(call.level) == StdErr
    ensures RecordOf(call) == LogRecord(Fatal, JString(what))
  {
    LogCall(Fatal, Structured(JString(what)))
  }

  /** The message of the exception the `try` around the conversion catches,
      if any: the converter's own, or the document write's. */
  function FailureOf(outcome: ConvertOutcome, env: Env): (failure: Option<string>)
    ensures failure.None? <==> outcome.Converted? && env.documentWriteOk
    ensures outcome.ConvertFailed? ==> failure == Some(outcome.what)
  {
    if outcome.ConvertFailed? then Some(outcome.what)
    else if !env.documentWriteOk then Some(env.documentWriteError)
    else None
  }

  /** All logger calls of a run: the converter's own, then one fatal call if
      the conversion or the document write failed. */
  function CallsOf(outcome: ConvertOutcome, env: Env): (calls: seq<LogCall>)
    ensures |outcome.logs| <= |calls| && calls[..|outcome.logs|] == outcome.logs
    ensures FailureOf(outcome, env).None? <==> |calls| == |outcome.logs|
    ensures FailureOf(outcome, env).Some? ==>
      |calls| == |outcome.logs| + 1 && calls[|calls| - 1] == FatalCall(FailureOf(outcome, env).value)
  {
    var failure := FailureOf(outcome, env);
    if failure.Some? then outcome.logs + [FatalCall(failure.value)] else outcome.logs
  }

  function TextLines(lines: seq<string>): (ms: seq<Message>)
    ensures |ms| == |lines| && forall i :: 0 <= i < |lines| ==> ms[i] == Text(lines[i])
  {
    seq(|lines|, i requires 0 <= i < |lines| => Text(lines[i]))
  }

  /** A failed conversion leaves the converter's own records followed by
      exactly one more, the fatal record carrying the exception's message;
      a successful one with a written document adds nothing. */
  lemma FailureRecords(outcome: ConvertOutcome, env: Env)
    ensures var records := Records(CallsOf(outcome, env));
      outcome.ConvertFailed? ==>
        |records| == |outcome.logs| + 1 &&
        records[..|outcome.logs|] == Records(outcome.logs) &&
        records[|outcome.logs|] == LogRecord(Fatal, JString(outcome.what))
    ensures outcome.Converted? && env.documentWriteOk ==> Records(CallsOf(outcome, env)) == Records(outcome.logs)
  {
    if outcome.ConvertFailed? {
      RecordsSnoc(outcome.logs, FatalCall(outcome.what));
    }
  }

  /** With the default output path, a lone buffer is written as
      `<cwd>/<stem>_glTF/<stem>.bin`. */
  lemma DefaultBufferPath(cwd: string, inputFile: string)
    requires Stem(Parse(inputFile)) != ""
    ensures var stem := Stem(Parse(inputFile));
      BufferOutPath(Render(DefaultOutPath(cwd, inputFile)), 0, false) ==
        Child(Child(Parse(cwd), stem + "_glTF"), stem + ".bin")
  {
    DefaultOutLayout(cwd, inputFile);
  }

  /** The conversion proper, with the logger `sink`: the converter's
      failure, or a failed document write, is logged as fatal and makes the
      code 1; otherwise the document is written to the output file and the
      code stays 0. */
  method ConvertWith(sink: Sink, cli: CliArgs, env: Env) returns (retval: int, document: Option<Artifact<Json>>)
    modifies sink.Frame()
    ensures var outcome := env.convert(cli.inputFile, cli.convertOptions);
      retval == (if outcome.Converted? && env.documentWriteOk then ExitOk else ExitFailureCaptured) &&
      document == (if retval == ExitOk then Some(Artifact(cli.outFile, outcome.document)) else None)
    ensures var calls := CallsOf(env.convert(cli.inputFile, cli.convertOptions), env);
      sink.JsonSink? ==> sink.json.messages == old(sink.json.messages) + Records(calls)
    ensures var calls := CallsOf(env.convert(cli.inputFile, cli.convertOptions), env);
      sink.ConsoleSink? ==>
        var c := sink.logger.console;
        c.out == old(c.out) + Routed(calls, StdOut) && c.err == old(c.err) + Routed(calls, StdErr)
  {
    retval, document := ExitOk, None;
    var outcome := env.convert(cli.inputFile, cli.convertOptions);
    EmitAll(sink, outcome.logs);
    var failure := FailureOf(outcome, env);
    if failure.Some? {
      var fatal := FatalCall(failure.value);
      Emit(sink, fatal);
      if sink.JsonSink? {
        RecordsSnoc(outcome.logs, fatal);
        assert sink.json.messages == old(sink.json.messages) + (Records(outcome.logs) + [RecordOf(fatal)]);
      } else {
        ShownAfter(old(sink.logger.console.out), outcome.logs, fatal, StdOut);
        ShownAfter(old(sink.logger.console.err), outcome.logs, fatal, StdErr);
      }
      assert CallsOf(outcome, env) == outcome.logs + [fatal];
      retval := ExitFailureCaptured;
    } else {
      document := Some(Artifact(cli.outFile, outcome.document));
    }
  }

  /** The part of `main` after the output path is known: the sink is the
      JSON logger exactly when a log file was requested, otherwise the
      console logger; after the conversion the JSON log is written, and a
      failure there is reported on standard error and sets the code to 1. */
  method ConvertAndPersist(cli: CliArgs, console: Console, env: Env)
    returns (retval: int, document: Option<Artifact<Json>>, logFile: Option<Artifact<seq<LogRecord>>>)
    modifies console
    ensures var outcome := env.convert(cli.inputFile, cli.convertOptions);
      var documentOk := outcome.Converted? && env.documentWriteOk;
      var logOk := cli.logFile.None? || env.logWriteOk;
      retval == (if documentOk && logOk then ExitOk else ExitFailureCaptured) &&
      document == (if documentOk then Some(Artifact(cli.outFile, outcome.document)) else None)
    ensures var calls := CallsOf(env.convert(cli.inputFile, cli.convertOptions), env);
      logFile == (if cli.logFile.Some? && env.logWriteOk then Some(Artifact(cli.logFile.value, Records(calls))) else None)
    ensures var calls := CallsOf(env.convert(cli.inputFile, cli.convertOptions), env);
      cli.logFile.None? ==>
        console.out == old(console.out) + Routed(calls, StdOut) &&
        console.err == old(console.err) + Routed(calls, StdErr)
    ensures cli.logFile.Some? ==>
      console.out == old(console.out) &&
      console.err == old(console.err) + (if env.logWriteOk then [] else [Text(env.logWriteError)])
  {
    var sink: Sink;
    if cli.logFile.Some? {
      var json := new JsonLogger();
      sink := JsonSink(json);
    } else {
      var logger := new ConsoleLogger(console);
      sink := ConsoleSink(logger);
    }

    retval, document := ConvertWith(sink, cli, env);
    logFile := None;
    if cli.logFile.Some? {
      if env.logWriteOk {
        ghost var records := Records(CallsOf(env.convert(cli.inputFile, cli.convertOptions), env));
        assert sink.json.messages == [] + records == records;
        logFile := Some(Artifact(cli.logFile.value, sink.json.messages));
      } else {
        console.Write(StdErr, Text(env.logWriteError));
        retval := ExitFailureCaptured;
      }
    }
  }

  /** The configuration `main` hands to the converter: an explicitly given
      embedded-media directory overrides the option, and an empty output
      file is replaced by the default, whose directory is created first (a
      failure there ends the process, which is `None` here). */
  method CompleteOutput(a: CliArgs, env: Env) returns (r: Option<CliArgs>)
    ensures r.None? <==> a.outFile == "" && !env.createOutDirOk
    ensures r.Some? ==>
      r.value.inputFile == a.inputFile && r.value.logFile == a.logFile &&
      r.value.outFile == OutFileFor(a, env.cwd) &&
      r.value.convertOptions == OptionsFor(a, env.cwd)
  {
    var cli := a;
    if cli.fbmDir != "" {
      cli := cli.(convertOptions := cli.convertOptions.(fbmDir := Some(cli.fbmDir)));
    }
    if cli.outFile == "" {
      var outFilePath := DefaultOutPath(env.cwd, cli.inputFile);
      if !env.createOutDirOk {
        return None;
      }
      cli := cli.(outFile := Render(outFilePath));
    }
    cli := cli.(convertOptions := cli.convertOptions.(out := Some(cli.outFile)));
    return Some(cli);
  }

  /** `main` once the arguments have been read into `a`. */
  method RunWith(a: CliArgs, console: Console, env: Env)
    returns (status: ExitStatus, document: Option<Artifact<Json>>, logFile: Option<Artifact<seq<LogRecord>>>)
    modifies console
    ensures status == Terminated <==> a.outFile == "" && !env.createOutDirOk
    ensures status == Terminated ==>
      document.None? && logFile.None? && console.out == old(console.out) && console.err == old(console.err)
    ensures status != Terminated ==>
      var outcome := env.convert(a.inputFile, OptionsFor(a, env.cwd));
      var documentOk := outcome.Converted? && env.documentWriteOk;
      var logOk := a.logFile.None? || env.logWriteOk;
      status == Returned(if documentOk && logOk then ExitOk else ExitFailureCaptured) &&
      document == (if documentOk then Some(Artifact(OutFileFor(a, env.cwd), outcome.document)) else None)
    ensures var calls := CallsOf(env.convert(a.inputFile, OptionsFor(a, env.cwd)), env);
      status != Terminated ==>
      logFile == (if a.logFile.Some? && env.logWriteOk then Some(Artifact(a.logFile.value, Records(calls))) else None) &&
      (a.logFile.None? ==>
        console.out == old(console.out) + Routed(calls, StdOut) &&
        console.err == old(console.err) + Routed(calls, StdErr)) &&
      (a.logFile.Some? ==>
        console.out == old(console.out) &&
        console.err == old(console.err) + (if env.logWriteOk then [] else [Text(env.logWriteError)]))
  {
    document, logFile := None, None;
    var completed := CompleteOutput(a, env);
    if completed.None? {
      return Terminated, document, logFile;
    }
    var retval;
    retval, document, logFile := ConvertAndPersist(completed.value, console, env);
    status := Returned(retval);
  }

  /** `main`. The arguments are normalised and read; without a
      configuration the run returns -1 with nothing written. Otherwise an
      explicitly given embedded-media directory overrides the option, the
      output path is completed (a default whose directory cannot be created
      ends the process), and the conversion runs as `ConvertAndPersist`
      describes: the code is 0 only when no step raised. */
  method Run(argc: nat, argv: array<string>, parse: seq<string> -> ParseOutcome, env: Env)
    returns (status: ExitStatus, document: Option<Artifact<Json>>,
             logFile: Option<Artifact<seq<LogRecord>>>, stdout: seq<Message>, stderr: seq<Message>)
    requires argc <= argv.Length
    ensures var p := parse(argv[..argc]);
      !Accepted(p) ==>
        status == Returned(ExitUsage) && document.None? && logFile.None? &&
        stdout == [] && stderr == TextLines(DiagnosticsOf(p))
    ensures var p := parse(argv[..argc]);
      Accepted(p) ==>
        var a := CliArgsOf(p).value;
        (status == Terminated <==> a.outFile == "" && !env.createOutDirOk) &&
        (status == Terminated ==>
          document.None? && logFile.None? && stdout == [] && stderr == TextLines(DiagnosticsOf(p)))
    ensures var p := parse(argv[..argc]);
      Accepted(p) && status != Terminated ==>
        var a := CliArgsOf(p).value;
        var outcome := env.convert(a.inputFile, OptionsFor(a, env.cwd));
        var calls := CallsOf(outcome, env);
        var documentOk := outcome.Converted? && env.documentWriteOk;
        var logOk := a.logFile.None? || env.logWriteOk;
        (status == Returned(ExitOk) <==> documentOk && logOk) &&
        (status != Returned(ExitOk) ==> status == Returned(ExitFailureCaptured)) &&
        document == (if documentOk then Some(Artifact(OutFileFor(a, env.cwd), outcome.document)) else None) &&
        logFile == (if a.logFile.Some? && env.logWriteOk then Some(Artifact(a.logFile.value, Records(calls))) else None) &&
        (a.logFile.None? ==>
          stdout == Routed(calls, StdOut) &&
          stderr == TextLines(DiagnosticsOf(p)) + Routed(calls, StdErr)) &&
        (a.logFile.Some? ==>
          stdout == [] &&
          stderr == TextLines(DiagnosticsOf(p)) + (if env.logWriteOk then [] else [Text(env.logWriteError)]))
  {
    var argsU8 := GetCommandLineArgsU8(argc, argv);
    assert argsU8 == argv[..argc];
    var console := new Console();
    var cliOptions, diagnostics := ReadCliArgs(argsU8, parse);
    var lines := TextLines(diagnostics);
    console.WriteAll(StdErr, lines);
    assert console.out == [] && console.err == [] + lines == lines;
    document, logFile := None, None;
    if cliOptions.None? {
      return Returned(ExitUsage), document, logFile, console.out, console.err;
    }
    status, document, logFile := RunWith(cliOptions.value, console, env);
    stdout, stderr := console.out, console.err;
  }
}
