# FBX-glTF-conv command line, modelled in Dafny

This project models the command-line front end of the FBX→glTF converter
(`Cli/ReadCliArgs.cpp` and `Cli/Cli.cpp`). It covers:

- the argument normaliser `getCommandLineArgsU8` (the non-Windows branch);
- the options resolver `readCliArgs`, which turns a `cxxopts` parse result
  into a `CliArgs` configuration;
- the path derivations of `main`: the default output path, the buffer file
  names of `MyWriter::buffer`, and `relativeUriBetweenPath`;
- the two log sinks, `ConsoleLogger` and `JsonLogger`;
- the exit-code flow of `main`: read the arguments, complete the output path,
  choose the sink, convert, write the document, write the JSON log.

Modules:

- `Wrappers`: the `Option` type.
- `Numerals`: the decimal numeral of `std::to_string` for unsigned values.
- `Paths`: a lexical model of `std::filesystem::path`. A path is an absolute
  flag plus a sequence of non-empty segments separated by `/`. It has
  parsing and rendering, with a proved round trip, and `parent_path`,
  `filename`, `stem`, `operator/` and `lexically_relative`.
- `BeeCli`: `getCommandLineArgsU8` and `readCliArgs`. The `cxxopts` parse is
  a parameter `parse: seq<string> -> ParseOutcome`. It yields one optional
  value per declared option and a help flag, or an `OptionException` with
  its message. The resolver is a method, proved equal to the specification
  functions `CliArgsOf` and `DiagnosticsOf`, and the lemmas state what those
  promise.
- `Loggers`: the console, both loggers as classes with their state, and the
  dispatch of a logger call to the sink `main` selected. The routing rule is
  specified by `Routed`; the JSON log by `Records`.
- `Cli`: `relativeUriBetweenPath`, `MyWriter` and `main` (`Run`).
  - Everything `main` depends on but does not decide lives in an `Env`
    value: the working directory, `bee::convert`, and whether each file
    write succeeds.
  - `bee::convert` returns a document or the message of the exception it
    raised. Either way it also returns the logger calls it made.
  - `Run` allocates its own console and returns:
    - the exit status;
    - the document and JSON log files left behind;
    - what was written to standard output and standard error.

Behaviour of the code worth knowing:

- An empty `--out` makes `main` create the default output directory with
  `fs::create_directories` without an error code (`Cli/Cli.cpp:83`).
  - A failure there raises an exception that nothing catches.
  - The process then ends without returning any code. The model writes this
    as `ExitStatus.Terminated`.
- The message of an exception caught in `main` reaches the logger as a
  `const char *` (`Cli/Cli.cpp:154`).
  - This selects the JSON overload, so the fatal call carries a JSON string
    (`FatalCall`).
  - The console logger prints it as that string's dump.
- A failed conversion leaves the converter's own records, followed by one
  fatal record (`FailureRecords`).
- An unknown `--unit-conversion` string is written straight to standard
  error (`Cli/ReadCliArgs.cpp:231`). It does not go through a logger.
- A relative texture search location is joined onto the parent directory of
  the input file as given.
  - A resolved relative location is absolute exactly when the input path
    is, and an absolute entry stays absolute (`TextureLocationsResolved`,
    `TextureLocationsAbsolute`).
- Once the exit code is 1 it stays 1.
  - `Cli.ConvertAndPersist` and `Cli.Run` state the final code. It is 0
    exactly when the conversion, the document write and (when requested)
    the log write all complete without raising an exception, and 1
    otherwise.
  - A log write that raises therefore cannot hide an earlier failure, and
    one that does not raise cannot undo it.
  - The JSON log stream is not flushed inside its `try`
    (`Cli/Cli.cpp:164-167`). A write error that only shows when the
    stream closes is ignored by the code, and the code stays 0.

`--help` is not declared in the option schema, so whether the help branch of
`readCliArgs` can be reached depends on the parser library. The model keeps
it as a flag of the parse result.

## Model

| member | source | states |
|---|---|---|
| Numerals.Decimal | Cli/Cli.cpp:103 | the numeral of `std::to_string(index_)` is a non-empty string of digits, with a leading '0' exactly for zero |
| Numerals.DecimalRoundTrip | Cli/Cli.cpp:103 | reading the digits back gives the index that was written |
| Numerals.DecimalInjective | Cli/Cli.cpp:103 | two indices with the same numeral are equal |
| Paths.Parse | Cli/Cli.cpp:79 | `path{s}` yields only non-empty, separator-free segments |
| Paths.Split | Cli/Cli.cpp:98 | the segments of a path string are non-empty and contain no '/' |
| Paths.ParseRender | Cli/Cli.cpp:84 | the string form of a well-formed path parses back to the same path (the output path stored as a string and re-read at lines 98 and 147) |
| Paths.Render | Cli/Cli.cpp:15 | the generic string of a well-formed path starts with `/` exactly when the path is absolute |
| Paths.SplitJoin | Cli/Cli.cpp:147 | splitting the '/'-joined segments gives the segments back, and the joined string does not start with '/' |
| Paths.Parent | Cli/Cli.cpp:100 | `parent_path()` keeps well-formedness |
| Paths.FileName | Cli/Cli.cpp:99 | `filename()` never contains a separator |
| Paths.LastDot | Cli/Cli.cpp:99 | the index found holds the last '.' of the name, with no '.' after it; -1 means the name has no '.' |
| Paths.StemOf | Cli/Cli.cpp:80 | the stem is a prefix of the file name and has no separator if the name has none |
| Paths.Stem | Cli/Cli.cpp:99 | the stem of a parsed path contains no separator |
| Paths.LastDotSuffix | Cli/Cli.cpp:80 | appending text without a '.' does not move the last '.' |
| Paths.StemOfExtension | Cli/Cli.cpp:80-82 | removing an extension without its own '.' from `base.ext` yields `base` |
| Paths.Join | Cli/ReadCliArgs.cpp:255 | defines `base / p` as `p` when `p` is absolute and as the concatenation otherwise; keeps well-formedness |
| Paths.Child | Cli/Cli.cpp:101-104 | `dir / name` has parent `dir` and file name `name` |
| Paths.CommonPrefix | Cli/Cli.cpp:15 | the length returned is a common prefix of both segment sequences that cannot be extended |
| Paths.CommonPrefixOfPrefix | Cli/Cli.cpp:15 | when one segment sequence starts with the other, the common prefix is the whole shorter one |
| Paths.LexicallyRelative | Cli/Cli.cpp:15 | `lexically_relative` never yields an absolute path and keeps well-formedness |
| Paths.RelativeInverse | Cli/Cli.cpp:15 | a path below `base`, taken relative to `base`, is exactly its segments below `base`, and joining it back onto `base` gives the path |
| BeeCli.GetCommandLineArgsU8 | Cli/ReadCliArgs.cpp:62-66 | exactly `argc` strings come back, and element i equals `argv[i]` |
| BeeCli.UnitConversionMapping | Cli/ReadCliArgs.cpp:220-233 | every mode has one of the three recognised names, and that name selects exactly this mode whatever was in place |
| BeeCli.UnitConversionFor | Cli/ReadCliArgs.cpp:220-233 | a known name selects the mode it names; any other string keeps the mode in place |
| BeeCli.CopiedOptions | Cli/ReadCliArgs.cpp:172-203 | the option values copied from the parse leave the unit conversion, the texture search locations, `fbmDir` and `out` at their defaults |
| BeeCli.ResolveLocation | Cli/ReadCliArgs.cpp:250-256 | an absolute entry is kept verbatim, and a relative one becomes `baseDir / entry` |
| BeeCli.ResolveLocations | Cli/ReadCliArgs.cpp:246-257 | the list keeps its length and order, and element i is entry i resolved |
| BeeCli.CliArgsOf | Cli/ReadCliArgs.cpp:152-260 | a configuration exists exactly when the parse succeeded, asked for no help and named a non-empty input file |
| BeeCli.DiagnosticsOf | Cli/ReadCliArgs.cpp:209-232 | the resolver writes at most one line; none on a help request; for an accepted parse, none exactly when the unit conversion is empty or a known name |
| BeeCli.RejectedParses | Cli/ReadCliArgs.cpp:155-158 | an option exception, a help request and a missing or empty input file each give no configuration; the exception's message or "Input file not specified." is the error output |
| BeeCli.PathsCopied | Cli/ReadCliArgs.cpp:160-170 | input, output and embedded-media paths are copied verbatim, and an absent one is empty (lines 235-237) |
| BeeCli.ConvertOptionsFromParse | Cli/ReadCliArgs.cpp:172-203 | each converter option takes the parsed value when its option occurs and keeps its default (false, true, 30) otherwise |
| BeeCli.UnitConversionResolved | Cli/ReadCliArgs.cpp:220-233 | each name selects its mode; any other string keeps geometry-level, a non-empty one is reported, and the configuration is still returned |
| BeeCli.LogFileResolved | Cli/ReadCliArgs.cpp:238-241 | the log file is present exactly when the parsed string is non-empty, and then it equals that string |
| BeeCli.TextureLocationsResolved | Cli/ReadCliArgs.cpp:242-258 | the locations keep the entries' number and order; absolute entries are kept verbatim, relative ones parse as `parent(inputFile) / entry` |
| BeeCli.TextureLocationsAbsolute | Cli/ReadCliArgs.cpp:243-256 | an absolute entry stays absolute, and a resolved relative entry is absolute exactly when the input file is; so with an absolute input file every resolved location is absolute |
| BeeCli.TransformLocations | Cli/ReadCliArgs.cpp:244-257 | the in-place `std::transform` into a buffer of the entries' size yields exactly the resolved list |
| BeeCli.ReadParsedValues | Cli/ReadCliArgs.cpp:160-207 | each value is taken from the parse result only when its option occurs, and otherwise keeps its initial value |
| BeeCli.ApplyUnitConversion | Cli/ReadCliArgs.cpp:220-233 | the mode is the one a non-empty string names, and otherwise unchanged; an unknown non-empty string produces exactly the "Unknown unit conversion option: " line |
| BeeCli.ReadCliArgs | Cli/ReadCliArgs.cpp:70-261 | the configuration returned is `CliArgsOf(parse(args))`, and the error output is `DiagnosticsOf(parse(args))` |
| Loggers.StreamFor | Cli/Cli.cpp:28 | a level goes to standard error exactly when it is error or above |
| Loggers.RecordOf | Cli/Cli.cpp:37-45 | the record keeps the level; free text becomes a JSON string, and a payload is kept as it is |
| Loggers.Records | Cli/Cli.cpp:38 | the JSON log has one record per call, in call order |
| Loggers.Emitted | Cli/Cli.cpp:28-31 | one call shows its message, alone, on the stream its level selects, and nothing on the other |
| Loggers.Routed | Cli/Cli.cpp:28-31 | a stream shows at most one message per call, and none when no call is routed to it |
| Loggers.RoutedSnoc | Cli/Cli.cpp:27-32 | one more call adds its message at the end of the stream it is routed to, and nothing elsewhere |
| Loggers.RecordsSnoc | Cli/Cli.cpp:38 | one more call adds exactly its record at the end of the JSON log, leaving earlier records unchanged |
| Loggers.RoutedPartition | Cli/Cli.cpp:28 | every call shows on exactly one of the two streams |
| Loggers.RoutedByLevel | Cli/Cli.cpp:28 | calls below error all reach standard output, and calls at error or above all reach standard error |
| Loggers.Console.constructor | Cli/Cli.cpp:28 | both streams start empty |
| Loggers.Console.Write | Cli/Cli.cpp:29-31 | a line is appended to the chosen stream, and the other stream is unchanged |
| Loggers.Console.WriteAll | Cli/ReadCliArgs.cpp:210-211 | lines are appended in order to the chosen stream, and the other stream is unchanged |
| Loggers.ConsoleLogger.constructor | Cli/Cli.cpp:134 | the logger writes to the given console |
| Loggers.ConsoleLogger.LogJson | Cli/Cli.cpp:20-25 | a payload is shown (as its dump) on the stream its level selects |
| Loggers.ConsoleLogger.LogText | Cli/Cli.cpp:27-32 | text is shown on standard error for error and above, and on standard output otherwise |
| Loggers.JsonLogger.constructor | Cli/Cli.cpp:52 | the log starts empty |
| Loggers.JsonLogger.LogJson | Cli/Cli.cpp:37-39 | exactly one `{level, message}` record is appended, and earlier records are unchanged |
| Loggers.JsonLogger.LogText | Cli/Cli.cpp:41-45 | text is appended as one record holding a JSON string |
| Loggers.Emit | Cli/Cli.cpp:136 | a call through the selected sink appends its record to the JSON log, or its message to the routed console stream |
| Loggers.EmitAll | Cli/Cli.cpp:145-146 | the converter's calls leave `Records(calls)` in the JSON log, or `Routed(calls, ·)` on the console streams |
| Cli.RelativeUriBetweenPath | Cli/Cli.cpp:13-16 | the URI parses back to `to.lexically_relative(from)` and is never absolute |
| Cli.RelativeUriOfChild | Cli/Cli.cpp:117 | the URI of a file directly inside a directory, relative to that directory, is the bare file name |
| Cli.DefaultOutPath | Cli/Cli.cpp:79-82 | the default output file is named `<stem>.gltf` and sits in a directory `<stem>_glTF` directly under the working directory |
| Cli.DefaultNamesAreSegments | Cli/Cli.cpp:81-82 | `<stem>_glTF` and `<stem>.gltf` are single path segments |
| Cli.DefaultOutLayout | Cli/Cli.cpp:78-85 | the default output path reads back as itself, lies in `cwd/<stem>_glTF`, is named `<stem>.gltf`, and, for a non-empty stem, has the input's stem as its stem |
| Cli.GltfStem | Cli/Cli.cpp:80-82 | for a non-empty stem, the stem of `<stem>.gltf` is `<stem>` |
| Cli.BufferFileName | Cli/Cli.cpp:99-104 | a buffer file name starts with the output file's stem and ends with `.bin`; between them a lone buffer's name has nothing, and one of several has the decimal numeral of the buffer's index, with no leading zeros |
| Cli.BufferOutPath | Cli/Cli.cpp:100-104 | the buffer file sits in the output file's directory under its buffer file name |
| Cli.BufferFileNameIsSegment | Cli/Cli.cpp:101-104 | a buffer file name is one non-empty segment without a separator |
| Cli.BufferFileNamesDistinct | Cli/Cli.cpp:103 | distinct indices give distinct buffer file names |
| Cli.Writer.constructor | Cli/Cli.cpp:90-92 | the writer keeps the input and output file names |
| Cli.Writer.Buffer | Cli/Cli.cpp:94-118 | a directory that cannot be created raises "Failed to create directories for buffer <path>" and a failed write raises its error; otherwise all bytes go to a file in the output file's directory, and the URI returned is that file's bare name, never absolute |
| Cli.OutFileFor | Cli/Cli.cpp:78-85 | the output file is the given one, or, when none was given, a string that parses to the default output path |
| Cli.OptionsFor | Cli/Cli.cpp:74-86 | the converter's `out` is the output file; `fbmDir` is replaced by a non-empty argument and kept otherwise; no other option changes |
| Cli.FatalCall | Cli/Cli.cpp:154 | the fatal call goes to standard error on the console and is recorded as a fatal record holding the message as a JSON string |
| Cli.FailureOf | Cli/Cli.cpp:144-156 | a failure is caught exactly when the conversion or the document write fails; a conversion failure carries the converter's message |
| Cli.CallsOf | Cli/Cli.cpp:144-156 | the calls of a run are the converter's calls, followed by exactly one fatal call carrying the caught failure's message when there is one, and nothing more otherwise |
| Cli.FailureRecords | Cli/Cli.cpp:153-156 | a failed conversion leaves the converter's records plus exactly one fatal record with the exception's message; a full success adds none |
| Cli.DefaultBufferPath | Cli/Cli.cpp:98-104 | for an input with a non-empty stem and the default output path, a lone buffer is written to `cwd/<stem>_glTF/<stem>.bin` |
| Cli.ConvertWith | Cli/Cli.cpp:142-156 | the code stays 0 only when the conversion and the document write succeed and becomes 1 otherwise; the sink ends with the converter's calls followed by one fatal call for the failure |
| Cli.ConvertAndPersist | Cli/Cli.cpp:130-172 | the sink is the JSON logger exactly when a log file was requested; the code is 0 exactly when the conversion, the document write and (when requested) the log write all succeed without an exception, and 1 otherwise; the log written holds the records of all calls, and a log-write failure goes straight to standard error |
| Cli.CompleteOutput | Cli/Cli.cpp:74-86 | no configuration comes back exactly when the default output directory is needed and cannot be created; otherwise the output file and the converter options are `OutFileFor` and `OptionsFor` |
| Cli.RunWith | Cli/Cli.cpp:74-174 | the process terminates, with no modelled output, exactly when the default output directory cannot be created; otherwise the status, the document, the log and the console output are those of the conversion with `OptionsFor` |
| Cli.Run | Cli/Cli.cpp:55-175 | -1 with only the diagnostics on standard error exactly when the arguments give no configuration; termination exactly when the default directory cannot be created; otherwise 0 exactly when no step raised an exception and 1 otherwise, with the document and JSON log files stated exactly, and the console streams carrying the diagnostics followed by the routed converter and fatal messages (or, with a JSON log, only a log-write error) |

## Left out

- The Windows branch of `getCommandLineArgsU8` (`Cli/ReadCliArgs.cpp:28-58`) is not modelled. It calls the Windows API to rebuild the command line in UTF-16 and re-encode it. On other platforms the normaliser cannot fail, so the `-1` return of `Cli/Cli.cpp:59-61` has no counterpart.
- The `cxxopts` schema, the tokenising of the arguments and the rendering of the usage text are outside the model. The usage text printed on help, on an option exception and after "Input file not specified." is not among the modelled stream lines.
- `bee::convert`, `bee::Json::dump` and the meaning of the converter options are outside the model. The converter is an oracle in `Env`, and its logger calls are replayed through the selected sink in the order it made them. The buffer writer, the data-URI flag, the path mode and the logger pointer that `main` hands to the converter (`Cli/Cli.cpp:125-128, 136`) are not fields of the modelled options. The writer is modelled on its own (`Cli.Writer`).
- File-system effects are success/failure oracles. This covers `create_directories` (for the output directory, each buffer and the log file) and the `ofstream` writes. A document write that fails part-way may leave a partial file; the model records no document then.
- The working directory is an input (`Env.cwd`). A failing `fs::current_path` is not modelled.
- `Env.logWriteOk` means that creating the log directory, opening the log file and streaming the log raise no exception. A write failure when the unflushed log stream closes (`Cli/Cli.cpp:164-167`) is not reported by the code, and the model does not capture the missing or truncated log file it leaves.
- The message the C++ runtime's terminate handler may print when the `filesystem_error` of `Cli/Cli.cpp:83` goes uncaught is not modelled; `ExitStatus.Terminated` carries no console output.
- Paths are lexical and `/`-separated. There are no root names, no backslash separators, no `.`/`..` normalisation, and no trailing-separator `filename()`. Repeated separators collapse. `lexically_relative` follows the standard's rule with these simplifications.
- `Loggers.Level` names the levels `main` and the console logger distinguish. The converter's full level set belongs to the converter.
- `animationBakeRate` is copied as an integer; no arithmetic is done on it.
