/**
 * The argument normaliser and the options resolver of the command line
 * (namespace `beecli`): the raw process arguments are copied into UTF-8
 * strings, parsed against the option schema, and the parse result is turned
 * into the typed `CliArgs` the converter is configured from.
 */
module BeeCli {
  import opened Wrappers
  import Paths

  // ---------------------------------------------------------------------
  // The configuration handed to the converter
  // ---------------------------------------------------------------------

  datatype UnitConversion = GeometryLevel | HierarchyLevel | Disabled

  datatype TextureResolution = TextureResolution(disabled: bool, locations: seq<string>)

  /** The fields of the converter's options that the command line sets. */
  datatype ConvertOptions = ConvertOptions(
    noFlipV: bool,
    unitConversion: UnitConversion,
    textureResolution: TextureResolution,
    preferLocalTimeSpan: bool,
    animationBakeRate: int,
    verbose: bool,
    fbmDir: Option<string>,
    out: Option<string>)

  /** The converter's defaults for those fields. */
  const DefaultConvertOptions := ConvertOptions(
    noFlipV := false,
    unitConversion := GeometryLevel,
    textureResolution := TextureResolution(false, []),
    preferLocalTimeSpan := true,
    animationBakeRate := 30,
    verbose := false,
    fbmDir := None,
    out := None)

  datatype CliArgs = CliArgs(
    inputFile: string,
    outFile: string,
    fbmDir: string,
    logFile: Option<string>,
    convertOptions: ConvertOptions)

  // ---------------------------------------------------------------------
  // What the option parser yields
  // ---------------------------------------------------------------------

  /** One field per declared option: `Some` exactly when the option occurs
      in the arguments (its count is non-zero), with its typed value. */
  datatype ParseResult = ParseResult(
    help: bool,
    inputFile: Option<string>,
    fbmDir: Option<string>,
    out: Option<string>,
    noFlipV: Option<bool>,
    unitConversion: Option<string>,
    noTextureResolution: Option<bool>,
    textureSearchLocations: Option<seq<string>>,
    preferLocalTimeSpan: Option<bool>,
    animationBakeRate: Option<int>,
    verbose: Option<bool>,
    logFile: Option<string>)

  /** A parse either succeeds or raises an option exception with a message. */
  datatype ParseOutcome = Parsed(result: ParseResult) | OptionException(what: string)

  // ---------------------------------------------------------------------
  // Argument normaliser
  // ---------------------------------------------------------------------

  /** Outside Windows the process arguments are trusted to be UTF-8 already:
      the first `argc` entries of `argv` are copied one by one. */
  method GetCommandLineArgsU8(argc: nat, argv: array<string>) returns (u8Args: seq<string>)
    requires argc <= argv.Length
    ensures |u8Args| == argc
    ensures forall i :: 0 <= i < argc ==> u8Args[i] == argv[i]
  {
    var args := new string[argc];
    var i := 0;
    while i < argc
      invariant 0 <= i <= argc
      invariant forall k :: 0 <= k < i ==> args[k] == argv[k]
    {
      args[i] := argv[i];
      i := i + 1;
    }
    u8Args := args[..];
  }

  // ---------------------------------------------------------------------
  // Options resolver: the pure rules
  // ---------------------------------------------------------------------

  /** The spelling of each unit-conversion mode on the command line. */
  function UnitConversionName(u: UnitConversion): string {
    match u
    case GeometryLevel => "geometry-level"
    case HierarchyLevel => "hierarchy-level"
    case Disabled => "disabled"
  }

  predicate IsUnitConversionName(s: string) {
    s == "geometry-level" || s == "hierarchy-level" || s == "disabled"
  }

  /** The mode a `--unit-conversion` string selects; an unknown string
      keeps the mode that was in place. */
  function UnitConversionFor(s: string, current: UnitConversion): (u: UnitConversion)
    ensures IsUnitConversionName(s) ==> UnitConversionName(u) == s
    ensures !IsUnitConversionName(s) ==> u == current
  {
    if s == "geometry-level" then GeometryLevel
    else if s == "hierarchy-level" then HierarchyLevel
    else if s == "disabled" then Disabled
    else current
  }

  /** Every mode has a recognised name, and that name selects exactly this
      mode, whatever was in place. */
  lemma UnitConversionMapping(current: UnitConversion)
    ensures forall u :: UnitConversionFor(UnitConversionName(u), current) == u
    ensures forall u :: IsUnitConversionName(UnitConversionName(u))
  {
  }

  /** A texture search location: kept verbatim when absolute, otherwise
      appended to the directory of the input file. */
  function ResolveLocation(baseDir: Paths.Path, entry: string): (r: string)
    ensures Paths.Parse(entry).absolute ==> r == entry
    ensures !Paths.Parse(entry).absolute && Paths.WellFormed(baseDir) ==>
      Paths.Parse(r) == Paths.Path(baseDir.absolute, baseDir.segments + Paths.Parse(entry).segments)
  {
    var p := Paths.Parse(entry);
    if p.absolute then entry
    else
      var q := Paths.Join(baseDir, p);
      if Paths.WellFormed(baseDir) then
        Paths.ParseRender(q);
        Paths.Render(q)
      else
        Paths.Render(q)
  }

  /** Every location resolved, in the given order. */
  function ResolveLocations(baseDir: Paths.Path, entries: seq<string>): (r: seq<string>)
    ensures |r| == |entries|
    ensures forall i :: 0 <= i < |entries| ==> r[i] == ResolveLocation(baseDir, entries[i])
  {
    if entries == [] then []
    else [ResolveLocation(baseDir, entries[0])] + ResolveLocations(baseDir, entries[1..])
  }

  /** The parse produced a configuration: no option exception, no help
      request, and a non-empty input file. */
  predicate Accepted(p: ParseOutcome) {
    p.Parsed? && !p.result.help && p.result.inputFile.GetOr("") != ""
  }

  /** The defaults, overwritten by each flag or value option that occurs. */
  function CopiedOptions(o: ParseResult): (c: ConvertOptions)
    ensures c.unitConversion == DefaultConvertOptions.unitConversion
    ensures c.textureResolution.locations == DefaultConvertOptions.textureResolution.locations
    ensures c.fbmDir == DefaultConvertOptions.fbmDir && c.out == DefaultConvertOptions.out
  {
    var d := DefaultConvertOptions;
    d.(
      noFlipV := o.noFlipV.GetOr(d.noFlipV),
      textureResolution := d.textureResolution.(disabled := o.noTextureResolution.GetOr(d.textureResolution.disabled)),
      preferLocalTimeSpan := o.preferLocalTimeSpan.GetOr(d.preferLocalTimeSpan),
      animationBakeRate := o.animationBakeRate.GetOr(d.animationBakeRate),
      verbose := o.verbose.GetOr(d.verbose))
  }

  /** The resolved configuration, or `None` when the parse is not accepted. */
  function CliArgsOf(p: ParseOutcome): (r: Option<CliArgs>)
    ensures r.Some? <==> Accepted(p)
  {
    if !Accepted(p) then None
    else
      var o := p.result;
      var d := DefaultConvertOptions;
      var input := o.inputFile.value;
      var entries := o.textureSearchLocations.GetOr([]);
      var logFile := o.logFile.GetOr("");
      var copied := CopiedOptions(o);
      var options := copied.(
        unitConversion := UnitConversionFor(o.unitConversion.GetOr(""), d.unitConversion),
        textureResolution := copied.textureResolution.(locations :=
          if entries == [] then d.textureResolution.locations
          else ResolveLocations(Paths.Parent(Paths.Parse(input)), entries)));
      Some(CliArgs(input, o.out.GetOr(""), o.fbmDir.GetOr(""),
                   if logFile == "" then None else Some(logFile), options))
  }

  /** The lines the resolver writes to the error stream (the usage text
      printed beside them is not part of this model). */
  function DiagnosticsOf(p: ParseOutcome): (lines: seq<string>)
    ensures |lines| <= 1
    ensures p.Parsed? && p.result.help ==> lines == []
    ensures Accepted(p) ==> (lines == [] <==>
      var u := p.result.unitConversion.GetOr(""); u == "" || IsUnitConversionName(u))
  {
    if p.OptionException? then [p.what]
    else if p.result.help then []
    else if p.result.inputFile.GetOr("") == "" then ["Input file not specified."]
    else
      var u := p.result.unitConversion.GetOr("");
      if u != "" && !IsUnitConversionName(u) then ["Unknown unit conversion option: " + u] else []
  }

  // ---------------------------------------------------------------------
  // Options resolver: what the configuration promises
  // ---------------------------------------------------------------------

  /** A help request, an option exception, or a missing or empty input file
      yields no configuration. */
  lemma RejectedParses(p: ParseOutcome)
    ensures p.OptionException? ==> CliArgsOf(p) == None && DiagnosticsOf(p) == [p.what]
    ensures p.Parsed? && p.result.help ==> CliArgsOf(p) == None
    ensures p.Parsed? && !p.result.help && p.result.inputFile.GetOr("") == "" ==>
      CliArgsOf(p) == None && DiagnosticsOf(p) == ["Input file not specified."]
  {
  }

  /** The three path options are copied verbatim; absent ones are empty. */
  lemma PathsCopied(p: ParseOutcome)
    requires Accepted(p)
    ensures CliArgsOf(p).value.inputFile == p.result.inputFile.value
    ensures CliArgsOf(p).value.outFile == p.result.out.GetOr("")
    ensures CliArgsOf(p).value.fbmDir == p.result.fbmDir.GetOr("")
  {
  }

  /** A converter option is overwritten only by an option that occurs. */
  lemma ConvertOptionsFromParse(p: ParseOutcome)
    requires Accepted(p)
    ensures var c := CliArgsOf(p).value.convertOptions;
      var o := p.result;
      (o.noFlipV.Some? ==> c.noFlipV == o.noFlipV.value) &&
      (o.noFlipV.None? ==> c.noFlipV == DefaultConvertOptions.noFlipV) &&
      (o.noTextureResolution.Some? ==> c.textureResolution.disabled == o.noTextureResolution.value) &&
      (o.noTextureResolution.None? ==> !c.textureResolution.disabled) &&
      (o.preferLocalTimeSpan.Some? ==> c.preferLocalTimeSpan == o.preferLocalTimeSpan.value) &&
      (o.preferLocalTimeSpan.None? ==> c.preferLocalTimeSpan) &&
      (o.animationBakeRate.Some? ==> c.animationBakeRate == o.animationBakeRate.value) &&
      (o.animationBakeRate.None? ==> c.animationBakeRate == 30) &&
      (o.verbose.Some? ==> c.verbose == o.verbose.value) &&
      (o.verbose.None? ==> !c.verbose) &&
      c.fbmDir.None? && c.out.None?
  {
  }

  /** The unit-conversion string selects its mode; an unknown one keeps the
      default, is reported, and the configuration is still produced. */
  lemma UnitConversionResolved(p: ParseOutcome)
    requires Accepted(p)
    ensures var s := p.result.unitConversion.GetOr("");
      var u := CliArgsOf(p).value.convertOptions.unitConversion;
      (s == "geometry-level" ==> u == GeometryLevel) &&
      (s == "hierarchy-level" ==> u == HierarchyLevel) &&
      (s == "disabled" ==> u == Disabled) &&
      (!IsUnitConversionName(s) ==> u == GeometryLevel) &&
      (s != "" && !IsUnitConversionName(s) ==> DiagnosticsOf(p) == ["Unknown unit conversion option: " + s]) &&
      (s == "" || IsUnitConversionName(s) ==> DiagnosticsOf(p) == [])
  {
  }

  /** The log file is present exactly when a non-empty one was given. */
  lemma LogFileResolved(p: ParseOutcome)
    requires Accepted(p)
    ensures var l := CliArgsOf(p).value.logFile;
      (l.Some? <==> p.result.logFile.GetOr("") != "") &&
      (l.Some? ==> l.value == p.result.logFile.value)
  {
  }

  /** The texture search locations keep their number and order; an absolute
      entry is kept verbatim and a relative one is placed under the directory
      of the input file. */
  lemma {:induction false} TextureLocationsResolved(p: ParseOutcome)
    requires Accepted(p)
    ensures var entries := p.result.textureSearchLocations.GetOr([]);
      var locations := CliArgsOf(p).value.convertOptions.textureResolution.locations;
      var baseDir := Paths.Parent(Paths.Parse(p.result.inputFile.value));
      |locations| == |entries| &&
      forall i :: 0 <= i < |entries| ==>
        var e := Paths.Parse(entries[i]);
        (e.absolute ==> locations[i] == entries[i]) &&
        (!e.absolute ==> Paths.Parse(locations[i]) == Paths.Join(baseDir, e))
  {
  }

  /** An absolute entry stays absolute; a relative one becomes absolute
      exactly when the input file is given as an absolute path. So with an
      absolute input file every resolved texture location is absolute. */
  lemma {:induction false} TextureLocationsAbsolute(p: ParseOutcome)
    requires Accepted(p)
    ensures var entries := p.result.textureSearchLocations.GetOr([]);
      var locations := CliArgsOf(p).value.convertOptions.textureResolution.locations;
      |locations| == |entries| &&
      forall i :: 0 <= i < |entries| ==>
        (Paths.Parse(entries[i]).absolute ==> Paths.Parse(locations[i]).absolute) &&
        (!Paths.Parse(entries[i]).absolute ==>
          Paths.Parse(locations[i]).absolute == Paths.Parse(p.result.inputFile.value).absolute)
    ensures Paths.Parse(p.result.inputFile.value).absolute ==>
      var locations := CliArgsOf(p).value.convertOptions.textureResolution.locations;
      forall i :: 0 <= i < |locations| ==> Paths.Parse(locations[i]).absolute
  {
  }

  // ---------------------------------------------------------------------
  // Options resolver: the procedure
  // ---------------------------------------------------------------------

  /** The `std::transform` of the entries into a buffer of the same size,
      each entry resolved by `ResolveLocation`. */
  method TransformLocations(baseDir: Paths.Path, entries: seq<string>) returns (locations: seq<string>)
    ensures locations == ResolveLocations(baseDir, entries)
  {
    var buffer := new string[|entries|];
    var i := 0;
    while i < buffer.Length
      invariant 0 <= i <= buffer.Length
      invariant forall k :: 0 <= k < i ==> buffer[k] == ResolveLocation(baseDir, entries[k])
    {
      buffer[i] := ResolveLocation(baseDir, entries[i]);
      i := i + 1;
    }
    locations := buffer[..];
  }

  /** The `try` block's reads of the parse result: each value is taken
      only when its option occurs, otherwise the initial value stays. */
  method ReadParsedValues(parsed: ParseResult)
    returns (inputFile: string, outFile: string, fbmDir: string, logFile: string,
             unitConversion: string, textureSearchLocations: seq<string>, options: ConvertOptions)
    ensures inputFile == parsed.inputFile.GetOr("") && outFile == parsed.out.GetOr("")
    ensures fbmDir == parsed.fbmDir.GetOr("") && logFile == parsed.logFile.GetOr("")
    ensures unitConversion == parsed.unitConversion.GetOr("")
    ensures textureSearchLocations == parsed.textureSearchLocations.GetOr([])
    ensures options == CopiedOptions(parsed)
  {
    inputFile, outFile, fbmDir, logFile, unitConversion := "", "", "", "", "";
    textureSearchLocations := [];
    options := DefaultConvertOptions;
    if parsed.inputFile.Some? {
      inputFile := parsed.inputFile.value;
    }
    if parsed.fbmDir.Some? {
      fbmDir := parsed.fbmDir.value;
    }
    if parsed.out.Some? {
      outFile := parsed.out.value;
    }
    if parsed.noFlipV.Some? {
      options := options.(noFlipV := parsed.noFlipV.value);
    }
    if parsed.unitConversion.Some? {
      unitConversion := parsed.unitConversion.value;
    }
    if parsed.noTextureResolution.Some? {
      options := options.(textureResolution := options.textureResolution.(disabled := parsed.noTextureResolution.value));
    }
    if parsed.textureSearchLocations.Some? {
      textureSearchLocations := parsed.textureSearchLocations.value;
    }
    if parsed.preferLocalTimeSpan.Some? {
      options := options.(preferLocalTimeSpan := parsed.preferLocalTimeSpan.value);
    }
    if parsed.animationBakeRate.Some? {
      options := options.(animationBakeRate := parsed.animationBakeRate.value);
    }
    if parsed.verbose.Some? {
      options := options.(verbose := parsed.verbose.value);
    }
    if parsed.logFile.Some? {
      logFile := parsed.logFile.value;
    }
  }

  /** The unit-conversion block after the `try`: a non-empty string sets
      the mode it names, and an unknown one is reported and changes nothing. */
  method ApplyUnitConversion(unitConversion: string, options: ConvertOptions)
    returns (updated: ConvertOptions, stderr: seq<string>)
    ensures updated == options.(unitConversion := UnitConversionFor(unitConversion, options.unitConversion))
    ensures stderr == if unitConversion != "" && !IsUnitConversionName(unitConversion)
      then ["Unknown unit conversion option: " + unitConversion] else []
  {
    updated, stderr := options, [];
    if unitConversion != "" {
      if unitConversion == "geometry-level" {
        updated := updated.(unitConversion := GeometryLevel);
      } else if unitConversion == "hierarchy-level" {
        updated := updated.(unitConversion := HierarchyLevel);
      } else if unitConversion == "disabled" {
        updated := updated.(unitConversion := Disabled);
      } else {
        stderr := stderr + ["Unknown unit conversion option: " + unitConversion];
      }
    }
  }

  /** `readCliArgs`: parses the arguments and fills the configuration one
      option at a time; returns the lines written to the error stream. */
  method ReadCliArgs(args: seq<string>, parse: seq<string> -> ParseOutcome)
    returns (cliArgs: Option<CliArgs>, stderr: seq<string>)
    ensures cliArgs == CliArgsOf(parse(args))
    ensures stderr == DiagnosticsOf(parse(args))
  {
    stderr := [];

    var outcome := parse(args);
    if outcome.OptionException? {
      stderr := stderr + [outcome.what];
      return None, stderr;
    }
    var parsed := outcome.result;
    if parsed.help {
      return None, stderr;
    }
    var inputFile, outFile, fbmDir, logFile, unitConversion, textureSearchLocations, options :=
      ReadParsedValues(parsed);
    if inputFile == "" {
      stderr := stderr + ["Input file not specified."];
      return None, stderr;
    }

    var unitDiagnostics;
    options, unitDiagnostics := ApplyUnitConversion(unitConversion, options);
    stderr := stderr + unitDiagnostics;
    var log: Option<string> := None;
    if logFile != "" {
      log := Some(logFile);
    }
    if textureSearchLocations != [] {
      var baseDir := Paths.Parent(Paths.Parse(inputFile));
      var locations := TransformLocations(baseDir, textureSearchLocations);
      options := options.(textureResolution := options.textureResolution.(locations := locations));
    }
    cliArgs := Some(CliArgs(inputFile, outFile, fbmDir, log, options));
  }
}
