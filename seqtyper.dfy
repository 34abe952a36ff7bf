/**
 * `labscripts.seqtyper.run_mlst`: the entry point that takes one or more
 * input paths, types the first one (a single- or multi-record FASTA file,
 * never a directory) and reports under the typer key `mlst`.
 */
module Seqtyper {
  import opened Wrappers
  import opened JsonTree
  import opened Fasta
  import opened Batch
  import opened Cli
  import opened MlstUtils
  import MlstRunner

  /** The top-level key of this typer's `data.json`. */
  const Tool: string := "mlst"

  /** An excerpt of this module's own copy of the species catalog. */
  const SpeciesCatalog: seq<(string, string)> := [
    ("Achromobacter", "achromobacter"),
    ("Acinetobacter baumannii", "abaumannii, abaumannii_2"),
    ("Escherichia coli", "ecoli, ecoli_2"),
    ("Salmonella enterica", "senterica"),
    ("Staphylococcus aureus", "saureus"),
    ("Vibrio cholerae", "vcholerae, vcholerae_2"),
    ("Yersinia ruckeri", "yruckeri")
  ]

  /** `is_species_valid`: the same substring scan, over this module's catalog. */
  predicate IsSpeciesValid(species: string) {
    SpeciesOptions(SpeciesCatalog).IsSpeciesValid(species)
  }

  /** The parsed command line; `input` holds at least one path whenever the command is `run`. */
  datatype Args = Args(command: MlstRunner.Command, input: seq<string>, species: string, outdir: string, methodPath: Option<string>)

  /** The method path, when given, is a file. */
  predicate MethodPathAccepted(methodPath: Option<string>, fs: FileSystem) {
    Given(methodPath) ==> IsFile(fs, methodPath.value)
  }

  /**
   * `check_command_line_arguments`: `list_sp` exits first; then, in order,
   * the first input path must exist and be a file, the output directory
   * must exist and be a directory, the method path (when given) must exist
   * and be a file, and the species must pass the catalog check. Only the
   * first input path is looked at.
   */
  function CheckCommandLineArguments(args: Args, fs: FileSystem): (v: Verdict)
    requires args.command.Run? ==> |args.input| > 0
    ensures v == ListSpecies <==> args.command.ListSp?
    ensures args.command.Run? ==>
      (v == Exit(InputMissing(args.input[0])) <==> !Exists(fs, args.input[0]))
    ensures args.command.Run? ==>
      (v == Exit(InputNotFile(args.input[0])) <==> Exists(fs, args.input[0]) && !IsFile(fs, args.input[0]))
    ensures args.command.Run? ==>
      (v == Exit(OutdirMissing(args.outdir)) <==> IsFile(fs, args.input[0]) && !Exists(fs, args.outdir))
    ensures args.command.Run? ==>
      (v == Exit(OutdirNotDirectory(args.outdir)) <==>
        IsFile(fs, args.input[0]) && Exists(fs, args.outdir) && !IsDir(fs, args.outdir))
    ensures args.command.Run? && Given(args.methodPath) ==>
      (v == Exit(MethodPathMissing(args.methodPath.value)) <==>
        IsFile(fs, args.input[0]) && IsDir(fs, args.outdir) && !Exists(fs, args.methodPath.value))
    ensures args.command.Run? && Given(args.methodPath) ==>
      (v == Exit(MethodPathNotFile(args.methodPath.value)) <==>
        IsFile(fs, args.input[0]) && IsDir(fs, args.outdir) &&
        Exists(fs, args.methodPath.value) && !IsFile(fs, args.methodPath.value))
    ensures args.command.Run? ==>
      (v == Exit(InvalidSpecies(args.species)) <==>
        IsFile(fs, args.input[0]) && IsDir(fs, args.outdir) &&
        MethodPathAccepted(args.methodPath, fs) && !IsSpeciesValid(args.species))
    ensures v == Proceed <==>
      args.command.Run? && IsFile(fs, args.input[0]) && IsDir(fs, args.outdir) &&
      MethodPathAccepted(args.methodPath, fs) && IsSpeciesValid(args.species)
  {
    if args.command.ListSp? then ListSpecies
    else if !Exists(fs, args.input[0]) then Exit(InputMissing(args.input[0]))
    else if !IsFile(fs, args.input[0]) then Exit(InputNotFile(args.input[0]))
    else if !Exists(fs, args.outdir) then Exit(OutdirMissing(args.outdir))
    else if !IsDir(fs, args.outdir) then Exit(OutdirNotDirectory(args.outdir))
    else if Given(args.methodPath) && !Exists(fs, args.methodPath.value) then
      Exit(MethodPathMissing(args.methodPath.value))
    else if Given(args.methodPath) && !IsFile(fs, args.methodPath.value) then
      Exit(MethodPathNotFile(args.methodPath.value))
    else if !IsSpeciesValid(args.species) then Exit(InvalidSpecies(args.species))
    else Proceed
  }

  /**
   * `run_mlstyper_single_fasta`: read the one record of the first input
   * path, run the typer with `infile` as given (it is not re-pointed),
   * extract the sequence type; only then truncate `results.csv`, write the
   * header and the row, and empty the scratch folder.
   */
  method RunMlstyperSingleFasta(cfg: InputMlstyper, fs: FileSystem, typer: Typer, disk: Disk)
    returns (outcome: Outcome)
    requires cfg.infile.PathList? && |cfg.infile.paths| > 0
    modifies cfg`infile, disk
    ensures cfg.infile == old(cfg.infile)
    ensures var path := old(cfg.infile).paths[0];
      var r := SingleRun(fs, path, typer, Tool);
      && outcome == (if r.Ok? then Completed else Aborted(r.error))
      && disk.results == (if r.Ok? then [Header(IdSequenceType), r.value] else old(disk.results))
      && disk.scratch == (if r.Ok? then {}
                          else if TyperInvoked(fs, path) then old(disk.scratch) + {DataJson}
                          else old(disk.scratch))
  {
    var path := cfg.infile.paths[0];
    if !IsFile(fs, path) {
      return Aborted(CannotOpen(path));
    }
    var records := fs[path].records;
    if |records| != 1 {
      return Aborted(NotOneRecord(path));
    }
    var recordId := records[0].id;
    var st := MlstRunner.TypeAndExtract(cfg, cfg.infile, records[0], Tool, typer, disk);
    if st.Err? {
      return Aborted(ExtractFailed(st.error));
    }
    disk.results := [];
    disk.results := disk.results + [Header(IdSequenceType), Row(recordId, st.value)];
    disk.scratch := {};
    outcome := Completed;
  }

  /**
   * `run_mlstyper_multiple_fasta`: open `results.csv` for APPENDING and
   * write the header after whatever it already holds, parse the first
   * input path, then type each record in order exactly as the directory-free
   * loop of `mlst_runner` does. An unreadable input stops after the header.
   */
  method RunMlstyperMultipleFasta(cfg: InputMlstyper, fs: FileSystem, typer: Typer, disk: Disk)
    returns (outcome: Outcome)
    requires cfg.infile.PathList? && |cfg.infile.paths| > 0
    modifies cfg`infile, disk
    ensures var path := old(cfg.infile).paths[0];
      !IsFile(fs, path) ==>
        && outcome == Aborted(CannotOpen(path))
        && disk.results == old(disk.results) + [Header(IdSequenceType)]
        && disk.scratch == old(disk.scratch)
        && cfg.infile == old(cfg.infile)
    ensures var path := old(cfg.infile).paths[0];
      IsFile(fs, path) ==>
        var b := RunBatch(fs[path].records, RecordSteps(typer, Tool));
        && outcome == b.outcome
        && disk.results == old(disk.results) + [Header(IdSequenceType)] + b.rows
        && (outcome.Aborted? ==> outcome.error.ExtractFailed?)
        && (|b.rows| > 0 || outcome.Aborted? ==> cfg.infile == PathList([Join(cfg.tmpDir, SequenceFasta)]))
        && (|b.rows| == 0 && outcome.Completed? ==> cfg.infile == old(cfg.infile) && disk.scratch == old(disk.scratch))
        && (|b.rows| > 0 && outcome.Completed? ==> disk.scratch == {})
        && (outcome.Aborted? ==>
              disk.scratch == (if |b.rows| > 0 then {} else old(disk.scratch)) + {SequenceFasta, DataJson})
  {
    var pathInfile := cfg.infile.paths[0];
    disk.results := disk.results + [Header(IdSequenceType)];
    if !IsFile(fs, pathInfile) {
      outcome := Aborted(CannotOpen(pathInfile));
      return;
    }
    outcome := MlstRunner.TypeEachRecord(cfg, fs[pathInfile].records, Tool, typer, disk);
  }

  /**
   * `get_sequence_types`: check the arguments (a refusal touches nothing on
   * disk), build the typer's inputs with all the input paths, and run the
   * single runner when the first path has fewer than two header lines, the
   * multi-record runner otherwise.
   */
  method GetSequenceTypes(args: Args, fs: FileSystem, database: string, tmpDir: string, typer: Typer, disk: Disk)
    returns (status: Status)
    requires args.command.Run? ==> |args.input| > 0
    modifies disk
    ensures var v := CheckCommandLineArguments(args, fs);
      !v.Proceed? ==>
        status == Refusal(v) && disk.results == old(disk.results) && disk.scratch == old(disk.scratch)
    ensures var v := CheckCommandLineArguments(args, fs);
      v.Proceed? && SingleFasta(fs[args.input[0]].lines) ==>
        var r := SingleRun(fs, args.input[0], typer, Tool);
        && status == (if r.Ok? then Done else Crashed(r.error))
        && disk.results == (if r.Ok? then [Header(IdSequenceType), r.value] else old(disk.results))
        && disk.scratch == (if r.Ok? then {}
                            else if TyperInvoked(fs, args.input[0]) then old(disk.scratch) + {DataJson}
                            else old(disk.scratch))
    ensures var v := CheckCommandLineArguments(args, fs);
      v.Proceed? && !SingleFasta(fs[args.input[0]].lines) ==>
        var b := RunBatch(fs[args.input[0]].records, RecordSteps(typer, Tool));
        && status == Finish(b.outcome) && disk.results == old(disk.results) + [Header(IdSequenceType)] + b.rows
        && var before := if |b.rows| > 0 then {} else old(disk.scratch);
           disk.scratch == if b.outcome.Aborted? then before + {SequenceFasta, DataJson} else before
  {
    var verdict := CheckCommandLineArguments(args, fs);
    if !verdict.Proceed? {
      return Refusal(verdict);
    }
    var infile := args.input[0];
    var inputMlstyper := new InputMlstyper(
      PathList(args.input), args.species, database, tmpDir, args.methodPath,
      outdirMlstyper := tmpDir, extentedOutput := false, quiet := true);
    var single := IsSingleFastaFile(fs[infile].lines);
    var outcome;
    if single {
      outcome := RunMlstyperSingleFasta(inputMlstyper, fs, typer, disk);
    } else {
      outcome := RunMlstyperMultipleFasta(inputMlstyper, fs, typer, disk);
    }
    status := Finish(outcome);
  }

  /**
   * Running a multi-record invocation twice does not give the report of one
   * run: the second run appends a second header and the same rows again.
   */
  method RerunAppendsAgain(args: Args, fs: FileSystem, database: string, tmpDir: string, typer: Typer, disk: Disk)
    returns (first: seq<CsvLine>)
    requires args.command.Run? ==> |args.input| > 0
    requires CheckCommandLineArguments(args, fs) == Proceed && !SingleFasta(fs[args.input[0]].lines)
    modifies disk
    ensures var b := RunBatch(fs[args.input[0]].records, RecordSteps(typer, Tool));
      && first == old(disk.results) + [Header(IdSequenceType)] + b.rows
      && disk.results == first + [Header(IdSequenceType)] + b.rows
  {
    var status := GetSequenceTypes(args, fs, database, tmpDir, typer, disk);
    first := disk.results;
    status := GetSequenceTypes(args, fs, database, tmpDir, typer, disk);
  }
}
