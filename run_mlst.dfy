/**
 * `labscripts.run_mlst.run_mlst`: the entry point without subcommands:
 * species checked against a flat list of codes by exact membership, and the
 * same two runners as `seqtyper` under the typer key `mlst`.
 */
module RunMlst {
  import opened Wrappers
  import opened Fasta
  import opened Batch
  import opened Cli
  import opened MlstUtils
  import Seqtyper

  /** An excerpt of the flat list of accepted species codes. */
  const SpeciesCodes: seq<string> := [
    "abaumannii", "abaumannii_2", "achromobacter", "ecoli", "ecoli_2",
    "saureus", "senterica", "vcholerae", "vcholerae_2", "yruckeri"
  ]

  /** The parsed command line: at least one input path. */
  datatype Args = Args(input: seq<string>, species: string, outdir: string, methodPath: Option<string>)

  /**
   * `check_command_line_arguments`: in order, the first input path must
   * exist and be a file, the output directory must exist and be a
   * directory, the method path (when given) must exist and be a file, and
   * the species must be one of the listed codes, compared whole.
   */
  function CheckCommandLineArguments(args: Args, fs: FileSystem): (v: Verdict)
    requires |args.input| > 0
    ensures v != ListSpecies
    ensures v == Exit(InputMissing(args.input[0])) <==> !Exists(fs, args.input[0])
    ensures v == Exit(InputNotFile(args.input[0])) <==> Exists(fs, args.input[0]) && !IsFile(fs, args.input[0])
    ensures v == Exit(OutdirMissing(args.outdir)) <==> IsFile(fs, args.input[0]) && !Exists(fs, args.outdir)
    ensures v == Exit(OutdirNotDirectory(args.outdir)) <==>
      IsFile(fs, args.input[0]) && Exists(fs, args.outdir) && !IsDir(fs, args.outdir)
    ensures Given(args.methodPath) ==>
      (v == Exit(MethodPathMissing(args.methodPath.value)) <==>
        IsFile(fs, args.input[0]) && IsDir(fs, args.outdir) && !Exists(fs, args.methodPath.value))
    ensures Given(args.methodPath) ==>
      (v == Exit(MethodPathNotFile(args.methodPath.value)) <==>
        IsFile(fs, args.input[0]) && IsDir(fs, args.outdir) &&
        Exists(fs, args.methodPath.value) && !IsFile(fs, args.methodPath.value))
    ensures v == Exit(InvalidSpecies(args.species)) <==>
      IsFile(fs, args.input[0]) && IsDir(fs, args.outdir) &&
      Seqtyper.MethodPathAccepted(args.methodPath, fs) && args.species !in SpeciesCodes
    ensures v == Proceed <==>
      IsFile(fs, args.input[0]) && IsDir(fs, args.outdir) &&
      Seqtyper.MethodPathAccepted(args.methodPath, fs) && args.species in SpeciesCodes
  {
    if !Exists(fs, args.input[0]) then Exit(InputMissing(args.input[0]))
    else if !IsFile(fs, args.input[0]) then Exit(InputNotFile(args.input[0]))
    else if !Exists(fs, args.outdir) then Exit(OutdirMissing(args.outdir))
    else if !IsDir(fs, args.outdir) then Exit(OutdirNotDirectory(args.outdir))
    else if Given(args.methodPath) && !Exists(fs, args.methodPath.value) then
      Exit(MethodPathMissing(args.methodPath.value))
    else if Given(args.methodPath) && !IsFile(fs, args.methodPath.value) then
      Exit(MethodPathNotFile(args.methodPath.value))
    else if args.species !in SpeciesCodes then Exit(InvalidSpecies(args.species))
    else Proceed
  }

  /**
   * Exact membership refuses what the catalog's substring check lets
   * through: a fragment of a code, two codes run together, the empty string.
   */
  lemma ExactMembershipRefusesFragments()
    ensures "coli" !in SpeciesCodes && SpeciesOptions().IsSpeciesValid("coli")
    ensures "ecoli, ecoli" !in SpeciesCodes && SpeciesOptions().IsSpeciesValid("ecoli, ecoli")
    ensures "" !in SpeciesCodes && SpeciesOptions().IsSpeciesValid("")
  {
    CatalogAcceptsNonCodes();
  }

  /**
   * `main`: check the arguments (a refusal touches nothing on disk), build
   * the typer's inputs with all the input paths, and run the single runner
   * when the first path has fewer than two header lines, the multi-record
   * runner otherwise. The runners are those of `seqtyper`: the code is the
   * same but for `rm` in place of `rm -rf` when the scratch folder is emptied.
   */
  method RunMain(args: Args, fs: FileSystem, database: string, tmpDir: string, typer: Typer, disk: Disk)
    returns (status: Status)
    requires |args.input| > 0
    modifies disk
    ensures var v := CheckCommandLineArguments(args, fs);
      !v.Proceed? ==>
        status == Refusal(v) && disk.results == old(disk.results) && disk.scratch == old(disk.scratch)
    ensures var v := CheckCommandLineArguments(args, fs);
      v.Proceed? && SingleFasta(fs[args.input[0]].lines) ==>
        var r := SingleRun(fs, args.input[0], typer, Seqtyper.Tool);
        && status == (if r.Ok? then Done else Crashed(r.error))
        && disk.results == (if r.Ok? then [Header(IdSequenceType), r.value] else old(disk.results))
        && disk.scratch == (if r.Ok? then {}
                            else if TyperInvoked(fs, args.input[0]) then old(disk.scratch) + {DataJson}
                            else old(disk.scratch))
    ensures var v := CheckCommandLineArguments(args, fs);
      v.Proceed? && !SingleFasta(fs[args.input[0]].lines) ==>
        var b := RunBatch(fs[args.input[0]].records, RecordSteps(typer, Seqtyper.Tool));
        && status == Finish(b.outcome) && disk.results == old(disk.results) + [Header(IdSequenceType)] + b.rows
        && var before := if |b.rows| > 0 then {} else old(disk.scratch);
           disk.scratch == if b.outcome.Aborted? then before + {SequenceFasta, DataJson} else before
  {
    var verdict := CheckCommandLineArguments(args, fs);
    if !verdict.Proceed? {
      return Refusal(verdict);
    }
    var infile := args.input[0];
    var inputMlstyper := new InputMlstyper(
      PathList(args.input), args.species, database, tmpDir, args.methodPath,
      outdirMlstyper := tmpDir, extentedOutput := false, quiet := true);
    var single := IsSingleFastaFile(fs[infile].lines);
    var outcome;
    if single {
      outcome := Seqtyper.RunMlstyperSingleFasta(inputMlstyper, fs, typer, disk);
    } else {
      outcome := Seqtyper.RunMlstyperMultipleFasta(inputMlstyper, fs, typer, disk);
    }
    status := Finish(outcome);
  }
}
