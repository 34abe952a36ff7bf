/**
 * `labscripts.mlst.mlst_runner`: classify the input (a single-record FASTA
 * file, a multi-record file, or a directory of FASTA files), check the
 * arguments, and run the typer over every record, writing `results.csv`.
 */
module MlstRunner {
  import opened Wrappers
  import opened Text
  import opened JsonTree
  import opened Fasta
  import opened Batch
  import opened Cli
  import opened MlstUtils

  /** The top-level key of this typer's `data.json`. */
  const Tool: string := "mlst_cge"

  /** The recognised FASTA extensions, compared case-sensitively. */
  const FastaExtensions: seq<string> := ["fasta", "fna", "ffn", "faa", "frn", "fa"]

  /** `has_fasta_extension`: the text after the last `.` (the whole name when there is none) is a FASTA extension. */
  function HasFastaExtension(fileName: string): bool {
    LastField(fileName, '.') in FastaExtensions
  }

  /** No recognised extension holds a `.`. */
  lemma ExtensionsHaveNoDot()
    ensures forall ext :: ext in FastaExtensions ==> '.' !in ext
  {
  }

  /** A name without a `.` ends with no `.`-prefixed suffix. */
  lemma UndottedNameHasNoSuffix(fileName: string, ext: string)
    requires '.' !in fileName
    ensures !EndsWith(fileName, "." + ext)
  {
    if |ext| + 1 <= |fileName| {
      assert fileName[|fileName| - |ext| - 1] in fileName;
    }
  }

  /** In a name with a `.`, the `.`-free suffixes that follow a `.` are exactly its last field. */
  lemma DottedNameSuffix(fileName: string, ext: string)
    requires '.' in fileName && '.' !in ext
    ensures EndsWith(fileName, "." + ext) <==> LastField(fileName, '.') == ext
  {
    var r := LastField(fileName, '.');
    LastFieldSuffix(fileName, '.');
    if EndsWith(fileName, "." + ext) {
      LastFieldUnique(fileName, '.', ext);
    }
  }

  /**
   * A name has a FASTA extension exactly when it is an extension itself or
   * ends with `.` followed by one.
   */
  lemma HasFastaExtensionBySuffix(fileName: string)
    ensures HasFastaExtension(fileName) <==>
      exists ext :: ext in FastaExtensions && (fileName == ext || EndsWith(fileName, "." + ext))
  {
    var r := LastField(fileName, '.');
    ExtensionsHaveNoDot();
    if '.' in fileName {
      forall ext | ext in FastaExtensions
        ensures fileName != ext && (EndsWith(fileName, "." + ext) <==> r == ext)
      {
        DottedNameSuffix(fileName, ext);
      }
    } else {
      LastFieldSuffix(fileName, '.');
      forall ext | ext in FastaExtensions
        ensures !EndsWith(fileName, "." + ext)
      {
        UndottedNameHasNoSuffix(fileName, ext);
      }
    }
  }

  /** Names ending in a listed extension are accepted, and so is a bare extension. */
  lemma AcceptedExtensionExamples()
    ensures HasFastaExtension("genome.fasta") && HasFastaExtension("contigs.fa")
    ensures HasFastaExtension("fna")
  {
    LastFieldUnique("genome.fasta", '.', "fasta");
    LastFieldUnique("contigs.fa", '.', "fa");
    LastFieldSuffix("fna", '.');
  }

  /**
   * Near misses are refused: the comparison is case-sensitive, and only the
   * last field counts, so a compressed FASTA file is not accepted.
   */
  lemma NearMissExtensionsRejected()
    ensures !HasFastaExtension("genome.FASTA")
    ensures !HasFastaExtension("genome.fasta.gz")
  {
    assert '.' !in "FASTA" && '.' !in "gz";
    LastFieldUnique("genome.FASTA", '.', "FASTA");
    LastFieldUnique("genome.fasta.gz", '.', "gz");
  }

  /**
   * `mk_list_fasta_files`: the listing entries with a FASTA extension, each
   * joined to the directory, in listing order.
   */
  function MkListFastaFiles(directory: string, docs: seq<string>): seq<string>
    decreases |docs|
  {
    if docs == [] then []
    else (if HasFastaExtension(docs[0]) then [Join(directory, docs[0])] else []) + MkListFastaFiles(directory, docs[1..])
  }

  /** The list holds exactly the joined FASTA entries, and no more paths than the listing has entries. */
  lemma {:induction false} MkListFastaFilesMembers(directory: string, docs: seq<string>)
    ensures |MkListFastaFiles(directory, docs)| <= |docs|
    ensures forall p :: p in MkListFastaFiles(directory, docs) <==>
      exists doc :: doc in docs && HasFastaExtension(doc) && p == Join(directory, doc)
    decreases |docs|
  {
    if docs != [] {
      MkListFastaFilesMembers(directory, docs[1..]);
      assert forall doc :: doc in docs <==> doc == docs[0] || doc in docs[1..];
    }
  }

  /** The listing is filtered piece by piece: nothing is reordered, added or dropped. */
  lemma {:induction false} MkListFastaFilesAppend(directory: string, a: seq<string>, b: seq<string>)
    ensures MkListFastaFiles(directory, a + b) == MkListFastaFiles(directory, a) + MkListFastaFiles(directory, b)
    decreases |a|
  {
    if a == [] {
      assert a + b == b;
    } else {
      var head := if HasFastaExtension(a[0]) then [Join(directory, a[0])] else [];
      assert (a + b)[0] == a[0] && (a + b)[1..] == a[1..] + b;
      calc {
        MkListFastaFiles(directory, a + b);
        head + MkListFastaFiles(directory, a[1..] + b);
        { MkListFastaFilesAppend(directory, a[1..], b); }
        head + (MkListFastaFiles(directory, a[1..]) + MkListFastaFiles(directory, b));
        MkListFastaFiles(directory, a) + MkListFastaFiles(directory, b);
      }
    }
  }

  /** `list_has_fasta_files`: a search over the paths that stops at the first one with a FASTA extension. */
  function ListHasFastaFiles(filesList: seq<string>): bool
    decreases |filesList|
  {
    if filesList == [] then false
    else if HasFastaExtension(filesList[0]) then true
    else ListHasFastaFiles(filesList[1..])
  }

  /** The search succeeds exactly when some path has a FASTA extension. */
  lemma {:induction false} ListHasFastaFilesFinds(filesList: seq<string>)
    ensures ListHasFastaFiles(filesList) <==> exists i :: 0 <= i < |filesList| && HasFastaExtension(filesList[i])
    decreases |filesList|
  {
    if filesList != [] && !HasFastaExtension(filesList[0]) {
      ListHasFastaFilesFinds(filesList[1..]);
      assert forall i :: 1 <= i < |filesList| ==> filesList[i] == filesList[1..][i - 1];
    }
  }

  /**
   * The last field of a joined path: the entry's own extension when the
   * entry holds a `.`; otherwise a field that runs back over the `/`. This
   * is the join as modelled; `pathlib` instead drops a `.` directory.
   */
  lemma LastFieldOfJoin(directory: string, doc: string)
    ensures '.' in doc ==> LastField(Join(directory, doc), '.') == LastField(doc, '.')
    ensures '.' !in doc ==> '/' in LastField(Join(directory, doc), '.')
  {
    var joined := Join(directory, doc);
    var slash := |directory|;
    assert joined[slash] == '/';
    assert joined[slash + 1..] == doc;
    if '.' in doc {
      LastFieldSuffix(doc, '.');
      var r := LastField(doc, '.');
      assert joined[|joined| - |r| - 1..] == doc[|doc| - |r| - 1..];
      LastFieldUnique(joined, '.', r);
    } else {
      LastFieldSuffix(joined, '.');
      var r := LastField(joined, '.');
      if '.' in joined {
        var q := |joined| - |r| - 1;
        assert joined[q] == '.';
        assert q < slash;
      }
      assert r[|r| - |doc| - 1] == joined[slash];
    }
  }

  /**
   * The directory check as written: `list_has_fasta_files` judges the joined
   * paths, so it finds a FASTA file exactly when some entry has a FASTA
   * extension AND holds a `.`. With a directory other than `.` (which
   * `pathlib` drops when joining), an entry named just `fasta` is listed by
   * `mk_list_fasta_files` but does not satisfy the check.
   */
  lemma DirectoryCheck(directory: string, docs: seq<string>)
    ensures ListHasFastaFiles(MkListFastaFiles(directory, docs)) <==>
      exists doc :: doc in docs && '.' in doc && HasFastaExtension(doc)
  {
    var fastas := MkListFastaFiles(directory, docs);
    MkListFastaFilesMembers(directory, docs);
    ListHasFastaFilesFinds(fastas);
    forall doc | doc in docs
      ensures HasFastaExtension(Join(directory, doc)) <==> '.' in doc && HasFastaExtension(doc)
    {
      LastFieldOfJoin(directory, doc);
      assert forall ext :: ext in FastaExtensions ==> '/' !in ext;
    }
    if ListHasFastaFiles(fastas) {
      var i :| 0 <= i < |fastas| && HasFastaExtension(fastas[i]);
      assert fastas[i] in fastas;
    }
    if exists doc :: doc in docs && '.' in doc && HasFastaExtension(doc) {
      var doc :| doc in docs && '.' in doc && HasFastaExtension(doc);
      var p := Join(directory, doc);
      assert p in fastas;
      var i :| 0 <= i < |fastas| && fastas[i] == p;
    }
  }

  /** The subcommand: `run`, or `list_sp` to print the catalog. */
  datatype Command = Run | ListSp

  /** The parsed command line. */
  datatype Args = Args(command: Command, input: string, species: string, outdir: string, methodPath: Option<string>)

  /** The input exists, and is a FASTA file or a directory the FASTA check accepts. */
  predicate InputAccepted(args: Args, fs: FileSystem) {
    && Exists(fs, args.input)
    && (IsFile(fs, args.input) ==> HasFastaExtension(args.input))
    && (IsDir(fs, args.input) ==> ListHasFastaFiles(MkListFastaFiles(args.input, fs[args.input].entries)))
  }

  /** The method path, when given, is a file. */
  predicate MethodPathAccepted(args: Args, fs: FileSystem) {
    Given(args.methodPath) ==> IsFile(fs, args.methodPath.value)
  }

  /**
   * `check_command_line_arguments`: `list_sp` exits first; then the checks
   * run in a fixed order and the first one that fails decides the exit:
   * input missing, input a non-FASTA file, input a directory without FASTA
   * files, output directory missing or not a directory, method path missing
   * or not a file, species not in the catalog.
   */
  function CheckCommandLineArguments(args: Args, fs: FileSystem): (v: Verdict)
    ensures v == ListSpecies <==> args.command.ListSp?
    ensures v == Exit(InputMissing(args.input)) <==> args.command.Run? && !Exists(fs, args.input)
    ensures v == Exit(NotFastaFile(args.input)) <==>
      args.command.Run? && IsFile(fs, args.input) && !HasFastaExtension(args.input)
    ensures v == Exit(NoFastaFiles(args.input)) <==>
      args.command.Run? && IsDir(fs, args.input) &&
      !ListHasFastaFiles(MkListFastaFiles(args.input, fs[args.input].entries))
    ensures v == Exit(OutdirMissing(args.outdir)) <==>
      args.command.Run? && InputAccepted(args, fs) && !Exists(fs, args.outdir)
    ensures v == Exit(OutdirNotDirectory(args.outdir)) <==>
      args.command.Run? && InputAccepted(args, fs) && Exists(fs, args.outdir) && !IsDir(fs, args.outdir)
    ensures Given(args.methodPath) ==> (v == Exit(MethodPathMissing(args.methodPath.value)) <==>
      args.command.Run? && InputAccepted(args, fs) && IsDir(fs, args.outdir) &&
      !Exists(fs, args.methodPath.value))
    ensures Given(args.methodPath) ==> (v == Exit(MethodPathNotFile(args.methodPath.value)) <==>
      args.command.Run? && InputAccepted(args, fs) && IsDir(fs, args.outdir) &&
      Exists(fs, args.methodPath.value) && !IsFile(fs, args.methodPath.value))
    ensures v == Exit(InvalidSpecies(args.species)) <==>
      args.command.Run? && InputAccepted(args, fs) && IsDir(fs, args.outdir) &&
      MethodPathAccepted(args, fs) && !SpeciesOptions().IsSpeciesValid(args.species)
    ensures v == Proceed <==>
      args.command.Run? && InputAccepted(args, fs) && IsDir(fs, args.outdir) &&
      MethodPathAccepted(args, fs) && SpeciesOptions().IsSpeciesValid(args.species)
  {
    var speciesOptions := SpeciesOptions();
    if args.command.ListSp? then ListSpecies
    else if !Exists(fs, args.input) then Exit(InputMissing(args.input))
    else if IsFile(fs, args.input) && !HasFastaExtension(args.input) then Exit(NotFastaFile(args.input))
    else if IsDir(fs, args.input) && !ListHasFastaFiles(MkListFastaFiles(args.input, fs[args.input].entries)) then
      Exit(NoFastaFiles(args.input))
    else if !Exists(fs, args.outdir) then Exit(OutdirMissing(args.outdir))
    else if !IsDir(fs, args.outdir) then Exit(OutdirNotDirectory(args.outdir))
    else if Given(args.methodPath) && !Exists(fs, args.methodPath.value) then
      Exit(MethodPathMissing(args.methodPath.value))
    else if Given(args.methodPath) && !IsFile(fs, args.methodPath.value) then
      Exit(MethodPathNotFile(args.methodPath.value))
    else if !speciesOptions.IsSpeciesValid(args.species) then Exit(InvalidSpecies(args.species))
    else Proceed
  }

  /**
   * Accepted arguments leave the dispatch something to run: the input is a
   * FASTA file, or a directory listing at least one FASTA file whose name
   * holds a `.`.
   */
  lemma AcceptedInputIsDispatched(args: Args, fs: FileSystem)
    requires CheckCommandLineArguments(args, fs) == Proceed
    ensures IsFile(fs, args.input) || IsDir(fs, args.input)
    ensures IsFile(fs, args.input) ==> HasFastaExtension(args.input)
    ensures IsDir(fs, args.input) ==> |MkListFastaFiles(args.input, fs[args.input].entries)| > 0
    ensures IsDir(fs, args.input) ==>
      exists doc :: doc in fs[args.input].entries && '.' in doc && HasFastaExtension(doc)
  {
    if IsDir(fs, args.input) {
      DirectoryCheck(args.input, fs[args.input].entries);
      MkListFastaFilesMembers(args.input, fs[args.input].entries);
    }
  }

  /**
   * One iteration of the directory runner: open the file (an exception if
   * it is missing or a directory), skip it if it has two header lines,
   * otherwise read its one record, type it and extract the sequence type.
   * So a path is skipped exactly when it is a file with two header lines,
   * and a row comes only from a single-record file, with that record's id.
   */
  function ListStep(fs: FileSystem, typer: Typer, fasta: string): (s: Step)
    ensures s.Skip? <==> IsFile(fs, fasta) && !SingleFasta(fs[fasta].lines)
    ensures s.Emit? <==>
      && IsFile(fs, fasta) && SingleFasta(fs[fasta].lines) && |fs[fasta].records| == 1
      && ExtractSequenceType(typer(fs[fasta].records[0]), Tool).Ok?
    ensures s.Emit? ==>
      s.row == Row(fs[fasta].records[0].id, ExtractSequenceType(typer(fs[fasta].records[0]), Tool).value)
    ensures s.Fail? <==> !IsFile(fs, fasta) || (SingleFasta(fs[fasta].lines) && SingleRun(fs, fasta, typer, Tool).Err?)
  {
    if !IsFile(fs, fasta) then Fail(CannotOpen(fasta))
    else if !SingleFasta(fs[fasta].lines) then Skip
    else match SingleRun(fs, fasta, typer, Tool)
      case Ok(row) => Emit(row)
      case Err(e) => Fail(e)
  }

  /** The loop body of the directory runner, for one run. */
  function ListSteps(fs: FileSystem, typer: Typer): string -> Step {
    fasta => ListStep(fs, typer, fasta)
  }

  /** The typer was pointed at one single-record FASTA file. */
  predicate PointsAtSingleRecordFile(fs: FileSystem, infile: Infile) {
    && infile.PathList? && |infile.paths| == 1
    && IsFile(fs, infile.paths[0])
    && SingleFasta(fs[infile.paths[0]].lines)
    && |fs[infile.paths[0]].records| == 1
  }

  /**
   * One typer invocation: point `infile` at `infile`, run the typer (which
   * writes `data.json` into the scratch folder) and read the sequence type
   * back from the report under `tool`.
   */
  method TypeAndExtract(cfg: InputMlstyper, infile: Infile, rec: FastaRecord, tool: string, typer: Typer, disk: Disk)
    returns (st: Result<Json, LookupError>)
    modifies cfg`infile, disk`scratch
    ensures cfg.infile == infile
    ensures disk.scratch == old(disk.scratch) + {DataJson}
    ensures st == ExtractSequenceType(typer(rec), tool)
  {
    cfg.infile := infile;
    var data := typer(rec);
    disk.scratch := disk.scratch + {DataJson};
    st := ExtractSequenceType(data, tool);
  }

  /**
   * `run_mlstyper_single_fasta`: read the file's one record, re-point
   * `infile` at `[path]`, type it and extract the sequence type; only then
   * truncate `results.csv` and write the header and that one row, and empty
   * the scratch folder. An exception on the way leaves `results.csv` as it was.
   */
  method RunMlstyperSingleFasta(cfg: InputMlstyper, fs: FileSystem, typer: Typer, disk: Disk)
    returns (outcome: Outcome)
    requires cfg.infile.PathArg?
    modifies cfg`infile, disk
    ensures var path := old(cfg.infile).path;
      var r := SingleRun(fs, path, typer, Tool);
      && outcome == (if r.Ok? then Completed else Aborted(r.error))
      && disk.results == (if r.Ok? then [Header(IdSequenceType), r.value] else old(disk.results))
      && disk.scratch == (if r.Ok? then {}
                          else if TyperInvoked(fs, path) then old(disk.scratch) + {DataJson}
                          else old(disk.scratch))
      && cfg.infile == (if TyperInvoked(fs, path) then PathList([path]) else old(cfg.infile))
  {
    var path := cfg.infile.path;
    if !IsFile(fs, path) {
      return Aborted(CannotOpen(path));
    }
    var records := fs[path].records;
    if |records| != 1 {
      return Aborted(NotOneRecord(path));
    }
    var recordId := records[0].id;
    var st := TypeAndExtract(cfg, PathList([path]), records[0], Tool, typer, disk);
    if st.Err? {
      return Aborted(ExtractFailed(st.error));
    }
    disk.results := [];
    disk.results := disk.results + [Header(IdSequenceType), Row(recordId, st.value)];
    disk.scratch := {};
    outcome := Completed;
  }

  /**
   * The body of the multi-record loop: stage the record as
   * `tmp_dir/sequence.fasta`, type it, and on success append its row and
   * empty the scratch folder.
   */
  method TypeStagedRecord(cfg: InputMlstyper, staged: Infile, rec: FastaRecord, tool: string, typer: Typer, disk: Disk)
    returns (st: Result<Json, LookupError>)
    modifies cfg`infile, disk
    ensures st == ExtractSequenceType(typer(rec), tool)
    ensures cfg.infile == staged
    ensures st.Ok? ==> disk.results == old(disk.results) + [Row(rec.id, st.value)] && disk.scratch == {}
    ensures st.Err? ==> disk.results == old(disk.results) && disk.scratch == old(disk.scratch) + {SequenceFasta, DataJson}
  {
    disk.scratch := disk.scratch + {SequenceFasta};
    st := TypeAndExtract(cfg, staged, rec, tool, typer, disk);
    if st.Ok? {
      disk.results := disk.results + [Row(rec.id, st.value)];
      disk.scratch := {};
    }
  }

  /**
   * The loop shared by the multi-record runners: for each parsed record in
   * order, stage it as `tmp_dir/sequence.fasta`, re-point `infile` there,
   * type it, extract the sequence type under `tool`, append its row and
   * empty the scratch folder. An extraction failure stops the loop with the
   * rows appended so far, and the staged record and `data.json` left in the
   * scratch folder.
   */
  method TypeEachRecord(cfg: InputMlstyper, records: seq<FastaRecord>, tool: string, typer: Typer, disk: Disk)
    returns (outcome: Outcome)
    modifies cfg`infile, disk
    ensures outcome == RunBatch(records, RecordSteps(typer, tool)).outcome
    ensures disk.results == old(disk.results) + RunBatch(records, RecordSteps(typer, tool)).rows
    ensures outcome.Aborted? ==> outcome.error.ExtractFailed?
    ensures disk.results == old(disk.results) && outcome.Completed? ==>
      cfg.infile == old(cfg.infile) && disk.scratch == old(disk.scratch)
    ensures disk.results != old(disk.results) || outcome.Aborted? ==>
      cfg.infile == PathList([Join(cfg.tmpDir, SequenceFasta)])
    ensures disk.results != old(disk.results) && outcome.Completed? ==> disk.scratch == {}
    ensures outcome.Aborted? ==>
      disk.scratch == (if disk.results != old(disk.results) then {} else old(disk.scratch)) + {SequenceFasta, DataJson}
  {
    ghost var step := RecordSteps(typer, tool);
    var staged := PathList([Join(cfg.tmpDir, SequenceFasta)]);
    var i := 0;
    while i < |records|
      invariant 0 <= i <= |records|
      invariant RunBatch(records[..i], step).outcome == Completed
      invariant disk.results == old(disk.results) + RunBatch(records[..i], step).rows
      invariant i == |RunBatch(records[..i], step).rows|
      invariant i == 0 ==> disk.scratch == old(disk.scratch) && cfg.infile == old(cfg.infile)
      invariant i > 0 ==> disk.scratch == {} && cfg.infile == staged
    {
      RunBatchNext(records, i, step);
      var st := TypeStagedRecord(cfg, staged, records[i], tool, typer, disk);
      if st.Err? {
        outcome := Aborted(ExtractFailed(st.error));
        return;
      }
      i := i + 1;
    }
    assert records[..i] == records;
    outcome := Completed;
  }

  /**
   * `run_mlstyper_multiple_fasta`: truncate `results.csv` and write the
   * header, parse the input file, then type each record in order. An
   * unreadable input stops after the header.
   */
  method RunMlstyperMultipleFasta(cfg: InputMlstyper, fs: FileSystem, typer: Typer, disk: Disk)
    returns (outcome: Outcome)
    requires cfg.infile.PathArg?
    modifies cfg`infile, disk
    ensures var path := old(cfg.infile).path;
      !IsFile(fs, path) ==>
        && outcome == Aborted(CannotOpen(path))
        && disk.results == [Header(cfg.csvFieldnames)]
        && disk.scratch == old(disk.scratch)
        && cfg.infile == old(cfg.infile)
    ensures var path := old(cfg.infile).path;
      IsFile(fs, path) ==>
        var b := RunBatch(fs[path].records, RecordSteps(typer, Tool));
        && outcome == b.outcome
        && disk.results == [Header(cfg.csvFieldnames)] + b.rows
        && (outcome.Aborted? ==> outcome.error.ExtractFailed?)
        && (var typedAny := |b.rows| > 0 || outcome.Aborted?;
            && cfg.infile == (if typedAny then PathList([Join(cfg.tmpDir, SequenceFasta)]) else old(cfg.infile))
            && var before := if |b.rows| > 0 then {} else old(disk.scratch);
               disk.scratch == if outcome.Aborted? then before + {SequenceFasta, DataJson} else before)
  {
    var pathInfile := cfg.infile.path;
    disk.results := [];
    disk.results := disk.results + [Header(cfg.csvFieldnames)];
    if !IsFile(fs, pathInfile) {
      outcome := Aborted(CannotOpen(pathInfile));
      return;
    }
    outcome := TypeEachRecord(cfg, fs[pathInfile].records, Tool, typer, disk);
  }

  /**
   * The body of the directory runner's loop for one listed path: open it
   * (an exception if it is not a file), skip it if it holds two header
   * lines, otherwise read its one record, point `infile` at the file, type
   * it, extract the sequence type, append its row and empty the scratch
   * folder.
   */
  method TypeListedFile(cfg: InputMlstyper, fs: FileSystem, fasta: string, typer: Typer, disk: Disk)
    returns (s: Step)
    modifies cfg`infile, disk
    ensures s == ListStep(fs, typer, fasta)
    ensures s.Emit? ==>
      && disk.results == old(disk.results) + [s.row] && disk.scratch == {}
      && cfg.infile == PathList([fasta]) && PointsAtSingleRecordFile(fs, cfg.infile)
    ensures s.Fail? && s.error.ExtractFailed? ==>
      && disk.results == old(disk.results) && disk.scratch == old(disk.scratch) + {DataJson}
      && cfg.infile == PathList([fasta]) && PointsAtSingleRecordFile(fs, cfg.infile)
    ensures s.Skip? || (s.Fail? && !s.error.ExtractFailed?) ==>
      disk.results == old(disk.results) && disk.scratch == old(disk.scratch) && cfg.infile == old(cfg.infile)
  {
    if !IsFile(fs, fasta) {
      return Fail(CannotOpen(fasta));
    }
    var single := IsSingleFastaFile(fs[fasta].lines);
    if !single {
      return Skip;
    }
    var records := fs[fasta].records;
    if |records| != 1 {
      return Fail(NotOneRecord(fasta));
    }
    var recordId := records[0].id;
    var st := TypeAndExtract(cfg, PathList([fasta]), records[0], Tool, typer, disk);
    if st.Err? {
      return Fail(ExtractFailed(st.error));
    }
    s := Emit(Row(recordId, st.value));
    disk.results := disk.results + [s.row];
    disk.scratch := {};
  }

  /**
   * The loop of the directory runner: for each listed FASTA file in order,
   * open it, skip it if it holds two header lines, otherwise re-point
   * `infile` at it, type its one record, append its row and empty the
   * scratch folder. Until a file has been typed, `infile` and the scratch
   * folder are as they were; after that, `infile` names a single-record
   * file and the scratch folder is empty at the top of every iteration.
   */
  method TypeEachFile(cfg: InputMlstyper, fs: FileSystem, fastas: seq<string>, typer: Typer, disk: Disk)
    returns (outcome: Outcome)
    modifies cfg`infile, disk
    ensures outcome == RunBatch(fastas, ListSteps(fs, typer)).outcome
    ensures disk.results == old(disk.results) + RunBatch(fastas, ListSteps(fs, typer)).rows
    ensures disk.results == old(disk.results) && !(outcome.Aborted? && outcome.error.ExtractFailed?) ==>
      cfg.infile == old(cfg.infile) && disk.scratch == old(disk.scratch)
    ensures disk.results != old(disk.results) || (outcome.Aborted? && outcome.error.ExtractFailed?) ==>
      PointsAtSingleRecordFile(fs, cfg.infile)
    ensures disk.results != old(disk.results) && !(outcome.Aborted? && outcome.error.ExtractFailed?) ==>
      disk.scratch == {}
    ensures outcome.Aborted? && outcome.error.ExtractFailed? ==>
      disk.scratch == (if disk.results != old(disk.results) then {} else old(disk.scratch)) + {DataJson}
  {
    ghost var step := ListSteps(fs, typer);
    var i := 0;
    while i < |fastas|
      invariant 0 <= i <= |fastas|
      invariant RunBatch(fastas[..i], step).outcome == Completed
      invariant disk.results == old(disk.results) + RunBatch(fastas[..i], step).rows
      invariant disk.results == old(disk.results) ==>
        disk.scratch == old(disk.scratch) && cfg.infile == old(cfg.infile)
      invariant disk.results != old(disk.results) ==>
        disk.scratch == {} && PointsAtSingleRecordFile(fs, cfg.infile)
    {
      RunBatchNext(fastas, i, step);
      var s := TypeListedFile(cfg, fs, fastas[i], typer, disk);
      if s.Fail? {
        outcome := Aborted(s.error);
        return;
      }
      i := i + 1;
    }
    assert fastas[..i] == fastas;
    outcome := Completed;
  }

  /**
   * `run_mlstyper_list_fasta`: truncate `results.csv` and write the header,
   * list the directory (an exception if it cannot be listed), then type
   * each FASTA file of the listing in listing order.
   */
  method RunMlstyperListFasta(cfg: InputMlstyper, fs: FileSystem, typer: Typer, disk: Disk)
    returns (outcome: Outcome)
    requires cfg.infile.PathArg?
    modifies cfg`infile, disk
    ensures var dir := old(cfg.infile).path;
      !IsDir(fs, dir) ==>
        && outcome == Aborted(CannotList(dir))
        && disk.results == [Header(cfg.csvFieldnames)]
        && disk.scratch == old(disk.scratch)
        && cfg.infile == old(cfg.infile)
    ensures var dir := old(cfg.infile).path;
      IsDir(fs, dir) ==>
        var b := RunBatch(MkListFastaFiles(dir, fs[dir].entries), ListSteps(fs, typer));
        && outcome == b.outcome
        && disk.results == [Header(cfg.csvFieldnames)] + b.rows
        && (var typedAny := |b.rows| > 0 || (outcome.Aborted? && outcome.error.ExtractFailed?);
            && (!typedAny ==> cfg.infile == old(cfg.infile))
            && (typedAny ==> PointsAtSingleRecordFile(fs, cfg.infile))
            && var before := if |b.rows| > 0 then {} else old(disk.scratch);
               disk.scratch == if outcome.Aborted? && outcome.error.ExtractFailed? then before + {DataJson} else before)
  {
    var pathDir := cfg.infile.path;
    disk.results := [];
    disk.results := disk.results + [Header(cfg.csvFieldnames)];
    if !IsDir(fs, pathDir) {
      outcome := Aborted(CannotList(pathDir));
      return;
    }
    var fastas := MkListFastaFiles(pathDir, fs[pathDir].entries);
    outcome := TypeEachFile(cfg, fs, fastas, typer, disk);
  }

  /**
   * `get_sequence_types`: check the arguments (a refusal touches nothing on
   * disk), build the typer's inputs, and run exactly one runner: the single
   * runner for a file with fewer than two header lines, the multi-record
   * runner for any other file, the directory runner for a directory.
   */
  method GetSequenceTypes(args: Args, fs: FileSystem, database: string, tmpDir: string, typer: Typer, disk: Disk)
    returns (status: Status)
    modifies disk
    ensures var v := CheckCommandLineArguments(args, fs);
      !v.Proceed? ==>
        status == Refusal(v) && disk.results == old(disk.results) && disk.scratch == old(disk.scratch)
    ensures var v := CheckCommandLineArguments(args, fs);
      v.Proceed? && IsFile(fs, args.input) && SingleFasta(fs[args.input].lines) ==>
        var r := SingleRun(fs, args.input, typer, Tool);
        && status == (if r.Ok? then Done else Crashed(r.error))
        && disk.results == (if r.Ok? then [Header(IdSequenceType), r.value] else old(disk.results))
        && disk.scratch == (if r.Ok? then {}
                            else if TyperInvoked(fs, args.input) then old(disk.scratch) + {DataJson}
                            else old(disk.scratch))
    ensures var v := CheckCommandLineArguments(args, fs);
      v.Proceed? && IsFile(fs, args.input) && !SingleFasta(fs[args.input].lines) ==>
        var b := RunBatch(fs[args.input].records, RecordSteps(typer, Tool));
        && status == Finish(b.outcome) && disk.results == [Header(IdSequenceType)] + b.rows
        && var before := if |b.rows| > 0 then {} else old(disk.scratch);
           disk.scratch == if b.outcome.Aborted? then before + {SequenceFasta, DataJson} else before
    ensures var v := CheckCommandLineArguments(args, fs);
      v.Proceed? && IsDir(fs, args.input) ==>
        var b := RunBatch(MkListFastaFiles(args.input, fs[args.input].entries), ListSteps(fs, typer));
        && status == Finish(b.outcome) && disk.results == [Header(IdSequenceType)] + b.rows
        && var before := if |b.rows| > 0 then {} else old(disk.scratch);
           disk.scratch == if b.outcome.Aborted? && b.outcome.error.ExtractFailed? then before + {DataJson} else before
  {
    var verdict := CheckCommandLineArguments(args, fs);
    if !verdict.Proceed? {
      return Refusal(verdict);
    }
    var inputMlstyper := new InputMlstyper(
      PathArg(args.input), args.species, database, tmpDir, args.methodPath,
      outdirMlstyper := tmpDir, outdirMlstRunner := args.outdir, extentedOutput := false, quiet := true);
    var outcome := Completed;
    if IsFile(fs, args.input) {
      var single := IsSingleFastaFile(fs[args.input].lines);
      if single {
        outcome := RunMlstyperSingleFasta(inputMlstyper, fs, typer, disk);
      } else {
        outcome := RunMlstyperMultipleFasta(inputMlstyper, fs, typer, disk);
      }
    } else if IsDir(fs, args.input) {
      outcome := RunMlstyperListFasta(inputMlstyper, fs, typer, disk);
    }
    status := Finish(outcome);
  }

  /**
   * Running the same invocation twice leaves the same `results.csv` as
   * running it once: every runner rewrites the report from its header, and
   * a run that stops before writing leaves it as the first run did.
   */
  method RerunLeavesSameReport(args: Args, fs: FileSystem, database: string, tmpDir: string, typer: Typer, disk: Disk)
    returns (first: seq<CsvLine>)
    modifies disk
    ensures first != old(disk.results) ==> |first| > 0 && first[0] == Header(IdSequenceType)
    ensures disk.results == first
  {
    var status := GetSequenceTypes(args, fs, database, tmpDir, typer, disk);
    first := disk.results;
    status := GetSequenceTypes(args, fs, database, tmpDir, typer, disk);
  }
}
