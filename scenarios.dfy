/**
 * Worked runs of `mlst_runner` on small concrete inputs: a two-record FASTA
 * file, a directory mixing single- and multi-record files, and an unknown
 * species code. The typer is replaced by a fixed function of the record.
 */
module MlstScenarios {
  import opened Wrappers
  import opened Text
  import opened JsonTree
  import opened Fasta
  import opened Batch
  import opened Cli
  import opened MlstUtils
  import opened MlstRunner

  /** A typer report whose sequence type is the string `st`. */
  function Report(st: string): Json {
    Nest(SequenceTypePath(Tool), JString(st))
  }

  /** The typer of the two-record example: "5" for `seqA`, "12" for any other record. */
  function PairTyper(): Typer {
    (rec: FastaRecord) => Report(if rec.id == "seqA" then "5" else "12")
  }

  /** The two records of `two_records.fasta`, in file order. */
  const PairRecords: seq<FastaRecord> := [FastaRecord("seqA", "ACGTACGT"), FastaRecord("seqB", "TTGACCA")]

  /** The raw lines of `two_records.fasta`: two header lines. */
  const PairLines: seq<string> := [">seqA", "ACGTACGT", ">seqB", "TTGACCA"]

  /** Both records of the two-record file are typed, giving `seqA,5` then `seqB,12`. */
  lemma TwoRecordRows()
    ensures RunBatch(PairRecords, RecordSteps(PairTyper(), Tool)) ==
      BatchResult([Row("seqA", JString("5")), Row("seqB", JString("12"))], Completed)
  {
    ExtractNested(Tool, JString("5"));
    ExtractNested(Tool, JString("12"));
    RecordRunRows(PairRecords, PairTyper(), Tool);
  }

  /** A file with two header lines is a multi-record file. */
  lemma TwoHeadersMultiple(lines: seq<string>, i: nat, j: nat)
    requires i < j < |lines| && IsMarked(lines[i]) && IsMarked(lines[j])
    ensures !SingleFasta(lines)
  {
    SingleFastaIffNoTwoHeaders(lines);
  }

  /** A file of one header line and one sequence line is a single-record file. */
  lemma OneHeaderIsSingle(header: string, body: string)
    requires !IsMarked(body)
    ensures SingleFasta([header, body])
  {
    SingleFastaIffNoTwoHeaders([header, body]);
  }

  /** `two_records.fasta` has two header lines. */
  lemma PairFileIsMultiple()
    ensures !SingleFasta(PairLines)
  {
    assert ">seqA"[0] == '>' && ">seqB"[0] == '>';
    TwoHeadersMultiple(PairLines, 0, 2);
  }

  /** The file system of the two-record example: the input file and the output directory. */
  function PairDisk(): FileSystem {
    map["two_records.fasta" := File(PairLines, PairRecords), "out" := Dir([])]
  }

  /** The command line `run --input two_records.fasta --species ecoli --outdir out`. */
  function PairArgs(): Args {
    Args(Run, "two_records.fasta", "ecoli", "out", None)
  }

  /** The arguments of the two-record example pass every check. */
  lemma PairArgsAccepted()
    ensures CheckCommandLineArguments(PairArgs(), PairDisk()) == Proceed
  {
    LastFieldUnique("two_records.fasta", '.', "fasta");
    CatalogAcceptsListedCodes();
  }

  /**
   * The whole invocation on the two-record file: it finishes and
   * `results.csv` holds the header and the rows `seqA,5` and `seqB,12`.
   */
  method TwoRecordReport() returns (status: Status, results: seq<CsvLine>)
    ensures status == Done
    ensures results == [Header(["id", "sequence_type"]), Row("seqA", JString("5")), Row("seqB", JString("12"))]
  {
    var disk := new Disk([], {});
    PairArgsAccepted();
    PairFileIsMultiple();
    TwoRecordRows();
    status := GetSequenceTypes(PairArgs(), PairDisk(), "mlst_db", "tmp", PairTyper(), disk);
    results := disk.results;
  }

  /** The typer of the directory example: the same sequence type for every record. */
  function ConstantTyper(): Typer {
    (rec: FastaRecord) => Report("7")
  }

  /** The directory example: `a.fasta` and `c.fa` hold one record each, `b.fasta` two. */
  function MixedDisk(): FileSystem {
    map[
      "genomes" := Dir(["a.fasta", "b.fasta", "c.fa"]),
      "genomes/a.fasta" := File([">x1", "ACGT"], [FastaRecord("x1", "ACGT")]),
      "genomes/b.fasta" := File([">y1", "AC", ">y2", "GT"], [FastaRecord("y1", "AC"), FastaRecord("y2", "GT")]),
      "genomes/c.fa" := File([">x2", "TTGA"], [FastaRecord("x2", "TTGA")]),
      "out" := Dir([])
    ]
  }

  /** The three entry names end in listed extensions. */
  lemma MixedEntriesAreFasta()
    ensures HasFastaExtension("a.fasta") && HasFastaExtension("b.fasta") && HasFastaExtension("c.fa")
  {
    LastFieldUnique("a.fasta", '.', "fasta");
    LastFieldUnique("b.fasta", '.', "fasta");
    LastFieldUnique("c.fa", '.', "fa");
  }

  /** Every entry of the example directory has a FASTA extension, so all three are listed, in listing order. */
  lemma MixedListing()
    ensures MkListFastaFiles("genomes", ["a.fasta", "b.fasta", "c.fa"]) ==
      ["genomes/a.fasta", "genomes/b.fasta", "genomes/c.fa"]
  {
    var docs := ["a.fasta", "b.fasta", "c.fa"];
    MixedEntriesAreFasta();
    assert docs[1..] == ["b.fasta", "c.fa"] && docs[1..][1..] == ["c.fa"] && docs[1..][1..][1..] == [];
    assert Join("genomes", "a.fasta") == "genomes/a.fasta";
    assert Join("genomes", "b.fasta") == "genomes/b.fasta";
    assert Join("genomes", "c.fa") == "genomes/c.fa";
  }

  /** A listed file of one record and one header line gives that record's row. */
  lemma SingleFileStep(fs: FileSystem, typer: Typer, path: string, header: string, body: string, rec: FastaRecord, st: string)
    requires path in fs && fs[path] == File([header, body], [rec]) && !IsMarked(body)
    requires typer(rec) == Report(st)
    ensures ListStep(fs, typer, path) == Emit(Row(rec.id, JString(st)))
  {
    OneHeaderIsSingle(header, body);
    ExtractNested(Tool, JString(st));
  }

  /** A listed file with two header lines is skipped. */
  lemma TwoHeaderFileStep(fs: FileSystem, typer: Typer, path: string, i: nat, j: nat)
    requires path in fs && fs[path].File?
    requires i < j < |fs[path].lines| && IsMarked(fs[path].lines[i]) && IsMarked(fs[path].lines[j])
    ensures ListStep(fs, typer, path) == Skip
  {
    TwoHeadersMultiple(fs[path].lines, i, j);
  }

  /** `b.fasta` has two header lines and is skipped; the two single files each give a row. */
  lemma MixedSteps()
    ensures ListStep(MixedDisk(), ConstantTyper(), "genomes/a.fasta") == Emit(Row("x1", JString("7")))
    ensures ListStep(MixedDisk(), ConstantTyper(), "genomes/b.fasta") == Skip
    ensures ListStep(MixedDisk(), ConstantTyper(), "genomes/c.fa") == Emit(Row("x2", JString("7")))
  {
    var fs := MixedDisk();
    assert '>' !in "ACGT" && '>' !in "TTGA";
    SingleFileStep(fs, ConstantTyper(), "genomes/a.fasta", ">x1", "ACGT", FastaRecord("x1", "ACGT"), "7");
    SingleFileStep(fs, ConstantTyper(), "genomes/c.fa", ">x2", "TTGA", FastaRecord("x2", "TTGA"), "7");
    assert ">y1"[0] == '>' && ">y2"[0] == '>';
    TwoHeaderFileStep(fs, ConstantTyper(), "genomes/b.fasta", 0, 2);
  }

  /** A loop over three items that emit, skip and emit completes with the two rows. */
  lemma EmitSkipEmit<T>(items: seq<T>, step: T -> Step, first: CsvLine, last: CsvLine)
    requires |items| == 3 && step(items[0]) == Emit(first) && step(items[1]) == Skip && step(items[2]) == Emit(last)
    ensures RunBatch(items, step) == BatchResult([first, last], Completed)
  {
    assert items[..0] == [];
    RunBatchNext(items, 0, step);
    RunBatchNext(items, 1, step);
    RunBatchNext(items, 2, step);
    assert items[..3] == items;
  }

  /** The directory run completes with rows for `x1` and `x2` only, in listing order. */
  lemma MixedDirectoryRows()
    ensures RunBatch(["genomes/a.fasta", "genomes/b.fasta", "genomes/c.fa"], ListSteps(MixedDisk(), ConstantTyper())) ==
      BatchResult([Row("x1", JString("7")), Row("x2", JString("7"))], Completed)
  {
    MixedSteps();
    EmitSkipEmit(["genomes/a.fasta", "genomes/b.fasta", "genomes/c.fa"], ListSteps(MixedDisk(), ConstantTyper()),
      Row("x1", JString("7")), Row("x2", JString("7")));
  }

  /** What the dispatch of the directory example reads: a directory whose listing runs to the two rows. */
  lemma MixedRun()
    ensures CheckCommandLineArguments(MixedArgs(), MixedDisk()) == Proceed
    ensures IsDir(MixedDisk(), MixedArgs().input) && !IsFile(MixedDisk(), MixedArgs().input)
    ensures RunBatch(MkListFastaFiles(MixedArgs().input, MixedDisk()[MixedArgs().input].entries),
      ListSteps(MixedDisk(), ConstantTyper())) == BatchResult([Row("x1", JString("7")), Row("x2", JString("7"))], Completed)
  {
    MixedArgsAccepted();
    assert MixedDisk()["genomes"].entries == ["a.fasta", "b.fasta", "c.fa"];
    MixedListing();
    MixedDirectoryRows();
  }

  /** The command line `run --input genomes --species saureus --outdir out`. */
  function MixedArgs(): Args {
    Args(Run, "genomes", "saureus", "out", None)
  }

  /** The arguments of the directory example pass every check. */
  lemma MixedArgsAccepted()
    ensures CheckCommandLineArguments(MixedArgs(), MixedDisk()) == Proceed
  {
    var fs := MixedDisk();
    assert fs["genomes"].entries == ["a.fasta", "b.fasta", "c.fa"];
    MixedListing();
    LastFieldUnique("genomes/a.fasta", '.', "fasta");
    assert ListHasFastaFiles(["genomes/a.fasta", "genomes/b.fasta", "genomes/c.fa"]);
    assert InputAccepted(MixedArgs(), fs);
    assert IsDir(fs, "out");
    CatalogAcceptsListedCodes();
  }

  /**
   * The whole invocation on the directory: it finishes and `results.csv`
   * holds the header and the rows of `x1` and `x2`, without `b.fasta`'s records.
   */
  method MixedDirectoryReport() returns (status: Status, results: seq<CsvLine>)
    ensures status == Done
    ensures results == [Header(["id", "sequence_type"]), Row("x1", JString("7")), Row("x2", JString("7"))]
  {
    MixedRun();
    status, results := DirectoryReport(MixedArgs(), MixedDisk(), ConstantTyper(),
      [Row("x1", JString("7")), Row("x2", JString("7"))]);
  }

  /**
   * An accepted invocation on a directory whose listing runs to completion
   * finishes, and `results.csv` is the header followed by the loop's rows.
   */
  method DirectoryReport(args: Args, fs: FileSystem, typer: Typer, rows: seq<CsvLine>)
    returns (status: Status, results: seq<CsvLine>)
    requires CheckCommandLineArguments(args, fs) == Proceed
    requires IsDir(fs, args.input) && !IsFile(fs, args.input)
    requires RunBatch(MkListFastaFiles(args.input, fs[args.input].entries), ListSteps(fs, typer)) ==
      BatchResult(rows, Completed)
    ensures status == Done
    ensures results == [Header(IdSequenceType)] + rows
  {
    var disk := new Disk([], {});
    status := GetSequenceTypes(args, fs, "mlst_db", "tmp", typer, disk);
    results := disk.results;
  }

  /** `notaspecies` holds a `p`, which no value of the catalog holds, so it is refused. */
  lemma UnknownSpeciesRejected()
    ensures !SpeciesOptions().IsSpeciesValid("notaspecies")
  {
    assert 'p' == "notaspecies"[5];
    forall i | 0 <= i < |Catalog| ensures 'p' !in Catalog[i].1 {
    }
    UnseenCharacterRejected(Catalog, "notaspecies", 'p');
  }

  /**
   * Whatever the other arguments, the code `notaspecies` never lets a run
   * proceed; when every earlier check passes, it is the reason for the refusal.
   */
  lemma UnknownSpeciesVerdict(args: Args, fs: FileSystem)
    requires args.species == "notaspecies"
    ensures CheckCommandLineArguments(args, fs) != Proceed
    ensures args.command.Run? && InputAccepted(args, fs) && IsDir(fs, args.outdir) && MethodPathAccepted(args, fs) ==>
      CheckCommandLineArguments(args, fs) == Exit(InvalidSpecies("notaspecies"))
  {
    UnknownSpeciesRejected();
  }

  /**
   * An invocation with the code `notaspecies` is refused before anything
   * runs: `results.csv` and the scratch folder are left as they were, and
   * the typer is never invoked.
   */
  method UnknownSpeciesRun(args: Args, fs: FileSystem, typer: Typer, disk: Disk) returns (status: Status)
    requires args.species == "notaspecies"
    modifies disk
    ensures status.Rejected? || status == ListedSpecies
    ensures args.command.Run? && InputAccepted(args, fs) && IsDir(fs, args.outdir) && MethodPathAccepted(args, fs) ==>
      status == Rejected(InvalidSpecies("notaspecies"))
    ensures disk.results == old(disk.results) && disk.scratch == old(disk.scratch)
  {
    UnknownSpeciesVerdict(args, fs);
    status := GetSequenceTypes(args, fs, "mlst_db", "tmp", typer, disk);
  }
}
