/**
 * The report and the batch loop shared by every runner: the lines of
 * `results.csv`, the scratch folder, the external typer, and the
 * specification of "one row per processed item, in order, until the first
 * uncaught exception".
 */
module Batch {
  import opened Wrappers
  import opened JsonTree
  import opened Fasta

  /** One line of `results.csv`: the header, or an (id, sequence_type) row. */
  datatype CsvLine = Header(fields: seq<string>) | Row(id: string, sequenceType: Json)

  /** The field names every runner writes as its header. */
  const IdSequenceType: seq<string> := ["id", "sequence_type"]

  /** The file a record is staged into, inside the scratch folder. */
  const SequenceFasta: string := "sequence.fasta"

  /** The typer's result file, inside the scratch folder. */
  const DataJson: string := "data.json"

  /** An exception that escapes a runner and ends the process. */
  datatype RunError =
    | CannotOpen(path: string)       // open() or a FASTA reader on a missing path or a directory
    | CannotList(path: string)       // os.listdir on something that is not a directory
    | NotOneRecord(path: string)     // SeqIO.read on a file without exactly one record
    | ExtractFailed(error: LookupError)

  /** How a runner ends: all items processed, or stopped by an exception. */
  datatype Outcome = Completed | Aborted(error: RunError)

  /**
   * The external typer with the run's species, database and flags fixed:
   * the JSON tree it leaves in `data.json` for the record it is pointed at.
   */
  type Typer = FastaRecord -> Json

  /** What one loop iteration contributes: nothing, one row, or an exception. */
  datatype Step = Skip | Emit(row: CsvLine) | Fail(error: RunError)

  /** The rows a loop has written and how it ended. */
  datatype BatchResult = BatchResult(rows: seq<CsvLine>, outcome: Outcome)

  /**
   * Running a loop over `items` whose body is `step`: rows accumulate in
   * order, skipped items add nothing, and the first failure stops the loop
   * with the rows written so far.
   */
  function RunBatch<T>(items: seq<T>, step: T -> Step): (b: BatchResult)
    decreases |items|
  {
    if items == [] then BatchResult([], Completed)
    else
      var prev := RunBatch(items[..|items| - 1], step);
      if prev.outcome.Aborted? then prev
      else match step(items[|items| - 1])
        case Skip => prev
        case Emit(row) => BatchResult(prev.rows + [row], Completed)
        case Fail(e) => BatchResult(prev.rows, Aborted(e))
  }

  /** The rows the steps of `items` emit, ignoring failures: a reference definition, built front to back. */
  function Emitted<T>(items: seq<T>, step: T -> Step): seq<CsvLine>
    decreases |items|
  {
    if items == [] then []
    else (if step(items[0]).Emit? then [step(items[0]).row] else []) + Emitted(items[1..], step)
  }

  /** `k` is the first item whose step fails. */
  ghost predicate FirstFailureAt<T>(items: seq<T>, step: T -> Step, k: int) {
    && 0 <= k < |items|
    && step(items[k]).Fail?
    && forall j :: 0 <= j < k ==> !step(items[j]).Fail?
  }

  /** One more item: the loop's next iteration. */
  lemma RunBatchSnoc<T>(items: seq<T>, x: T, step: T -> Step)
    ensures RunBatch(items + [x], step) ==
      var prev := RunBatch(items, step);
      if prev.outcome.Aborted? then prev
      else match step(x)
        case Skip => prev
        case Emit(row) => BatchResult(prev.rows + [row], Completed)
        case Fail(e) => BatchResult(prev.rows, Aborted(e))
  {
    assert (items + [x])[..|items|] == items;
  }

  /** The prefix one item longer: the loop's next iteration over `items`. */
  lemma RunBatchPrefixNext<T>(items: seq<T>, i: nat, step: T -> Step)
    requires i < |items| && RunBatch(items[..i], step).outcome == Completed
    ensures RunBatch(items[..i + 1], step) ==
      var prev := RunBatch(items[..i], step);
      match step(items[i])
      case Skip => prev
      case Emit(row) => BatchResult(prev.rows + [row], Completed)
      case Fail(e) => BatchResult(prev.rows, Aborted(e))
  {
    var next := items[..i + 1];
    assert next[..|next| - 1] == items[..i] && next[|next| - 1] == items[i];
  }

  /** A loop stopped within a prefix of `items` is stopped for all of `items`, with the same result. */
  lemma RunBatchPrefixStopped<T>(items: seq<T>, n: nat, step: T -> Step)
    requires n <= |items| && RunBatch(items[..n], step).outcome.Aborted?
    ensures RunBatch(items, step) == RunBatch(items[..n], step)
  {
    assert items[..n] + items[n..] == items;
    RunBatchStopped(items[..n], items[n..], step);
  }

  /**
   * The loop's next iteration, read off directly: a skip keeps the result,
   * a row extends it, and a failure ends the whole run with the rows so far.
   */
  lemma RunBatchNext<T>(items: seq<T>, i: nat, step: T -> Step)
    requires i < |items| && RunBatch(items[..i], step).outcome == Completed
    ensures var prev := RunBatch(items[..i], step);
      match step(items[i])
      case Skip => RunBatch(items[..i + 1], step) == prev
      case Emit(row) => RunBatch(items[..i + 1], step) == BatchResult(prev.rows + [row], Completed)
      case Fail(e) => RunBatch(items, step) == BatchResult(prev.rows, Aborted(e))
  {
    RunBatchPrefixNext(items, i, step);
    if step(items[i]).Fail? {
      RunBatchPrefixStopped(items, i + 1, step);
    }
  }

  /** Once a loop has stopped, later items change nothing. */
  lemma {:induction false} RunBatchStopped<T>(items: seq<T>, more: seq<T>, step: T -> Step)
    requires RunBatch(items, step).outcome.Aborted?
    ensures RunBatch(items + more, step) == RunBatch(items, step)
    decreases |more|
  {
    if more != [] {
      var init := more[..|more| - 1];
      RunBatchStopped(items, init, step);
      assert items + more == (items + init) + [more[|more| - 1]];
      RunBatchSnoc(items + init, more[|more| - 1], step);
    } else {
      assert items + more == items;
    }
  }

  lemma {:induction false} EmittedAppend<T>(a: seq<T>, b: seq<T>, step: T -> Step)
    ensures Emitted(a + b, step) == Emitted(a, step) + Emitted(b, step)
    decreases |a|
  {
    if a != [] {
      assert (a + b)[0] == a[0] && (a + b)[1..] == a[1..] + b;
      EmittedAppend(a[1..], b, step);
    } else {
      assert a + b == b;
    }
  }

  /**
   * What a loop produces: it completes exactly when no step fails, and then
   * its rows are all the emitted rows in order; otherwise it stops at the
   * first failing item with that item's error and the rows of the items
   * before it.
   */
  lemma {:induction false} RunBatchSpec<T>(items: seq<T>, step: T -> Step)
    ensures RunBatch(items, step).outcome.Completed? <==>
      forall j :: 0 <= j < |items| ==> !step(items[j]).Fail?
    ensures RunBatch(items, step).outcome.Completed? ==>
      RunBatch(items, step).rows == Emitted(items, step)
    ensures RunBatch(items, step).outcome.Aborted? ==>
      exists k :: FirstFailureAt(items, step, k) &&
        RunBatch(items, step).outcome.error == step(items[k]).error &&
        RunBatch(items, step).rows == Emitted(items[..k], step)
    decreases |items|
  {
    if items != [] {
      var init := items[..|items| - 1];
      var x := items[|items| - 1];
      assert items == init + [x];
      RunBatchSpec(init, step);
      EmittedAppend(init, [x], step);
      var prev := RunBatch(init, step);
      if prev.outcome.Aborted? {
        var k :| FirstFailureAt(init, step, k) && prev.outcome.error == step(init[k]).error &&
          prev.rows == Emitted(init[..k], step);
        assert items[..k] == init[..k];
        assert FirstFailureAt(items, step, k);
      } else if step(x).Fail? {
        assert FirstFailureAt(items, step, |init|);
        assert items[..|init|] == init;
      }
    }
  }

  /** When every step emits, the loop completes with exactly one row per item, row `j` from item `j`. */
  lemma {:induction false} RunBatchAllEmit<T>(items: seq<T>, step: T -> Step)
    requires forall j :: 0 <= j < |items| ==> step(items[j]).Emit?
    ensures RunBatch(items, step).outcome == Completed
    ensures |RunBatch(items, step).rows| == |items|
    ensures forall j :: 0 <= j < |items| ==> RunBatch(items, step).rows[j] == step(items[j]).row
    decreases |items|
  {
    if items != [] {
      var init := items[..|items| - 1];
      assert forall j :: 0 <= j < |init| ==> init[j] == items[j];
      RunBatchAllEmit(init, step);
    }
  }

  /** One record through the typer: its row, or the exception extraction raises. */
  function RecordStep(typer: Typer, tool: string, rec: FastaRecord): Step {
    match ExtractSequenceType(typer(rec), tool)
    case Ok(st) => Emit(Row(rec.id, st))
    case Err(e) => Fail(ExtractFailed(e))
  }

  /** The loop body of the multi-record runners, for one run. */
  function RecordSteps(typer: Typer, tool: string): FastaRecord -> Step {
    rec => RecordStep(typer, tool, rec)
  }

  /**
   * A multi-record run in which every record's report has a sequence type
   * completes with one row per record, in parse order, row `j` carrying
   * record `j`'s id and its extracted sequence type.
   */
  lemma {:induction false} RecordRunRows(records: seq<FastaRecord>, typer: Typer, tool: string)
    requires forall j :: 0 <= j < |records| ==> ExtractSequenceType(typer(records[j]), tool).Ok?
    ensures RunBatch(records, RecordSteps(typer, tool)).outcome == Completed
    ensures |RunBatch(records, RecordSteps(typer, tool)).rows| == |records|
    ensures forall j :: 0 <= j < |records| ==>
      RunBatch(records, RecordSteps(typer, tool)).rows[j] ==
        Row(records[j].id, ExtractSequenceType(typer(records[j]), tool).value)
  {
    RunBatchAllEmit(records, RecordSteps(typer, tool));
  }

  /**
   * `SeqIO.read(path)` followed by the typer and extraction: the one row a
   * single-record run writes, or the exception that stops it.
   */
  function SingleRun(fs: FileSystem, path: string, typer: Typer, tool: string): (r: Result<CsvLine, RunError>)
    ensures r.Ok? <==>
      TyperInvoked(fs, path) && ExtractSequenceType(typer(fs[path].records[0]), tool).Ok?
    ensures r.Ok? ==>
      r.value == Row(fs[path].records[0].id, ExtractSequenceType(typer(fs[path].records[0]), tool).value)
    ensures !IsFile(fs, path) ==> r == Err(CannotOpen(path))
    ensures IsFile(fs, path) && |fs[path].records| != 1 ==> r == Err(NotOneRecord(path))
    ensures TyperInvoked(fs, path) && r.Err? ==>
      r.error == ExtractFailed(ExtractSequenceType(typer(fs[path].records[0]), tool).error)
  {
    if !IsFile(fs, path) then Err(CannotOpen(path))
    else if |fs[path].records| != 1 then Err(NotOneRecord(path))
    else
      var rec := fs[path].records[0];
      match ExtractSequenceType(typer(rec), tool)
      case Ok(st) => Ok(Row(rec.id, st))
      case Err(e) => Err(ExtractFailed(e))
  }

  /** Whether a single-record run gets as far as invoking the typer. */
  predicate TyperInvoked(fs: FileSystem, path: string) {
    IsFile(fs, path) && |fs[path].records| == 1
  }

  /**
   * What the runners change on disk: the lines of `results.csv` in the
   * output directory, and the names of the files in the scratch folder.
   */
  class Disk {
    var results: seq<CsvLine>
    var scratch: set<string>

    constructor (results: seq<CsvLine>, scratch: set<string>)
      ensures this.results == results && this.scratch == scratch
    {
      this.results := results;
      this.scratch := scratch;
    }
  }
}
