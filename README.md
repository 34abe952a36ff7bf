# MLST batch driver

A model of the labscripts multilocus-sequence-typing (MLST) driver. It has three entry points:

- `labscripts.mlst.mlst_runner` takes a single-record FASTA file, a multi-record FASTA file, or a directory of FASTA files.
- `labscripts.seqtyper.run_mlst` takes one or more input paths and types the first one.
- `labscripts.run_mlst.run_mlst` is the entry point without subcommands. It checks the species code against a flat list.

Every entry point first checks its command line in a fixed order, and the first failed check ends the process. It then runs the external typer once per record. For each record it reads the sequence type back from the typer's `data.json`, at `data[tool]["results"]["sequence_type"]`, and writes an `id,sequence_type` row to `results.csv`. Between records it empties the scratch folder.

The typer itself is a function parameter (`Batch.Typer`). It maps the record it is pointed at to the JSON tree it leaves in `data.json`. The file system is a map from path to node. A node is a file, given both as its raw lines and as the records a FASTA parser yields for it, or a directory, given as its listing. The state the runners change is modelled by two classes:

- `Batch.Disk` holds the lines of `results.csv` and the names of the files in the scratch folder.
- `MlstUtils.InputMlstyper` holds the typer's inputs. The runners re-point its `infile` field.

Every loop is specified by `Batch.RunBatch`: rows accumulate in order, skipped items add nothing, and the first uncaught exception stops the loop with the rows written so far. `Batch.RunBatchSpec` relates it to a front-to-back reference definition (`Batch.Emitted`) and to the first failing item.

Modules:

- `Text`: substring search and "split on a character, take the last field".
- `JsonTree`: nested lookup with Python's `KeyError`/`TypeError` outcomes.
- `Fasta`: records, the file-system view, and the header-line scan.
- `Batch`: report lines, the loop specification, and `Disk`.
- `Cli`: verdicts and exit statuses.
- `MlstUtils`: the species catalog and `InputMlstyper`.
- `MlstRunner`, `Seqtyper`, `RunMlst`: one module per entry point.
- `MlstScenarios`: whole invocations on small concrete inputs.

The three entry points hold identical copies of `is_single_fasta_file` and of the extraction, differing only in the typer key (`mlst_cge` or `mlst`). Each copy is modelled by one shared member: `Fasta.IsSingleFastaFile` and `JsonTree.ExtractSequenceType`. The runners of `run_mlst` differ from those of `seqtyper` only in using `rm` rather than `rm -rf`, which is invisible at this level, so `RunMlst.RunMain` uses the `Seqtyper` runners.

## Model

| member | source | states |
|---|---|---|
| Text.ContainsOccurs | src/labscripts/mlst/mlst_utils.py:160-165 | Python's `in` on strings: `sub` occurs in `s` exactly when it is a prefix of some suffix of `s` |
| Text.LastFieldSuffix | src/labscripts/mlst/mlst_runner.py:101 | `split(sep)[-1]` is a suffix of the string and holds no separator. It is preceded by the separator when the string holds one, and is the whole string otherwise |
| Text.LastFieldUnique | src/labscripts/mlst/mlst_runner.py:101 | any separator-free `t` that follows a separator at the end of the string is its last field |
| JsonTree.ExtractSequenceType | src/labscripts/mlst/mlst_runner.py:158-163 | the lookup succeeds exactly when `tool`, `results` and `sequence_type` are object keys at the three levels, and then yields the value found there |
| JsonTree.ExtractSequenceTypeWalks | src/labscripts/seqtyper/run_mlst.py:270-275 | extraction is a walk of the path `[tool, "results", "sequence_type"]`, with the same error as Python's chained subscripts |
| JsonTree.ExtractNested | src/labscripts/run_mlst/run_mlst.py:127-132 | a report nesting `st` under the tool's path yields `st` back |
| JsonTree.WalkFailsAtFirstBadKey | src/labscripts/mlst/mlst_runner.py:162 | a failing chained lookup fails at the first key that is missing, or whose parent is not an object, with that key's error |
| JsonTree.ToolKeysDiffer | src/labscripts/seqtyper/run_mlst.py:274 | a report written under `mlst` does not satisfy the `mlst_cge` extraction, nor the other way round: each raises `KeyError` on the top key |
| Fasta.SingleFastaIffNoTwoHeaders | src/labscripts/mlst/mlst_runner.py:147-156 | a file counts as single exactly when no two distinct lines contain `>` (a file with no header line counts as single) |
| Fasta.IsSingleFastaFile | src/labscripts/mlst/mlst_runner.py:147-156 | the early-exit line scan answers exactly `SingleFasta` (fewer than two lines containing `>`) |
| Batch.RunBatchSpec | src/labscripts/mlst/mlst_runner.py:202-221 | a loop completes exactly when no step fails, and then its rows are all emitted rows in order. Otherwise it stops at the first failing item, with that item's error and the rows of the items before it |
| Batch.RunBatchAllEmit | src/labscripts/mlst/mlst_runner.py:240-257 | when every step emits, the loop completes with one row per item, row `j` from item `j` |
| Batch.RunBatchNext | src/labscripts/mlst/mlst_runner.py:202-221 | one iteration: a skip keeps the result, a row extends it, and a failure ends the whole run with the rows so far |
| Batch.RecordRunRows | src/labscripts/seqtyper/run_mlst.py:312-332 | when every record's report has a sequence type, the multi-record loop writes one row per record in parse order, each with the record's id and its sequence type |
| Batch.SingleRun | src/labscripts/mlst/mlst_runner.py:168-185 | a single-record run yields a row exactly when the path is a file with one record whose report holds a sequence type. The row is that record's id with the extracted sequence type. Otherwise the error is the first exception on the way: the file cannot be opened, it does not hold exactly one record, or the extraction fails |
| MlstUtils.IsSpeciesValidSpec | src/labscripts/mlst/mlst_utils.py:160-165 | a code is accepted exactly when some catalog value contains it as a substring |
| MlstUtils.ListedCodeAccepted | src/labscripts/mlst/mlst_utils.py:160-165 | every code listed inside a value, including the second of a comma-separated pair, is accepted |
| MlstUtils.UnseenCharacterRejected | src/labscripts/mlst/mlst_utils.py:160-165 | a code holding a character that no value holds is refused |
| MlstUtils.CatalogAcceptsListedCodes | src/labscripts/mlst/mlst_utils.py:63 | `ecoli`, `ecoli_2` and `saureus` are accepted by the default catalog |
| MlstUtils.CatalogAcceptsNonCodes | src/labscripts/mlst/mlst_utils.py:63 | substring matching also accepts `coli`, `ecoli, ecoli` and the empty string |
| MlstUtils.CatalogRejectsWrongCase | src/labscripts/mlst/mlst_utils.py:160-165 | matching is case-sensitive: `Ecoli` is refused |
| MlstUtils.CustomCatalogOnly | src/labscripts/mlst/mlst_utils.py:157-158 | a catalog passed to the constructor replaces the default: one holding only the E. coli codes refuses `saureus` |
| MlstUtils.InputMlstyper.constructor | src/labscripts/mlst/mlst_utils.py:177-213 | every modelled argument (all but `depth`) is stored unchanged in the field of the same name |
| MlstUtils.WithDefaults | src/labscripts/mlst/mlst_utils.py:177-191 | the defaults: extended output and quiet on, matrix and saving of temporary files off, header `id,sequence_type`, both output directories `.` |
| MlstRunner.HasFastaExtensionBySuffix | src/labscripts/mlst/mlst_runner.py:99-107 | a name is accepted exactly when it is one of the six extensions or ends with `.` followed by one |
| MlstRunner.AcceptedExtensionExamples | src/labscripts/mlst/mlst_runner.py:99-107 | `genome.fasta`, `contigs.fa` and a bare `fna` are accepted |
| MlstRunner.NearMissExtensionsRejected | src/labscripts/mlst/mlst_runner.py:101-104 | `genome.FASTA` is refused because the comparison is case-sensitive, and `genome.fasta.gz` because only the last field counts |
| MlstRunner.MkListFastaFilesMembers | src/labscripts/mlst/mlst_runner.py:109-113 | the list holds exactly the directory-joined entries that have a FASTA extension, and is no longer than the listing |
| MlstRunner.MkListFastaFilesAppend | src/labscripts/mlst/mlst_runner.py:112 | the filter works piece by piece, keeping listing order |
| MlstRunner.ListHasFastaFilesFinds | src/labscripts/mlst/mlst_runner.py:115-120 | the search succeeds exactly when some path has a FASTA extension |
| MlstRunner.LastFieldOfJoin | src/labscripts/mlst/mlst_runner.py:118 | for a directory other than `.`, the extension of `str(directory / doc)` is `doc`'s own when `doc` holds a `.`. Otherwise it contains the `/` |
| MlstRunner.DirectoryCheck | src/labscripts/mlst/mlst_runner.py:131-135 | for a directory other than `.`, the directory check passes exactly when some entry holds a `.` and has a FASTA extension |
| MlstRunner.CheckCommandLineArguments | src/labscripts/mlst/mlst_runner.py:122-145 | `list_sp` exits first. Each refusal happens exactly when its check fails and all earlier ones pass. The run proceeds exactly when all checks pass |
| MlstRunner.AcceptedInputIsDispatched | src/labscripts/mlst/mlst_runner.py:285-290 | accepted arguments name a FASTA file, or a directory whose list of FASTA files is not empty |
| MlstRunner.ListStep | src/labscripts/mlst/mlst_runner.py:241-251 | a listed path is skipped exactly when it is a file with two header lines. It gives a row exactly when it is a file with fewer than two header lines, one record, and a report holding a sequence type; the row is that record's id and the extracted sequence type. Any other path raises |
| MlstRunner.TypeAndExtract | src/labscripts/mlst/mlst_runner.py:172-176 | `infile` is re-pointed, `data.json` appears in the scratch folder, and the result is the extraction from the typer's report |
| MlstRunner.RunMlstyperSingleFasta | src/labscripts/mlst/mlst_runner.py:165-188 | on success `results.csv` is exactly the header and the record's row, and scratch is emptied. Any exception leaves `results.csv` as it was, because truncation comes after extraction |
| MlstRunner.TypeStagedRecord | src/labscripts/mlst/mlst_runner.py:204-221 | one staged record: on success its row is appended and scratch emptied; on failure the staged file and `data.json` stay |
| MlstRunner.TypeEachRecord | src/labscripts/mlst/mlst_runner.py:202-221 | the loop appends exactly the rows of `RunBatch` over the records. It re-points `infile` to the staged file once it has typed anything. It stops only on an extraction failure, leaving `sequence.fasta` and `data.json` in scratch |
| MlstRunner.RunMlstyperMultipleFasta | src/labscripts/mlst/mlst_runner.py:190-223 | `results.csv` becomes the header followed by the batch rows, even when the input cannot be parsed |
| MlstRunner.TypeListedFile | src/labscripts/mlst/mlst_runner.py:241-256 | one iteration of the directory loop: the step `ListStep` decides, plus its effect on `results.csv`, scratch and `infile` |
| MlstRunner.TypeEachFile | src/labscripts/mlst/mlst_runner.py:240-257 | the directory loop appends exactly `RunBatch`'s rows over the listed files. Once anything is typed, `infile` names a single-record file |
| MlstRunner.RunMlstyperListFasta | src/labscripts/mlst/mlst_runner.py:225-259 | `results.csv` becomes the header followed by one row per single-record FASTA file, in listing order, stopping at the first exception |
| MlstRunner.GetSequenceTypes | src/labscripts/mlst/mlst_runner.py:262-291 | a refusal touches nothing. Otherwise exactly one runner runs, chosen by file/directory and header count; `results.csv` is what that runner writes, and the scratch folder is emptied after each typed record, keeping `data.json` (and the staged `sequence.fasta` in the multi-record runner) when extraction fails |
| MlstRunner.RerunLeavesSameReport | src/labscripts/mlst/mlst_runner.py:262-291 | running the same invocation twice leaves `results.csv` as after the first run, and a changed report starts with the header |
| Seqtyper.CheckCommandLineArguments | src/labscripts/seqtyper/run_mlst.py:238-257 | as for `mlst_runner`, but only the first input path is checked and it must be a file |
| Seqtyper.RunMlstyperSingleFasta | src/labscripts/seqtyper/run_mlst.py:277-297 | as for `mlst_runner`, but `infile` is left as given (all input paths) |
| Seqtyper.RunMlstyperMultipleFasta | src/labscripts/seqtyper/run_mlst.py:299-334 | `results.csv` is opened for appending: the new header and rows follow whatever it already held |
| Seqtyper.GetSequenceTypes | src/labscripts/seqtyper/run_mlst.py:337-364 | a refusal touches nothing. Otherwise the first input path picks the single or multi-record runner, and `results.csv` and the scratch folder end as that runner leaves them |
| Seqtyper.RerunAppendsAgain | src/labscripts/seqtyper/run_mlst.py:308-311 | a second multi-record run appends a second header and the same rows again |
| RunMlst.CheckCommandLineArguments | src/labscripts/run_mlst/run_mlst.py:99-113 | the same checks without `list_sp`, with the species compared whole against the flat list |
| RunMlst.ExactMembershipRefusesFragments | src/labscripts/run_mlst/run_mlst.py:112-113 | `coli`, `ecoli, ecoli` and the empty string are refused here, although the catalog's substring check accepts them |
| RunMlst.RunMain | src/labscripts/run_mlst/run_mlst.py:193-219 | a refusal touches nothing. Otherwise the single or multi-record runner leaves `results.csv` and the scratch folder as in `seqtyper` |
| MlstScenarios.TwoRecordRows | src/labscripts/mlst/mlst_runner.py:202-221 | the two records of a two-record file give rows `seqA,5` and `seqB,12` |
| MlstScenarios.PairFileIsMultiple | src/labscripts/mlst/mlst_runner.py:147-156 | a file with two header lines is not single |
| MlstScenarios.TwoRecordReport | src/labscripts/mlst/mlst_runner.py:262-291 | the whole invocation on a two-record file finishes with the header and both rows |
| MlstScenarios.MixedListing | src/labscripts/mlst/mlst_runner.py:109-113 | a directory of `a.fasta`, `b.fasta`, `c.fa` lists all three, joined and in order |
| MlstScenarios.MixedSteps | src/labscripts/mlst/mlst_runner.py:241-242 | the two-record file of the directory is skipped and the others give rows |
| MlstScenarios.MixedDirectoryRows | src/labscripts/mlst/mlst_runner.py:240-257 | the directory loop gives the rows of `x1` and `x2` only, in listing order |
| MlstScenarios.DirectoryReport | src/labscripts/mlst/mlst_runner.py:288-289 | an accepted invocation on a directory whose loop completes finishes with `results.csv` holding the header followed by exactly the loop's rows |
| MlstScenarios.MixedDirectoryReport | src/labscripts/mlst/mlst_runner.py:262-291 | the whole invocation on the directory finishes with the header and the two rows |
| MlstScenarios.UnknownSpeciesVerdict | src/labscripts/mlst/mlst_runner.py:144-145 | the code `notaspecies` never lets a run proceed, and is the reason for refusal once the earlier checks pass |
| MlstScenarios.UnknownSpeciesRun | src/labscripts/mlst/mlst_runner.py:122-145 | an invocation with `notaspecies` is refused (or lists species) and leaves `results.csv` and scratch untouched |

## Left out

- The typer (`mlstyper`, the CGE MLST program) is a function parameter from record to report. The database, species, method path and flags it receives are not modelled.
- FASTA parsing (`SeqIO.read`, `SeqIO.parse`, `SeqIO.write`): each file carries its parsed records alongside its raw lines. A malformed file is not modelled beyond "not exactly one record".
- `json.load` and an absent or unparsable `data.json`: the typer always leaves a JSON tree.
- The CSV text encoding and `DictWriter`'s field checks: `results.csv` is a sequence of header and row values. The sequence type is kept as the JSON value found.
- Paths: `Path` normalisation, `str(Path)` and the real `os.listdir` order. A path joins a directory and a name with `/`, and a listing is given in the order it is read. `pathlib` drops a `.` directory when joining (`Path('.') / 'fasta'` is `fasta`), which this join does not.
- MlstUtils.InputMlstyper.constructor: the `depth` argument (a float, default 5.0) is not modelled. It is only passed on to the typer, and none of the three entry points sets it.
- `rm` versus `rm -rf` on the scratch glob: both empty the scratch folder (it holds no sub-directories).
- Besides `data.json` and `sequence.fasta`, the other files the typer writes into the scratch folder.
- Buffered writes: a runner that stops with an exception is modelled as having written the rows before it; whether unflushed lines reach the disk is not modelled.
- `argparse`, the printed messages, `print_species_options`, the `list_sp` output, `sys.exit` codes and the final "Done!" line: these become the `Cli.Verdict` and `Cli.Status` values.
- `resources.files` and the package locations of the database and scratch folder: these are parameters (`database`, `tmpDir`).
- The species catalogs: each is a 7-entry excerpt, and `run_mlst`'s flat list is a 10-code excerpt, with the same entries as the source.
- `labscripts.mlst.mlst.InputMlstyper`, which `seqtyper` and `run_mlst` import, is not part of this model. Both are modelled with `MlstUtils.InputMlstyper`, with their `outdir` argument as `outdirMlstyper`.
- Seqtyper.RunMlstyperSingleFasta: the typer receives the whole `infile` list. The model types the one record of the first path, which the runner reads for the row's id.
- Seqtyper.GetSequenceTypes: for the second and later input paths, only their presence in `infile` is modelled. They are not checked, as in the source.
- A row for an item whose typing fails is never written. Every runner stops at the first uncaught exception, with the rows written before it.
