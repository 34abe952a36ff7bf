/**
 * FASTA inputs as the driver sees them: each file is its raw lines (what the
 * header-line scan reads) together with the records a FASTA parser yields
 * for it; the file system is a map from path to file or directory listing.
 */
module Fasta {

  /** One parsed sequence record: its identifier and its payload. */
  datatype FastaRecord = FastaRecord(id: string, sequence: string)

  /** A path on disk: a file (raw lines and parsed records) or a directory (its listing, in listing order). */
  datatype Node =
    | File(lines: seq<string>, records: seq<FastaRecord>)
    | Dir(entries: seq<string>)

  /** Paths that exist, and what each one is. */
  type FileSystem = map<string, Node>

  predicate Exists(fs: FileSystem, path: string) {
    path in fs
  }

  predicate IsFile(fs: FileSystem, path: string) {
    path in fs && fs[path].File?
  }

  predicate IsDir(fs: FileSystem, path: string) {
    path in fs && fs[path].Dir?
  }

  /** `directory / name` for a path object. */
  function Join(directory: string, name: string): string {
    directory + "/" + name
  }

  /** A header line: one that contains `>` anywhere. */
  predicate IsMarked(line: string) {
    '>' in line
  }

  /** The number of header lines. */
  function MarkedLines(lines: seq<string>): nat {
    if lines == [] then 0
    else MarkedLines(lines[..|lines| - 1]) + (if IsMarked(lines[|lines| - 1]) then 1 else 0)
  }

  /** What `is_single_fasta_file` decides: fewer than two header lines (none at all counts as single). */
  predicate SingleFasta(lines: seq<string>) {
    MarkedLines(lines) < 2
  }

  /** Counting a prefix never gives more than counting the whole. */
  lemma {:induction false} MarkedLinesPrefix(lines: seq<string>, i: nat)
    requires i <= |lines|
    ensures MarkedLines(lines[..i]) <= MarkedLines(lines)
    decreases |lines|
  {
    if i < |lines| {
      var init := lines[..|lines| - 1];
      assert init[..i] == lines[..i];
      MarkedLinesPrefix(init, i);
    } else {
      assert lines[..i] == lines;
    }
  }

  /** A file is single exactly when no two distinct lines are header lines. */
  lemma {:induction false} SingleFastaIffNoTwoHeaders(lines: seq<string>)
    ensures SingleFasta(lines) <==>
      !exists i, j :: 0 <= i < j < |lines| && IsMarked(lines[i]) && IsMarked(lines[j])
    decreases |lines|
  {
    if lines != [] {
      var init := lines[..|lines| - 1];
      var last := |lines| - 1;
      SingleFastaIffNoTwoHeaders(init);
      if MarkedLines(lines) >= 2 {
        if IsMarked(lines[last]) {
          var i := SomeMarked(init);
          assert IsMarked(lines[i]) && IsMarked(lines[last]);
        } else {
          var i, j :| 0 <= i < j < |init| && IsMarked(init[i]) && IsMarked(init[j]);
          assert IsMarked(lines[i]) && IsMarked(lines[j]);
        }
      }
      if exists i, j :: 0 <= i < j < |lines| && IsMarked(lines[i]) && IsMarked(lines[j]) {
        var i, j :| 0 <= i < j < |lines| && IsMarked(lines[i]) && IsMarked(lines[j]);
        if j < last {
          assert IsMarked(init[i]) && IsMarked(init[j]);
        } else {
          assert IsMarked(init[i]);
          CountsOne(init, i);
        }
      }
    }
  }

  /** A header line at index `i` makes the count positive. */
  lemma {:induction false} CountsOne(lines: seq<string>, i: nat)
    requires i < |lines| && IsMarked(lines[i])
    ensures MarkedLines(lines) >= 1
    decreases |lines|
  {
    if i < |lines| - 1 {
      var init := lines[..|lines| - 1];
      assert init[i] == lines[i];
      CountsOne(init, i);
    }
  }

  /** A positive count has a header line to show for it. */
  lemma {:induction false} SomeMarked(lines: seq<string>) returns (i: nat)
    requires MarkedLines(lines) >= 1
    ensures i < |lines| && IsMarked(lines[i])
    decreases |lines|
  {
    if IsMarked(lines[|lines| - 1]) {
      i := |lines| - 1;
    } else {
      var init := lines[..|lines| - 1];
      i := SomeMarked(init);
    }
  }

  /**
   * `is_single_fasta_file`: scan the lines once, counting header lines, and
   * answer "not single" as soon as the count reaches two.
   */
  method IsSingleFastaFile(lines: seq<string>) returns (single: bool)
    ensures single <==> SingleFasta(lines)
  {
    var counter := 0;
    for i := 0 to |lines|
      invariant counter == MarkedLines(lines[..i])
      invariant counter < 2
    {
      assert lines[..i + 1][..i] == lines[..i];
      if '>' in lines[i] {
        counter := counter + 1;
      }
      if counter == 2 {
        MarkedLinesPrefix(lines, i + 1);
        return false;
      }
    }
    assert lines[..|lines|] == lines;
    return true;
  }
}
