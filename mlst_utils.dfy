/**
 * `labscripts.mlst.mlst_utils`: the species catalog with its substring check,
 * and `InputMlstyper`, the mutable record of the typer's inputs.
 */
module MlstUtils {
  import opened Wrappers
  import opened Text

  /**
   * An excerpt of the class catalog: organism name to one or more
   * comma-separated database codes. Every value in the full catalog is
   * lower case, as here.
   */
  const Catalog: seq<(string, string)> := [
    ("Achromobacter", "achromobacter"),
    ("Acinetobacter baumannii", "abaumannii, abaumannii_2"),
    ("Escherichia coli", "ecoli, ecoli_2"),
    ("Salmonella enterica", "senterica"),
    ("Staphylococcus aureus", "saureus"),
    ("Vibrio cholerae", "vcholerae, vcholerae_2"),
    ("Yersinia ruckeri", "yruckeri")
  ]

  /** `SpeciesOptions(species_options=...)`: by default the class catalog. */
  datatype SpeciesOptions = SpeciesOptions(speciesOptions: seq<(string, string)> := Catalog) {

    /**
     * `is_species_valid`: scan the catalog values in order and accept the
     * code as soon as it occurs, as a substring, in one of them.
     */
    function IsSpeciesValid(species: string): bool
      decreases |speciesOptions|
    {
      if speciesOptions == [] then false
      else if Contains(speciesOptions[0].1, species) then true
      else SpeciesOptions(speciesOptions[1..]).IsSpeciesValid(species)
    }
  }

  /** A code is valid exactly when some catalog value contains it. */
  lemma {:induction false} IsSpeciesValidSpec(options: seq<(string, string)>, species: string)
    ensures SpeciesOptions(options).IsSpeciesValid(species) <==>
      exists i :: 0 <= i < |options| && Contains(options[i].1, species)
    decreases |options|
  {
    if options != [] && !Contains(options[0].1, species) {
      IsSpeciesValidSpec(options[1..], species);
      assert forall i :: 1 <= i < |options| ==> options[i] == options[1..][i - 1];
    }
  }

  /** Every code listed in a value, such as `ecoli_2` inside "ecoli, ecoli_2", is accepted. */
  lemma ListedCodeAccepted(options: seq<(string, string)>, i: nat, before: string, code: string, after: string)
    requires i < |options| && options[i].1 == before + code + after
    ensures SpeciesOptions(options).IsSpeciesValid(code)
  {
    var value := options[i].1;
    assert code <= value[|before|..] by {
      assert value[|before|..] == code + after;
    }
    ContainsOccurs(value, code);
    IsSpeciesValidSpec(options, code);
  }

  /** A code holding a character that no value holds is rejected. */
  lemma UnseenCharacterRejected(options: seq<(string, string)>, species: string, c: char)
    requires c in species
    requires forall i :: 0 <= i < |options| ==> c !in options[i].1
    ensures !SpeciesOptions(options).IsSpeciesValid(species)
  {
    IsSpeciesValidSpec(options, species);
    forall i | 0 <= i < |options|
      ensures !Contains(options[i].1, species)
    {
      ContainsOccurs(options[i].1, species);
    }
  }

  /** Substring matching accepts every listed code. */
  lemma CatalogAcceptsListedCodes()
    ensures SpeciesOptions().IsSpeciesValid("ecoli")
    ensures SpeciesOptions().IsSpeciesValid("ecoli_2")
    ensures SpeciesOptions().IsSpeciesValid("saureus")
  {
    ListedCodeAccepted(Catalog, 2, "", "ecoli", ", ecoli_2");
    ListedCodeAccepted(Catalog, 2, "ecoli, ", "ecoli_2", "");
    ListedCodeAccepted(Catalog, 4, "", "saureus", "");
  }

  /** Substring matching also accepts strings that are no code but occur inside a value, the empty string among them. */
  lemma CatalogAcceptsNonCodes()
    ensures SpeciesOptions().IsSpeciesValid("coli")
    ensures SpeciesOptions().IsSpeciesValid("ecoli, ecoli")
    ensures SpeciesOptions().IsSpeciesValid("")
  {
    ListedCodeAccepted(Catalog, 2, "e", "coli", ", ecoli_2");
    ListedCodeAccepted(Catalog, 2, "", "ecoli, ecoli", "_2");
    ListedCodeAccepted(Catalog, 0, "", "", "achromobacter");
  }

  /** Matching is case-sensitive and every value is lower case, so a capitalised code occurs nowhere. */
  lemma CatalogRejectsWrongCase()
    ensures !SpeciesOptions().IsSpeciesValid("Ecoli")
  {
    assert 'E' == "Ecoli"[0];
    forall i | 0 <= i < |Catalog| ensures 'E' !in Catalog[i].1 {
    }
    UnseenCharacterRejected(Catalog, "Ecoli", 'E');
  }

  /**
   * A custom catalog is the only one consulted: "saureus", which the class
   * catalog lists, is refused by a catalog holding only the E. coli codes.
   */
  lemma CustomCatalogOnly()
    ensures !SpeciesOptions([("Escherichia coli", "ecoli, ecoli_2")]).IsSpeciesValid("saureus")
  {
    assert 'a' == "saureus"[1];
    UnseenCharacterRejected([("Escherichia coli", "ecoli, ecoli_2")], "saureus", 'a');
  }

  /** The current directory, the default of both output directories. */
  const CurrentDirectory: string := "."

  /** The default header of `results.csv`. */
  const DefaultFieldnames: seq<string> := ["id", "sequence_type"]

  /**
   * The `infile` field: a single path when the driver builds the record for
   * `mlst_runner`, a list of paths once a runner re-points it (and from the
   * start in the other two entry points).
   */
  datatype Infile = PathArg(path: string) | PathList(paths: seq<string>)

  /** The typer's inputs, set in the constructor and re-pointed (`infile`) by the runners. */
  class InputMlstyper {
    var infile: Infile
    var species: string
    var database: string
    var tmpDir: string
    var methodPath: Option<string>
    var outdirMlstyper: string
    var outdirMlstRunner: string
    var extentedOutput: bool
    var quiet: bool
    var kmaMatrix: bool
    var saveTmp: bool
    var csvFieldnames: seq<string>

    /** Stores every argument, unchanged, in the field of the same name. */
    constructor (
      infile: Infile,
      species: string,
      database: string,
      tmpDir: string,
      methodPath: Option<string>,
      outdirMlstyper: string := CurrentDirectory,
      outdirMlstRunner: string := CurrentDirectory,
      extentedOutput: bool := true,
      quiet: bool := true,
      kmaMatrix: bool := false,
      saveTmp: bool := false,
      csvFieldnames: seq<string> := DefaultFieldnames)
      ensures this.infile == infile && this.species == species && this.database == database
      ensures this.tmpDir == tmpDir && this.methodPath == methodPath
      ensures this.outdirMlstyper == outdirMlstyper && this.outdirMlstRunner == outdirMlstRunner
      ensures this.extentedOutput == extentedOutput && this.quiet == quiet
      ensures this.kmaMatrix == kmaMatrix && this.saveTmp == saveTmp
      ensures this.csvFieldnames == csvFieldnames
    {
      this.infile := infile;
      this.species := species;
      this.database := database;
      this.tmpDir := tmpDir;
      this.methodPath := methodPath;
      this.outdirMlstyper := outdirMlstyper;
      this.outdirMlstRunner := outdirMlstRunner;
      this.extentedOutput := extentedOutput;
      this.quiet := quiet;
      this.kmaMatrix := kmaMatrix;
      this.saveTmp := saveTmp;
      this.csvFieldnames := csvFieldnames;
    }
  }

  /**
   * An `InputMlstyper` built from the five required arguments alone takes
   * the defaults: extended output and quiet on, matrix and saving of
   * temporary files off, the header `id,sequence_type`, and both output
   * directories the current directory.
   */
  method WithDefaults(infile: Infile, species: string, database: string, tmpDir: string, methodPath: Option<string>)
    returns (c: InputMlstyper)
    ensures c.infile == infile && c.species == species && c.database == database
    ensures c.tmpDir == tmpDir && c.methodPath == methodPath
    ensures c.extentedOutput && c.quiet && !c.kmaMatrix && !c.saveTmp
    ensures c.csvFieldnames == ["id", "sequence_type"]
    ensures c.outdirMlstyper == CurrentDirectory && c.outdirMlstRunner == CurrentDirectory
  {
    c := new InputMlstyper(infile, species, database, tmpDir, methodPath);
  }
}
