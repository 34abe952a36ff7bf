/**
 * The parsed JSON tree the external typer leaves in `data.json`, and the
 * subscripting `data[k0][k1][k2]` the runners apply to it.
 */
module JsonTree {
  import opened Wrappers

  /** A document as `json.load` returns it (numbers are kept as integers). */
  datatype Json =
    | JNull
    | JBool(b: bool)
    | JNumber(n: int)
    | JString(s: string)
    | JArray(items: seq<Json>)
    | JObject(members: map<string, Json>)

  /** What `value[key]` raises: a dict without the key, or a value that is not a dict. */
  datatype LookupError = KeyError(key: string) | TypeError(key: string)

  /** `j[key]` with a string key. */
  function Get(j: Json, key: string): Result<Json, LookupError> {
    if !j.JObject? then Err(TypeError(key))
    else if key in j.members then Ok(j.members[key])
    else Err(KeyError(key))
  }

  /** `j[path[0]][path[1]]...`: subscripts applied left to right; the first one that raises ends the walk. */
  function Walk(j: Json, path: seq<string>): Result<Json, LookupError>
    decreases |path|
  {
    if path == [] then Ok(j)
    else match Get(j, path[0])
      case Ok(child) => Walk(child, path[1..])
      case Err(e) => Err(e)
  }

  /** The smallest tree with `leaf` at the end of `path`: what a typer writes when it reports `leaf`. */
  function Nest(path: seq<string>, leaf: Json): Json
    decreases |path|
  {
    if path == [] then leaf else JObject(map[path[0] := Nest(path[1..], leaf)])
  }

  /** The key path of the sequence type in the report of the typer whose top-level key is `tool`. */
  function SequenceTypePath(tool: string): seq<string> {
    [tool, "results", "sequence_type"]
  }

  /**
   * `data[tool]["results"]["sequence_type"]`. The three subscripts raise on a
   * missing key (or a non-dict value); nothing in the runners catches it.
   */
  function ExtractSequenceType(data: Json, tool: string): (r: Result<Json, LookupError>)
    ensures r.Ok? <==>
      && data.JObject? && tool in data.members
      && data.members[tool].JObject? && "results" in data.members[tool].members
      && data.members[tool].members["results"].JObject?
      && "sequence_type" in data.members[tool].members["results"].members
    ensures r.Ok? ==> r.value == data.members[tool].members["results"].members["sequence_type"]
  {
    match Get(data, tool)
    case Err(e) => Err(e)
    case Ok(report) =>
      match Get(report, "results")
      case Err(e) => Err(e)
      case Ok(results) => Get(results, "sequence_type")
  }

  /** The three subscripts are a walk along the path `tool`, `results`, `sequence_type`, raising what the walk raises. */
  lemma ExtractSequenceTypeWalks(data: Json, tool: string)
    ensures ExtractSequenceType(data, tool) == Walk(data, SequenceTypePath(tool))
  {
    var path := SequenceTypePath(tool);
    assert path[1..] == ["results", "sequence_type"] && path[1..][1..] == ["sequence_type"];
    assert path[1..][1..][1..] == [];
    match Get(data, tool)
    case Err(e) =>
    case Ok(report) =>
      assert Walk(data, path) == Walk(report, path[1..]);
      match Get(report, "results")
      case Err(e) =>
      case Ok(results) =>
        assert Walk(report, path[1..]) == Walk(results, path[1..][1..]);
        match Get(results, "sequence_type")
        case Err(e) =>
        case Ok(st) =>
          assert Walk(results, path[1..][1..]) == Walk(st, path[1..][1..][1..]);
  }

  /** Walking the path a tree was nested along gives back its leaf. */
  lemma {:induction false} WalkNest(path: seq<string>, leaf: Json)
    ensures Walk(Nest(path, leaf), path) == Ok(leaf)
    decreases |path|
  {
    if path != [] {
      WalkNest(path[1..], leaf);
    }
  }

  /** A typer report carrying `st` under `tool` yields `st`: extraction inverts nesting. */
  lemma ExtractNested(tool: string, st: Json)
    ensures ExtractSequenceType(Nest(SequenceTypePath(tool), st), tool) == Ok(st)
  {
    WalkNest(SequenceTypePath(tool), st);
    ExtractSequenceTypeWalks(Nest(SequenceTypePath(tool), st), tool);
  }

  /**
   * A failed walk fails at its first failing subscript: some prefix of the
   * path walks fine and the next key raises the reported error.
   */
  lemma {:induction false} WalkFailsAtFirstBadKey(j: Json, path: seq<string>)
    requires Walk(j, path).Err?
    ensures exists k :: (0 <= k < |path| && Walk(j, path[..k]).Ok? &&
      Get(Walk(j, path[..k]).value, path[k]) == Err(Walk(j, path).error))
    decreases |path|
  {
    assert path[..0] == [];
    match Get(j, path[0])
    case Err(e) =>
      assert Walk(j, path[..0]) == Ok(j);
    case Ok(child) =>
      WalkFailsAtFirstBadKey(child, path[1..]);
      var k :| 0 <= k < |path[1..]| && Walk(child, path[1..][..k]).Ok? &&
        Get(Walk(child, path[1..][..k]).value, path[1..][k]) == Err(Walk(child, path[1..]).error);
      var pre := path[..k + 1];
      assert pre[0] == path[0] && pre[1..] == path[1..][..k];
      assert Walk(j, pre) == Walk(child, path[1..][..k]);
  }

  /** The two entry points read different top-level keys: a report under "mlst" has nothing under "mlst_cge". */
  lemma ToolKeysDiffer(st: Json)
    ensures ExtractSequenceType(Nest(SequenceTypePath("mlst"), st), "mlst_cge") == Err(KeyError("mlst_cge"))
    ensures ExtractSequenceType(Nest(SequenceTypePath("mlst_cge"), st), "mlst") == Err(KeyError("mlst"))
  {
  }
}
